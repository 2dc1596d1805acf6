/**
 One encoded completion: validating the slot, refreshing the parameter-set cache, deciding
 whether the decoder may have the access unit, and copying it out.

 `Delivery` interleaves the same decisions with the other actors; `GateAgrees` says that
 the two descriptions decide alike.
 */
module EncodedSlot {
  import opened Basics
  import opened AnnexB
  import opened FrameLength
  import opened ParameterCache
  import Delivery

  const SLOTS: nat := 4
  const SLOT_SIZE: nat := 0x097f00
  const HEADER: nat := 4096
  const POISON: byte := 0xcc

  datatype Outcome =
    | NoSlot | Repeated | Untouched | Malformed
    | Detached | Refused | NoBuffer | TooSmall | Delivered

  // Word `k` of the slot header.
  function HeaderWord(slot: seq<byte>, k: nat): u32
    requires |slot| == SLOT_SIZE && k < 1024
  {
    Le32(slot[4 * k], slot[4 * k + 1], slot[4 * k + 2], slot[4 * k + 3])
  }

  predicate IsUntouched(slot: seq<byte>)
    requires |slot| == SLOT_SIZE
  {
    && HeaderWord(slot, 0) == HeaderWord(slot, 3) == HeaderWord(slot, 4) == PoisonWord(POISON)
    && slot[HEADER] == slot[HEADER + 1] == slot[HEADER + 2] == slot[HEADER + 3] == POISON
  }

  // Both lengths agree and fit, the slot names itself, and a start code leads.
  predicate IsComplete(slot: seq<byte>, idx: nat)
    requires |slot| == SLOT_SIZE
  {
    && 0 < HeaderWord(slot, 0) == HeaderWord(slot, 4) <= SLOT_SIZE - HEADER
    && HeaderWord(slot, 3) == idx + 1
    && CodeAt(slot, HEADER)
  }

  function Payload(slot: seq<byte>): seq<byte>
    requires |slot| == SLOT_SIZE && HeaderWord(slot, 0) <= SLOT_SIZE - HEADER
  {
    slot[HEADER..HEADER + HeaderWord(slot, 0)]
  }

  /**
   Which access units the decoder may have.  Under the placeholder only an IDR that the
   receiver vouches for; otherwise everything but a dependent picture met while an IDR is
   awaited, and a gap in the stream makes one awaited.
   */
  predicate Accepts(placeholder: bool, proven: bool, waiting: bool, gap: bool, c: AuClass) {
    if placeholder then proven && c.hasIdr else c.hasIdr || !c.hasVcl || !(waiting || gap)
  }

  // ----- What the card writes -----

  // The low, second, third and high byte of a dword.
  function Bytes(w: u32): seq<byte> {
    [w % 0x100, w / 0x100 % 0x100, w / 0x1_0000 % 0x100, w / 0x100_0000]
  }

  // An access unit in slot `number`, counted from one, as the card writes it: its length twice,
  // the slot's number, and from the fifth kilobyte on the payload.
  predicate HoldsAu(slot: seq<byte>, payload: seq<byte>, number: u32) {
    && |slot| == 0x97f00 && |payload| <= 0x97f00 - 0x1000
    && slot[..4] == Bytes(|payload|) && slot[12..16] == Bytes(number) && slot[16..20] == Bytes(|payload|)
    && slot[0x1000..0x1000 + |payload|] == payload
  }

  // The card's writes, over whatever was there before.
  function CardSlot(before: seq<byte>, payload: seq<byte>, number: u32): (slot: seq<byte>)
    requires |before| == 0x97f00 && |payload| <= 0x97f00 - 0x1000
    ensures HoldsAu(slot, payload, number)
  {
    Bytes(|payload|) + before[4..12] + Bytes(number) + Bytes(|payload|) + before[20..0x1000] + payload +
    before[0x1000 + |payload|..]
  }

  lemma BytesOfWord(w: u32, s: seq<byte>, k: nat)
    requires 4 * k + 4 <= |s| == SLOT_SIZE && k < 1024 && s[4 * k..4 * k + 4] == Bytes(w)
    ensures HeaderWord(s, k) == w
  {
    var b := Bytes(w);
    assert s[4 * k] == b[0] && s[4 * k + 1] == b[1] && s[4 * k + 2] == b[2] && s[4 * k + 3] == b[3];
    assert w == 0x100 * (w / 0x100) + w % 0x100;
    assert w / 0x100 == 0x100 * (w / 0x1_0000) + w / 0x100 % 0x100;
    assert w / 0x1_0000 == 0x100 * (w / 0x100_0000) + w / 0x1_0000 % 0x100;
  }

  lemma HeaderRead(slot: seq<byte>, payload: seq<byte>, number: u32)
    requires HoldsAu(slot, payload, number)
    ensures HeaderWord(slot, 0) == HeaderWord(slot, 4) == |payload| && HeaderWord(slot, 3) == number
  {
    BytesOfWord(|payload|, slot, 0);
    BytesOfWord(number, slot, 3);
    BytesOfWord(|payload|, slot, 4);
  }

  /**
   The validator accepts exactly what the card writes: an access unit in slot `idx` is complete
   for that slot and for no other, it is not taken for an untouched one, and it is read back
   unaltered.
   */
  lemma WrittenSlotIsComplete(slot: seq<byte>, payload: seq<byte>, idx: nat, other: nat)
    requires idx < 4 && HoldsAu(slot, payload, idx + 1) && CodeAt(payload, 0)
    ensures IsComplete(slot, other) <==> other == idx
    ensures !IsUntouched(slot)
    ensures other == idx ==> Payload(slot) == payload
  {
    HeaderRead(slot, payload, idx + 1);
    CodeMoved(slot, payload);
  }

  lemma CodeMoved(slot: seq<byte>, payload: seq<byte>)
    requires |slot| == SLOT_SIZE && HEADER + |payload| <= |slot| && slot[HEADER..HEADER + |payload|] == payload
    requires CodeAt(payload, 0)
    ensures CodeAt(slot, HEADER)
  {
    assert forall k :: 0 <= k < |payload| ==> slot[HEADER + k] == payload[k];
  }

  /** A slot the card has not written to since it was poisoned is untouched, and complete for none. */
  lemma PoisonedSlotIsUntouched(slot: seq<byte>, idx: nat)
    requires |slot| == 0x97f00 && forall k :: 0 <= k < |slot| ==> slot[k] == 0xcc
    ensures IsUntouched(slot) && !IsComplete(slot, idx)
  {
  }

  // A payload with a unit in it is long enough for the start code that leads it.
  lemma UnitsNeedACode(slot: seq<byte>, idx: nat)
    requires |slot| == SLOT_SIZE && IsComplete(slot, idx)
    ensures Types(Payload(slot)) != [] ==> CodeAt(Payload(slot), 0)
  {
    var p := Payload(slot);
    if |p| < 4 && !CodeAt(p, 0) {
      TooShortForAUnit(p, 0);
    }
  }

  class Session {
    const hotplug: bool
    const stall: nat
    const cache: ParameterSets

    var streaming: bool
    var placeholder: bool
    var signalLocked: bool
    var recovering: bool
    var reconfigurePending: bool
    var startFailed: bool
    var waiting: bool
    var lastStamp: nat             // 0: no access unit yet
    var lastToken: Option<nat>

    constructor (cache: ParameterSets, hotplug: bool, stall: nat)
      requires cache.Valid() && cache.len == 0
      ensures Valid() && this.cache == cache && !streaming && !placeholder && lastToken == None
      ensures this.hotplug == hotplug && this.stall == stall
    {
      this.cache, this.hotplug, this.stall := cache, hotplug, stall;
      streaming, placeholder, signalLocked, recovering := false, false, false, false;
      reconfigurePending, startFailed, waiting := false, false, false;
      lastStamp, lastToken := 0, None;
      new;
      EmptyIsWellFormed();
    }

    ghost predicate Valid()
      reads this, cache, cache.buf
    {
      cache.Valid() && (if cache.buf == null then cache.len == 0 else WellFormed(cache.Contents()))
    }

    ghost function Cached(): seq<byte>
      requires Valid()
      reads this, cache, cache.buf
    {
      if cache.buf == null then [] else cache.Contents()
    }

    predicate Proven()
      reads this
    {
      signalLocked && !recovering && !reconfigurePending && !startFailed
    }

    predicate Gap(now: nat)
      reads this
    {
      hotplug && lastStamp != 0 && now >= lastStamp + stall
    }

    /** The gate: every access unit with a picture in it counts as a sign of life. */
    method RecoveryAccept(payload: seq<byte>, now: nat)
      returns (accept: bool, isIdr: bool, prepend: bool, hasSets: bool)
      requires Valid()
      modifies this`waiting, this`lastStamp
      ensures var c := ClassOf(Types(payload));
              && isIdr == c.hasIdr && hasSets == c.hasParameterSet
              && accept == Accepts(placeholder, Proven(), old(waiting), old(Gap(now)), c)
              && lastStamp == (if c.hasVcl then now else old(lastStamp))
              && (!accept ==> !prepend)
              && (placeholder ==>
                    (accept <==> c.hasIdr && signalLocked && !recovering && !reconfigurePending && !startFailed))
              && (accept ==>
                    waiting == (old(waiting) ||
                                (c.hasVcl && hotplug && old(lastStamp) != 0 && now - old(lastStamp) >= stall)))
              && (accept ==> prepend == (c.hasIdr && waiting && !c.hasParameterSet && cache.len > 0))
    {
      var c := ClassifyAu(payload);
      IdrIsVcl(Types(payload));
      accept, isIdr, prepend, hasSets := false, c.hasIdr, false, c.hasParameterSet;
      if placeholder && (!signalLocked || recovering || !c.hasIdr || reconfigurePending || startFailed) {
        if c.hasVcl {
          lastStamp := now;
        }
        return;
      }
      if !c.hasVcl {
        accept := true;
        return;
      }
      if Gap(now) {
        waiting := true;
      }
      lastStamp := now;
      if !waiting {
        accept := true;
        return;
      }
      if !c.hasIdr {
        return;
      }
      accept := true;
      prepend := !c.hasParameterSet && cache.len > 0;
    }

    // Take the access unit's parameter sets into the cache.
    method Refresh(payload: seq<byte>)
      requires Valid()
      modifies cache`len, cache.buf
      ensures Valid() && cache.buf == old(cache.buf)
      ensures Cached() == if cache.buf == null then [] else AfterAu(old(Cached()), payload)
    {
      ghost var was := Cached();
      cache.CacheFrom(payload);
      AbsorbAllKeepsWellFormed(payload, NextCode(payload, 0), Cache(was, false));
    }

    // Copy the prefix and the payload into the plane.
    method CopyAu(dst: array<byte>, prefixBytes: nat, payload: seq<byte>)
      requires Valid() && dst != cache.buf
      requires prefixBytes == 0 || prefixBytes == cache.len
      requires prefixBytes + |payload| <= dst.Length
      modifies dst
      ensures Valid() && Cached() == old(Cached())
      ensures dst[..prefixBytes + |payload|] == Cached()[..prefixBytes] + payload
      ensures forall k :: prefixBytes + |payload| <= k < dst.Length ==> dst[k] == old(dst[k])
    {
      ghost var cached := Cached();
      var i := 0;
      while i < prefixBytes
        invariant i <= prefixBytes && Valid() && Cached() == cached
        invariant forall k :: 0 <= k < i ==> dst[k] == cached[k]
        invariant forall k :: prefixBytes <= k < dst.Length ==> dst[k] == old(dst[k])
      {
        dst[i] := cache.buf[i];
        i := i + 1;
      }
      i := 0;
      while i < |payload|
        invariant i <= |payload| && Valid() && Cached() == cached
        invariant forall k :: 0 <= k < prefixBytes ==> dst[k] == cached[k]
        invariant forall k :: 0 <= k < i ==> dst[prefixBytes + k] == payload[k]
        invariant forall k :: prefixBytes + |payload| <= k < dst.Length ==> dst[k] == old(dst[k])
      {
        dst[prefixBytes + i] := payload[i];
        i := i + 1;
      }
    }

    // The part under the delivery lock, with the session attached.
    method Deliver(payload: seq<byte>, now: nat, dst: array?<byte>) returns (o: Outcome, prefixed: bool)
      requires Valid() && (dst != null ==> dst != cache.buf)
      modifies this`waiting, this`lastStamp, this`placeholder
      modifies if dst == null then {} else {dst}
      ensures Valid() && Cached() == old(Cached())
      ensures o == Refused || o == NoBuffer || o == TooSmall || o == Delivered
      ensures var c := ClassOf(Types(payload));
              && (o == Refused <==> !old(Accepts(placeholder, Proven(), waiting, Gap(now), c)))
              && prefixed == (o != Refused && c.hasIdr && old(waiting || Gap(now)) && !c.hasParameterSet && Cached() != [])
              && lastStamp == (if c.hasVcl then now else old(lastStamp))
              && (o == Delivered && c.hasIdr ==> !waiting && !placeholder)
              && (o == Delivered && !c.hasIdr ==> !placeholder && (c.hasVcl ==> !waiting))
      ensures o == NoBuffer ==> dst == null
      ensures o == TooSmall ==> dst != null && (if prefixed then |Cached()| else 0) + |payload| > dst.Length
      ensures o != Delivered ==> placeholder == old(placeholder)
      ensures o != Delivered && dst != null ==> dst[..] == old(dst[..])
      ensures o == Delivered ==> dst != null && Holds(dst[..], old(dst[..]), (if prefixed then Cached() else []) + payload)
    {
      var accept, isIdr, prepend, hasSets := RecoveryAccept(payload, now);
      IdrIsVcl(Types(payload));
      prefixed := prepend;
      var prefixBytes := if prepend then cache.len else 0;
      if !accept {
        o := Refused;
      } else if dst == null {
        o := NoBuffer;
      } else if prefixBytes + |payload| > dst.Length {
        o := TooSmall;
      } else {
        CopyAu(dst, prefixBytes, payload);
        assert Cached()[..prefixBytes] == if prefixed then Cached() else [];
        Synchronise(isIdr);
        o := Delivered;
      }
    }

    // A delivered IDR ends the wait, and the placeholder if the receiver vouches for the input.
    method Synchronise(isIdr: bool)
      modifies this`waiting, this`placeholder
      ensures waiting == (old(waiting) && !isIdr)
      ensures placeholder == (old(placeholder) && !(isIdr && signalLocked && !recovering && !reconfigurePending))
    {
      if isIdr && waiting {
        waiting := false;
      }
      if isIdr && placeholder && signalLocked && !recovering && !reconfigurePending {
        placeholder := false;
      }
    }

    // A complete new access unit: into the cache, and on to the decoder if it may have it.
    method Consume(payload: seq<byte>, now: nat, dst: array?<byte>) returns (o: Outcome, prefixed: bool)
      requires Valid() && (dst != null ==> dst != cache.buf)
      requires Types(payload) != [] ==> CodeAt(payload, 0)
      modifies this`waiting, this`lastStamp, this`placeholder, cache`len, cache.buf
      modifies if dst == null then {} else {dst}
      ensures Valid()
      ensures o == Detached || o == Refused || o == NoBuffer || o == TooSmall || o == Delivered
      ensures o == Detached <==> !streaming
      ensures cache.buf != null ==> Cached() == AfterAu(old(Cached()), payload)
      ensures o != Delivered && dst != null ==> dst[..] == old(dst[..])
      ensures o == Delivered ==> dst != null && Holds(dst[..], old(dst[..]), (if prefixed then Cached() else []) + payload)
      ensures o == Delivered ==>
                var c := ClassOf(Types(payload));
                && old(Accepts(placeholder, Proven(), waiting, Gap(now), c))
                && (c.hasIdr ==> !waiting && !placeholder)
                && (prefixed ==> c.hasIdr && !c.hasParameterSet && Parses(Cached(), payload))
    {
      Refresh(payload);
      if !streaming {
        var c := ClassifyAu(payload);
        if c.hasVcl {
          lastStamp := now;
        }
        return Detached, false;
      }
      o, prefixed := Deliver(payload, now, dst);
      if prefixed {
        PrefixingPreservesParsing(Cached(), payload);
      }
    }

    /**
     One completion; `slot` is the memory of the slot named, empty if it has none.  A slot
     that is not a complete new access unit changes nothing; a complete one always refreshes
     the cache and uses up its token, whether or not it can be delivered; and what is delivered
     parses as the cached sets followed by the payload.
     */
    method Snapshot(slot: seq<byte>, idx: nat, now: nat, dst: array?<byte>) returns (o: Outcome, prefixed: bool)
      requires Valid() && (slot == [] || |slot| == SLOT_SIZE)
      requires dst != null ==> dst != cache.buf
      modifies this`waiting, this`lastStamp, this`placeholder, this`lastToken, cache`len, cache.buf
      modifies if dst == null then {} else {dst}
      ensures Valid()
      ensures o == NoSlot <==> idx >= SLOTS || slot == []
      ensures o == Repeated <==> idx < SLOTS && slot != [] && old(lastToken) == Some(idx)
      ensures o == NoSlot || o == Repeated || o == Untouched || o == Malformed ==>
                && Cached() == old(Cached()) && lastToken == old(lastToken) && waiting == old(waiting)
                && placeholder == old(placeholder) && lastStamp == old(lastStamp)
      ensures o == Untouched || o == Malformed ==> !IsComplete(slot, idx)
      ensures o == Malformed ==> !IsUntouched(slot)
      ensures o == Detached || o == Refused || o == NoBuffer || o == TooSmall || o == Delivered ==>
                && idx < SLOTS && |slot| == SLOT_SIZE && IsComplete(slot, idx)
                && lastToken == Some(idx) && old(lastToken) != Some(idx)
                && (cache.buf != null ==> Cached() == AfterAu(old(Cached()), Payload(slot)))
                && (o == Detached <==> !streaming)
      ensures o != Delivered && dst != null ==> dst[..] == old(dst[..])
      ensures o == Delivered ==>
                && |slot| == SLOT_SIZE && IsComplete(slot, idx) && dst != null
                && Holds(dst[..], old(dst[..]), (if prefixed then Cached() else []) + Payload(slot))
      ensures o == Delivered ==>
                var c := ClassOf(Types(Payload(slot)));
                && old(Accepts(placeholder, Proven(), waiting, Gap(now), c))
                && (c.hasIdr ==> !waiting && !placeholder)
                && (prefixed ==> c.hasIdr && !c.hasParameterSet && Parses(Cached(), Payload(slot)))
    {
      prefixed := false;
      if idx >= SLOTS || slot == [] {
        return NoSlot, false;
      }
      if lastToken == Some(idx) {
        return Repeated, false;
      }
      if IsUntouched(slot) {
        return Untouched, false;
      }
      if !IsComplete(slot, idx) {
        return Malformed, false;
      }
      lastToken := Some(idx);
      UnitsNeedACode(slot, idx);
      o, prefixed := Consume(Payload(slot), now, dst);
    }

    /**
     From the card to the application: the access unit written into a slot is the one that is
     cached, and the one that is delivered if it is.
     */
    method Complete(slot: seq<byte>, payload: seq<byte>, idx: nat, now: nat, dst: array?<byte>)
      returns (o: Outcome, prefixed: bool)
      requires Valid() && idx < 4 && HoldsAu(slot, payload, idx + 1) && CodeAt(payload, 0)
      requires dst != null ==> dst != cache.buf
      modifies this`waiting, this`lastStamp, this`placeholder, this`lastToken, cache`len, cache.buf
      modifies if dst == null then {} else {dst}
      ensures Valid() && (o == Repeated <==> old(lastToken) == Some(idx))
      ensures o != NoSlot && o != Untouched && o != Malformed && lastToken == Some(idx)
      ensures o != Repeated && cache.buf != null ==> Cached() == AfterAu(old(Cached()), payload)
      ensures o == Delivered ==>
                dst != null && Holds(dst[..], old(dst[..]), (if prefixed then Cached() else []) + payload)
    {
      WrittenSlotIsComplete(slot, payload, idx, idx);
      o, prefixed := Snapshot(slot, idx, now, dst);
    }
  }

  // The plane begins with `au`; behind it nothing has changed.
  ghost predicate Holds(now: seq<byte>, was: seq<byte>, au: seq<byte>) {
    && |now| == |was| && |au| <= |now| && now[..|au|] == au
    && forall k :: |au| <= k < |now| ==> now[k] == was[k]
  }

  // Prefixed bytes parse into the cached sets and then the payload's own units.
  ghost predicate Parses(cached: seq<byte>, payload: seq<byte>) {
    && Types(cached + payload) == Types(cached) + Types(payload)
    && ClassOf(Types(cached + payload)).hasIdr == ClassOf(Types(payload)).hasIdr
    && ClassOf(Types(cached + payload)).hasParameterSet
  }

  lemma IdrIsVcl(ts: seq<nat>)
    ensures 5 in ts ==> HasVcl(ts)
  {
    assert IsVcl(5);
  }

  // ----- Agreement with the interleaved model -----

  function UnitOf(c: AuClass): Delivery.Unit {
    if c.hasIdr then Delivery.Idr else if c.hasVcl then Delivery.Dependent else Delivery.Bare
  }

  /** The interleaved gate, run without interference, lets exactly the same units through. */
  lemma GateAgrees(s: Delivery.State, c: AuClass, proven: bool, gap: bool)
    requires c.hasIdr ==> c.hasVcl
    requires s.drain == Delivery.Gate(UnitOf(c))
    ensures var s1 := Delivery.ApplyGate(s, Delivery.ReadActive(proven));
            var s2 := if s1.drain.Stamping? then Delivery.ApplyGate(s1, Delivery.Stamp(gap)) else s1;
            var s3 := if s2.drain.Deciding? then Delivery.ApplyGate(s2, Delivery.Decide) else s2;
            && (Accepts(s.f.active, proven, s.f.waiting, gap, c) ==> s3.drain == Delivery.Accepted(UnitOf(c)))
            && (!Accepts(s.f.active, proven, s.f.waiting, gap, c) ==> s3.drain == Delivery.Resting)
  {
  }

  /** So do they agree on what a delivered access unit does to the wait and to the placeholder. */
  lemma SettleAgrees(s: Delivery.State, proven: bool)
    requires s.drain.Copied? && s.drain.u != Delivery.Raw
    ensures var s1 := Delivery.ApplySettle(s, Delivery.Sync);
            var s2 := Delivery.ApplySettle(s1, Delivery.Prove(proven));
            var s3 := if s2.drain.Deactivating? then Delivery.ApplySettle(s2, Delivery.Deactivate) else s2;
            var isIdr := s.drain.u == Delivery.Idr;
            && s3.drain == Delivery.Finishing(s.drain.u, s.drain.b)
            && s3.f == s.f.(waiting := s.f.waiting && !isIdr, active := s.f.active && !(isIdr && proven))
  {
  }
}

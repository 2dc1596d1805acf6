/**
 Which ready slot a completion takes: at most one, scanning round from the slot after the
 last one taken.
 */
module RawRotation {

  const SLOTS: nat := 4

  // Steps from `next` to `slot`, going round.
  function Distance(next: nat, slot: nat): (d: nat)
    requires next < SLOTS && slot < SLOTS
    ensures d < SLOTS
  {
    (slot + SLOTS - next) % SLOTS
  }

  // No ready slot is nearer to `next`.
  predicate IsNearest(ready: set<nat>, next: nat, slot: nat)
    requires next < SLOTS
  {
    && slot in ready && slot < SLOTS
    && forall other :: other in ready && other < SLOTS ==> Distance(next, slot) <= Distance(next, other)
  }

  lemma AtDistance(next: nat, i: nat, slot: nat)
    requires next < SLOTS && i < SLOTS && slot < SLOTS
    ensures Distance(next, slot) == i <==> slot == (next + i) % SLOTS
  {
  }

  datatype Scan = Stub | Tried(slot: nat, delivered: bool)

  /**
   One completion: with nothing ready it was only a stub frame.  `delivers(slot)` says
   whether handing over that slot succeeds; a failed slot ends the scan without moving on, so
   it is the first candidate next time too.
   */
  method DrainRaw(ready: set<nat>, next: nat, delivers: nat -> bool) returns (scan: Scan, next': nat)
    requires next < SLOTS && forall s :: s in ready ==> s < SLOTS
    ensures next' < SLOTS
    ensures scan == Stub <==> ready == {}
    ensures scan.Tried? ==> IsNearest(ready, next, scan.slot) && scan.delivered == delivers(scan.slot)
    ensures next' == if scan.Tried? && scan.delivered then (scan.slot + 1) % SLOTS else next
  {
    var i := 0;
    while i < SLOTS
      invariant i <= SLOTS
      invariant forall s :: s in ready ==> i <= Distance(next, s)
    {
      var slot := (next + i) % SLOTS;
      forall s | s in ready ensures Distance(next, s) == i <==> s == slot {
        AtDistance(next, i, s);
      }
      AtDistance(next, i, slot);
      if slot in ready {
        var delivered := delivers(slot);
        return Tried(slot, delivered), if delivered then (slot + 1) % SLOTS else next;
      }
      i := i + 1;
    }
    return Stub, next;
  }

  // A history of successful deliveries: each took the nearest ready slot, and the next scan
  // starts after it.
  datatype Delivery = Delivery(ready: set<nat>, slot: nat)

  function NextAfter(history: seq<Delivery>, next: nat): nat {
    if history == [] then next else (history[|history| - 1].slot + 1) % SLOTS
  }

  ghost predicate IsHistory(history: seq<Delivery>, next: nat)
    requires next < SLOTS
  {
    history == [] ||
    (var last := |history| - 1;
     IsHistory(history[..last], next) &&
     IsNearest(history[last].ready, NextAfter(history[..last], next), history[last].slot))
  }

  /** Passing over a ready slot brings the scan strictly nearer to it. */
  lemma PassedOverComesNearer(ready: set<nat>, next: nat, slot: nat, taken: nat)
    requires next < SLOTS && slot < SLOTS && slot in ready
    requires IsNearest(ready, next, taken) && taken != slot
    ensures Distance((taken + 1) % SLOTS, slot) < Distance(next, slot)
  {
    assert Distance(next, taken) <= Distance(next, slot);
  }

  /** A slot that stays ready is taken within four successful deliveries. */
  lemma {:induction false} NoSlotIsStarved(history: seq<Delivery>, next: nat, slot: nat)
    requires next < SLOTS && slot < SLOTS && IsHistory(history, next)
    requires forall i :: 0 <= i < |history| ==> slot in history[i].ready
    requires forall i :: 0 <= i < |history| ==> history[i].slot != slot
    ensures Distance(NextAfter(history, next), slot) + |history| <= Distance(next, slot)
    ensures |history| < SLOTS
  {
    if history != [] {
      var last := |history| - 1;
      NoSlotIsStarved(history[..last], next, slot);
      PassedOverComesNearer(history[last].ready, NextAfter(history[..last], next), slot, history[last].slot);
    }
  }
}

/**
 What the cache of parameter sets holds after an access unit, told from the units the access
 unit consists of: everything from its last sequence parameter set on, or else what was there.
 */
module CachedSets {
  import opened Basics
  import opened AnnexB
  import opened ParameterCache

  // A NAL unit with its start code, cut out.
  datatype Unit = Unit(bytes: seq<byte>, kind: nat)

  function UnitOf(p: seq<byte>, n: Nal): Unit
    requires IsUnit(p, n)
  {
    Unit(p[n.start..n.end], n.kind)
  }

  function Units(p: seq<byte>, ns: seq<Nal>): (us: seq<Unit>)
    requires AllUnits(p, ns)
    ensures |us| == |ns|
  {
    if ns == [] then [] else [UnitOf(p, ns[0])] + Units(p, ns[1..])
  }

  // The units of a payload, in order.
  function UnitsOf(p: seq<byte>): (us: seq<Unit>)
    ensures |us| == |Nals(p)|
  {
    NalsAreUnits(p, 0);
    Units(p, Nals(p))
  }

  predicate IsSet(u: Unit) { u.kind == 7 || u.kind == 8 }

  // The bytes of the parameter sets among them, one behind the other.
  function SetBytes(us: seq<Unit>): seq<byte> {
    if us == [] then [] else (if IsSet(us[0]) then us[0].bytes else []) + SetBytes(us[1..])
  }

  function SetKinds(us: seq<Unit>): seq<nat> {
    if us == [] then [] else (if IsSet(us[0]) then [us[0].kind] else []) + SetKinds(us[1..])
  }

  predicate HasSps(us: seq<Unit>) {
    exists i :: 0 <= i < |us| && us[i].kind == 7
  }

  // ----- From the walk to the units -----

  function Taken(us: seq<Unit>, c: Cache): Cache {
    if us == [] then c else Taken(us[1..], Absorb(c, us[0].bytes, us[0].kind))
  }

  lemma TakenStep(u: Unit, us: seq<Unit>, all: seq<Unit>, c: Cache)
    requires all == [u] + us
    ensures Taken(all, c) == Taken(us, Absorb(c, u.bytes, u.kind))
  {
    assert all[1..] == us;
  }

  lemma UnitsStep(p: seq<byte>, n: Nal, ns: seq<Nal>, all: seq<Nal>)
    requires AllUnits(p, all) && all == [n] + ns
    ensures IsUnit(p, n) && AllUnits(p, ns) && Units(p, all) == [UnitOf(p, n)] + Units(p, ns)
  {
    assert all[0] == n && all[1..] == ns;
    assert forall k :: 0 <= k < |ns| ==> ns[k] == all[k + 1];
  }

  // The walk takes the units one by one.
  lemma {:induction false} WalkTakesUnits(p: seq<byte>, from: nat, c: Cache)
    requires from <= |p|
    ensures AllUnits(p, NalsAfter(p, from))
    ensures AbsorbAll(p, NextCode(p, from), c) == Taken(Units(p, NalsAfter(p, from)), c)
    decreases |p| - from
  {
    NalsAreUnits(p, from);
    var start := NextCode(p, from);
    if Stops(p, start) {
      NoNal(p, from);
    } else {
      var u := UnitFrom(p, start);
      FirstNal(p, from);
      UnitsStep(p, u, NalsAfter(p, u.header + 1), NalsAfter(p, from));
      var segment := UnitOf(p, u);
      TakenStep(segment, Units(p, NalsAfter(p, u.header + 1)), Units(p, NalsAfter(p, from)), c);
      WalkTakesUnits(p, u.header + 1, Absorb(c, segment.bytes, segment.kind));
    }
  }

  lemma AfterAuTakesUnits(cached: seq<byte>, p: seq<byte>)
    ensures AfterAu(cached, p) == Taken(UnitsOf(p), Cache(cached, false)).bytes
  {
    WalkTakesUnits(p, 0, Cache(cached, false));
  }

  // ----- With a sequence parameter set -----

  lemma {:induction false} TakenApart(front: seq<Unit>, back: seq<Unit>, all: seq<Unit>, c: Cache)
    requires all == front + back
    ensures Taken(all, c) == Taken(back, Taken(front, c))
    decreases |front|
  {
    if front == [] {
      assert all == back;
    } else {
      assert all[0] == front[0] && all[1..] == front[1..] + back;
      TakenApart(front[1..], back, all[1..], Absorb(c, front[0].bytes, front[0].kind));
    }
  }

  // Behind a sequence parameter set every set is appended while there is room.
  lemma {:induction false} SetsAppended(us: seq<Unit>, c: Cache)
    requires c.refreshed && !HasSps(us) && |c.bytes| + |SetBytes(us)| <= CACHE_MAX
    ensures Taken(us, c).bytes == c.bytes + SetBytes(us)
    decreases |us|
  {
    if us != [] {
      var rest := us[1..];
      assert us[0].kind != 7;
      assert forall i :: 0 <= i < |rest| ==> rest[i] == us[i + 1];
      var d := Absorb(c, us[0].bytes, us[0].kind);
      assert d.bytes + SetBytes(rest) == c.bytes + SetBytes(us);
      SetsAppended(rest, d);
    } else {
      assert c.bytes + [] == c.bytes;
    }
  }

  lemma SpsThenSets(sps: Unit, rest: seq<Unit>, us: seq<Unit>, c: Cache)
    requires us == [sps] + rest && sps.kind == 7 && !HasSps(rest) && |SetBytes(us)| <= CACHE_MAX
    ensures Taken(us, c).bytes == SetBytes(us)
  {
    assert us[0] == sps && us[1..] == rest;
    assert Absorb(c, sps.bytes, 7) == Cache([] + sps.bytes, true);
    SetsAppended(rest, Absorb(c, sps.bytes, 7));
  }

  lemma {:induction false} TakenFits(us: seq<Unit>, c: Cache)
    requires |c.bytes| <= CACHE_MAX
    ensures |Taken(us, c).bytes| <= CACHE_MAX
    decreases |us|
  {
    if us != [] {
      TakenFits(us[1..], Absorb(c, us[0].bytes, us[0].kind));
    }
  }

  /**
   An access unit whose last sequence parameter set is its k-th unit leaves exactly that set
   and the picture parameter sets behind it in the cache, if and only if they fit in it
   together; whatever came before, in the access unit or in the cache, is gone.
   */
  lemma CacheHoldsTheLatestSets(cached: seq<byte>, p: seq<byte>, k: nat)
    requires |cached| <= CACHE_MAX
    requires k < |UnitsOf(p)| && UnitsOf(p)[k].kind == 7 && !HasSps(UnitsOf(p)[k + 1..])
    ensures AfterAu(cached, p) == SetBytes(UnitsOf(p)[k..]) <==> |SetBytes(UnitsOf(p)[k..])| <= 4096
  {
    var us := UnitsOf(p);
    var c := Cache(cached, false);
    AfterAuTakesUnits(cached, p);
    TakenApart(us[..k], us[k..], us, c);
    TakenFits(us, c);
    if |SetBytes(us[k..])| <= CACHE_MAX {
      SpsThenSets(us[k], us[k + 1..], us[k..], Taken(us[..k], c));
    }
  }

  // ----- Without one -----

  lemma {:induction false} NothingTaken(us: seq<Unit>, c: Cache)
    requires !c.refreshed && !HasSps(us)
    requires c.bytes != [] || forall i :: 0 <= i < |us| && us[i].kind == 8 ==> |us[i].bytes| > CACHE_MAX
    ensures Taken(us, c) == c
    decreases |us|
  {
    if us != [] {
      var rest := us[1..];
      assert us[0].kind != 7;
      assert forall i :: 0 <= i < |rest| ==> rest[i] == us[i + 1];
      assert Absorb(c, us[0].bytes, us[0].kind) == c;
      NothingTaken(rest, c);
    }
  }

  lemma TailHasNoSps(us: seq<Unit>, i: nat)
    requires i <= |us| && !HasSps(us)
    ensures !HasSps(us[..i]) && !HasSps(us[i..])
  {
  }

  /** Without a sequence parameter set a cache that holds anything stays as it is ... */
  lemma WithoutSpsTheCacheStays(cached: seq<byte>, p: seq<byte>)
    requires cached != [] && !HasSps(UnitsOf(p))
    ensures AfterAu(cached, p) == cached
  {
    AfterAuTakesUnits(cached, p);
    NothingTaken(UnitsOf(p), Cache(cached, false));
  }

  /** ... and an empty one takes the first picture parameter set that fits, and that only. */
  lemma AnEmptyCacheTakesThePps(p: seq<byte>, k: nat)
    requires !HasSps(UnitsOf(p)) && k <= |UnitsOf(p)|
    requires forall i :: 0 <= i < k && UnitsOf(p)[i].kind == 8 ==> |UnitsOf(p)[i].bytes| > CACHE_MAX
    requires k < |UnitsOf(p)| ==> UnitsOf(p)[k].kind == 8 && |UnitsOf(p)[k].bytes| <= CACHE_MAX
    ensures AfterAu([], p) == if k < |UnitsOf(p)| then UnitsOf(p)[k].bytes else []
  {
    var us := UnitsOf(p);
    var c := Cache([], false);
    AfterAuTakesUnits([], p);
    TakenApart(us[..k], us[k..], us, c);
    TailHasNoSps(us, k);
    NothingTaken(us[..k], c);
    if k < |us| {
      NalsAreUnits(p, 0);
      UnitsAreWhole(p, Nals(p));
      assert us[k].bytes != [];
      TakenStep(us[k], us[k + 1..], us[k..], c);
      assert [] + us[k].bytes == us[k].bytes;
      TailHasNoSps(us, k + 1);
      NothingTaken(us[k + 1..], Cache(us[k].bytes, false));
    }
  }

  // ----- What that parses into -----

  // A unit, cut out, is a closed payload of its own type.
  lemma UnitAlone(p: seq<byte>, n: Nal)
    requires IsUnit(p, n)
    ensures var q := p[n.start..n.end]; CodeAt(q, 0) && Closed(q) && Types(q) == [n.kind]
  {
    var q := p[n.start..n.end];
    var len := n.header - n.start;
    forall i | len + 1 <= i < |q| ensures !CodeAt(q, i) {
      assert !CodeAt(p, n.start + i);
    }
    NextCodeIs(q, len + 1, |q|);
    LoneUnit(q, len);
  }

  // Cut-out units of one type each.
  predicate Whole(us: seq<Unit>) {
    forall i :: 0 <= i < |us| ==> CodeAt(us[i].bytes, 0) && Closed(us[i].bytes) && Types(us[i].bytes) == [us[i].kind]
  }

  lemma {:induction false} UnitsAreWhole(p: seq<byte>, ns: seq<Nal>)
    requires AllUnits(p, ns)
    ensures Whole(Units(p, ns))
    decreases |ns|
  {
    if ns != [] {
      UnitAlone(p, ns[0]);
      UnitsAreWhole(p, ns[1..]);
    }
  }

  predicate ParsesInto(bytes: seq<byte>, ts: seq<nat>) {
    Closed(bytes) && Types(bytes) == ts && (bytes != [] ==> CodeAt(bytes, 0))
  }

  lemma OneInFront(u: Unit, bytes: seq<byte>, ts: seq<nat>)
    requires CodeAt(u.bytes, 0) && Closed(u.bytes) && Types(u.bytes) == [u.kind] && ParsesInto(bytes, ts)
    ensures ParsesInto(u.bytes + bytes, [u.kind] + ts)
  {
    if bytes == [] {
      assert u.bytes + bytes == u.bytes;
      NoNal([], 0);
    } else {
      TypesConcat(u.bytes, bytes);
      CodeStaysInFront(u.bytes, bytes);
    }
  }

  /** Parameter sets put one behind the other parse into exactly those sets. */
  lemma {:induction false} SetsParse(us: seq<Unit>)
    requires Whole(us)
    ensures ParsesInto(SetBytes(us), SetKinds(us))
    decreases |us|
  {
    if us == [] {
      NoNal([], 0);
    } else {
      SetsParse(us[1..]);
      if IsSet(us[0]) {
        OneInFront(us[0], SetBytes(us[1..]), SetKinds(us[1..]));
      } else {
        assert [] + SetBytes(us[1..]) == SetBytes(us[1..]) && [] + SetKinds(us[1..]) == SetKinds(us[1..]);
      }
    }
  }

  /** Seen as a payload, the cache then consists of those parameter sets and of nothing else. */
  lemma CacheParsesIntoTheLatestSets(cached: seq<byte>, p: seq<byte>, k: nat)
    requires |cached| <= CACHE_MAX
    requires k < |UnitsOf(p)| && UnitsOf(p)[k].kind == 7 && !HasSps(UnitsOf(p)[k + 1..])
    requires |SetBytes(UnitsOf(p)[k..])| <= CACHE_MAX
    ensures Types(AfterAu(cached, p)) == SetKinds(UnitsOf(p)[k..])
  {
    CacheHoldsTheLatestSets(cached, p, k);
    NalsAreUnits(p, 0);
    UnitsAreWhole(p, Nals(p));
    SetsParse(UnitsOf(p)[k..]);
  }
}

/**
 The cache of H.264 parameter sets, and the access unit that goes out with the cache in
 front of it.

 A sequence parameter set (type 7) empties the cache; it and the picture parameter sets
 (type 8) that follow are appended with their start codes, if they fit.
 */
module ParameterCache {
  import opened Basics
  import opened AnnexB

  const CACHE_MAX: nat := 4096

  // `refreshed`: a sequence parameter set has been seen in the current access unit.
  datatype Cache = Cache(bytes: seq<byte>, refreshed: bool)

  function Absorb(c: Cache, segment: seq<byte>, t: nat): Cache {
    var c1 := if t == 7 then Cache([], true) else c;
    if (t == 7 || t == 8) && (c1.refreshed || c1.bytes == []) && |c1.bytes| + |segment| <= CACHE_MAX
    then c1.(bytes := c1.bytes + segment)
    else c1
  }

  function AbsorbAll(p: seq<byte>, start: nat, c: Cache): Cache
    requires start <= |p| && (start < |p| ==> CodeAt(p, start))
    decreases |p| - start
  {
    if start == |p| || DanglingAt(p, start) then c
    else
      var header := start + PrefixLen(p, start);
      var next := NextCode(p, header + 1);
      AbsorbAll(p, next, Absorb(c, p[start..next], TypeOf(p[header])))
  }

  // The units from `start` on turn `c` into `bytes`.
  predicate Leaves(bytes: seq<byte>, p: seq<byte>, start: nat, c: Cache) {
    start <= |p| && (start < |p| ==> CodeAt(p, start)) && bytes == AbsorbAll(p, start, c).bytes
  }

  lemma OneAbsorbed(bytes: seq<byte>, p: seq<byte>, start: nat, header: nat, c: Cache, d: Cache)
    requires Leaves(bytes, p, start, c) && start < |p| && header == start + PrefixLen(p, start) < |p|
    requires d == Absorb(c, p[start..NextCode(p, header + 1)], TypeOf(p[header]))
    ensures Leaves(bytes, p, NextCode(p, header + 1), d)
  {
  }

  lemma AllAbsorbed(bytes: seq<byte>, p: seq<byte>, start: nat, c: Cache)
    requires Leaves(bytes, p, start, c) && Stops(p, start)
    ensures bytes == c.bytes
  {
  }

  // The cache after one access unit.
  function AfterAu(cached: seq<byte>, p: seq<byte>): seq<byte> {
    AbsorbAll(p, NextCode(p, 0), Cache(cached, false)).bytes
  }

  // The cache after a session's access units.
  function AfterSession(ps: seq<seq<byte>>): seq<byte> {
    if ps == [] then [] else AfterAu(AfterSession(ps[..|ps| - 1]), ps[|ps| - 1])
  }

  class ParameterSets {
    var buf: array?<byte>
    var len: nat

    ghost predicate Valid()
      reads this
    {
      len <= CACHE_MAX && (buf != null ==> buf.Length == CACHE_MAX)
    }

    ghost function Contents(): seq<byte>
      requires Valid() && buf != null
      reads this, buf
    {
      buf[..len]
    }

    method Append(p: seq<byte>, start: nat, bytes: nat)
      requires Valid() && buf != null
      requires start + bytes <= |p| && bytes <= CACHE_MAX - len
      modifies buf, this`len
      ensures Valid()
      ensures Contents() == old(Contents()) + p[start..start + bytes]
    {
      var i := 0;
      while i < bytes
        invariant i <= bytes && len == old(len)
        invariant forall k :: 0 <= k < len ==> buf[k] == old(buf[k])
        invariant forall k :: len <= k < len + i ==> buf[k] == p[start + (k - len)]
      {
        buf[len + i] := p[start + i];
        i := i + 1;
      }
      len := len + bytes;
    }

    // One unit; the subtraction CACHE_MAX - len never goes below zero.
    method CacheUnit(p: seq<byte>, start: nat, next: nat, t: nat, was: bool) returns (refreshed: bool)
      requires Valid() && buf != null && start <= next <= |p|
      modifies this`len, buf
      ensures Valid()
      ensures Cache(Contents(), refreshed) == Absorb(Cache(old(Contents()), was), p[start..next], t)
    {
      refreshed := was;
      var bytes := next - start;
      if t == 7 {
        len := 0;
        refreshed := true;
      }
      if (t == 7 || t == 8) && (refreshed || len == 0) && bytes <= CACHE_MAX - len {
        Append(p, start, bytes);
      }
    }

    /** Walk one access unit: the cache becomes what the units, taken in order, make of it. */
    method CacheFrom(p: seq<byte>)
      requires Valid()
      modifies this`len, buf
      ensures Valid()
      ensures buf == null ==> len == old(len)
      ensures buf != null ==> Contents() == AfterAu(old(Contents()), p)
    {
      var start, prefixLen := FindStartCode(p, 0);
      if buf == null {
        return;
      }
      var refreshed := false;
      ghost var result := AfterAu(Contents(), p);
      while start < |p|
        invariant start <= |p| && (start < |p| ==> prefixLen == PrefixLen(p, start))
        invariant Valid() && Leaves(result, p, start, Cache(Contents(), refreshed))
        decreases |p| - start
      {
        var header := start + prefixLen;
        if header >= |p| {
          break;
        }
        var next, nextPrefixLen := FindStartCode(p, header + 1);
        var t := TypeOf(p[header]);
        ghost var before := Cache(Contents(), refreshed);
        refreshed := CacheUnit(p, start, next, t, refreshed);
        OneAbsorbed(result, p, start, header, before, Cache(Contents(), refreshed));
        start := next;
        prefixLen := nextPrefixLen;
      }
      AllAbsorbed(result, p, start, Cache(Contents(), refreshed));
    }
  }

  // ----- What the cache can hold -----

  // At most one sequence parameter set, and first; picture parameter sets otherwise.
  predicate ParameterTypes(ts: seq<nat>) {
    forall i :: 0 <= i < |ts| ==> ts[i] == 8 || (i == 0 && ts[i] == 7)
  }

  predicate WellFormed(bytes: seq<byte>) {
    && |bytes| <= CACHE_MAX
    && Closed(bytes)
    && ParameterTypes(Types(bytes))
    && (bytes != [] ==> CodeAt(bytes, 0) && Types(bytes) != [])
  }

  // Cutting one unit out loses nothing of it and adds no start code.
  lemma CutOut(p: seq<byte>, start: nat)
    requires start < |p| && CodeAt(p, start) && !DanglingAt(p, start)
    ensures var len := PrefixLen(p, start);
            var segment := p[start..NextCode(p, start + len + 1)];
            && len < |segment| && segment[len] == p[start + len]
            && CodeAt(segment, 0) && PrefixLen(segment, 0) == len
            && NextCode(segment, len + 1) == |segment|
  {
    var len := PrefixLen(p, start);
    var segment := p[start..NextCode(p, start + len + 1)];
    NextCodeIsLeast(p, start + len + 1);
    forall i | len + 1 <= i < |segment| ensures !CodeAt(segment, i) {
      assert !CodeAt(p, start + i);
    }
    NextCodeIs(segment, len + 1, |segment|);
  }

  // A payload that is one unit.
  lemma LoneUnit(q: seq<byte>, len: nat)
    requires CodeAt(q, 0) && len == PrefixLen(q, 0) < |q| && NextCode(q, len + 1) == |q|
    ensures Closed(q) && Types(q) == [TypeOf(q[len])]
  {
    FirstKind(q, 0);
    NoNal(q, len + 1);
  }

  // A single unit, cut out, is a closed payload of that one type.
  lemma SegmentAlone(p: seq<byte>, start: nat)
    requires start < |p| && CodeAt(p, start) && !DanglingAt(p, start)
    ensures var header := start + PrefixLen(p, start);
            var segment := p[start..NextCode(p, header + 1)];
            CodeAt(segment, 0) && Closed(segment) && Types(segment) == [TypeOf(p[header])]
  {
    CutOut(p, start);
    var len := PrefixLen(p, start);
    LoneUnit(p[start..NextCode(p, start + len + 1)], len);
  }

  // A lone parameter set is a cache, and so is a cache with one more picture parameter set.
  lemma OneMoreSet(bytes: seq<byte>, segment: seq<byte>, t: nat)
    requires WellFormed(bytes) && |bytes| + |segment| <= CACHE_MAX
    requires CodeAt(segment, 0) && Closed(segment) && Types(segment) == [t]
    requires t == 8 || (t == 7 && bytes == [])
    ensures WellFormed(bytes + segment)
  {
    if bytes == [] {
      assert bytes + segment == segment;
    } else {
      TypesConcat(bytes, segment);
      CodeStaysInFront(bytes, segment);
    }
  }

  lemma CodeStaysInFront(a: seq<byte>, b: seq<byte>)
    requires CodeAt(a, 0)
    ensures CodeAt(a + b, 0)
  {
  }

  lemma AbsorbKeepsWellFormed(c: Cache, segment: seq<byte>, t: nat)
    requires WellFormed(c.bytes)
    requires CodeAt(segment, 0) && Closed(segment) && Types(segment) == [t]
    ensures WellFormed(Absorb(c, segment, t).bytes)
  {
    var kept := if t == 7 then [] else c.bytes;
    EmptyIsWellFormed();
    if (t == 7 || t == 8) && |kept| + |segment| <= CACHE_MAX {
      OneMoreSet(kept, segment, t);
    }
  }

  lemma EmptyIsWellFormed()
    ensures WellFormed([])
  {
  }

  lemma {:induction false} AbsorbAllKeepsWellFormed(p: seq<byte>, start: nat, c: Cache)
    requires start <= |p| && (start < |p| ==> CodeAt(p, start))
    requires WellFormed(c.bytes)
    ensures WellFormed(AbsorbAll(p, start, c).bytes)
    decreases |p| - start
  {
    if start < |p| && !DanglingAt(p, start) {
      var header := start + PrefixLen(p, start);
      var next := NextCode(p, header + 1);
      SegmentAlone(p, start);
      AbsorbKeepsWellFormed(c, p[start..next], TypeOf(p[header]));
      AbsorbAllKeepsWellFormed(p, next, Absorb(c, p[start..next], TypeOf(p[header])));
    }
  }

  /** Whatever a session's access units contain, the cache parses into whole parameter sets. */
  lemma {:induction false} CacheIsWellFormed(ps: seq<seq<byte>>)
    ensures WellFormed(AfterSession(ps))
  {
    if ps != [] {
      var p := ps[|ps| - 1];
      CacheIsWellFormed(ps[..|ps| - 1]);
      AbsorbAllKeepsWellFormed(p, NextCode(p, 0), Cache(AfterSession(ps[..|ps| - 1]), false));
    }
  }

  lemma SpsIsLater(n: Nal, ns: seq<Nal>, all: seq<Nal>)
    requires all == [n] + ns && 7 in Kinds(all) && n.kind != 7
    ensures 7 in Kinds(ns)
  {
    var k :| 0 <= k < |all| && Kinds(all)[k] == 7;
    assert Kinds(ns)[k - 1] == 7;
  }

  lemma {:induction false} SpsResetsFrom(p: seq<byte>, from: nat, start: nat, c: Cache, d: Cache)
    requires from <= |p| && start == NextCode(p, from)
    requires 7 in Kinds(NalsAfter(p, from))
    ensures AbsorbAll(p, start, c) == AbsorbAll(p, start, d)
    decreases |p| - from
  {
    if from < |p| && !Stops(p, start) {
      var u := UnitFrom(p, start);
      FirstNal(p, from);
      if u.kind != 7 {
        SpsIsLater(u, NalsAfter(p, u.header + 1), NalsAfter(p, from));
        SpsResetsFrom(p, u.header + 1, u.end, Absorb(c, p[start..u.end], u.kind), Absorb(d, p[start..u.end], u.kind));
      }
    }
  }

  /** An access unit with a sequence parameter set replaces the whole cache. */
  lemma SpsResets(p: seq<byte>, cached: seq<byte>, other: seq<byte>)
    requires 7 in Types(p)
    ensures AfterAu(cached, p) == AfterAu(other, p)
  {
    SpsResetsFrom(p, 0, NextCode(p, 0), Cache(cached, false), Cache(other, false));
  }

  // ----- Prefixing -----

  /**
   What goes to user space: the cached sets in front of a picture that carries none.  The
   unit types are exactly the cached ones followed by the picture's own, so the picture is
   classified as before and now comes with parameter sets.  `CacheIsWellFormed` says that
   every session's cache qualifies.
   */
  lemma PrefixingPreservesParsing(cache: seq<byte>, payload: seq<byte>)
    requires WellFormed(cache) && CodeAt(payload, 0)
    ensures Types(cache + payload) == Types(cache) + Types(payload)
    ensures ClassOf(Types(cache + payload)).hasIdr == ClassOf(Types(payload)).hasIdr
    ensures ClassOf(Types(cache + payload)).hasVcl == ClassOf(Types(payload)).hasVcl
    ensures cache != [] ==> ClassOf(Types(cache + payload)).hasParameterSet
  {
    TypesConcat(cache, payload);
    ClassOfConcat(Types(cache), Types(payload));
    if cache != [] {
      assert Types(cache)[0] in Types(cache);
    }
  }
}

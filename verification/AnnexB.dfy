/**
 H.264 byte streams in Annex B form (ITU-T H.264, section B.1.1).

 `NextCode` is the least start code at or after a position.  `Nals` cuts a payload into its
 units, and `Types` lists their NAL unit types (Table 7-1 of section 7.4.1).  The driver
 walks payloads twice, with two different loops; both are proved against this one reading.
 */
module AnnexB {

  import opened Basics

  predicate Code3At(p: seq<byte>, i: nat) {
    i + 3 <= |p| && p[i] == 0 && p[i + 1] == 0 && p[i + 2] == 1
  }

  predicate Code4At(p: seq<byte>, i: nat) {
    i + 4 <= |p| && p[i] == 0 && p[i + 1] == 0 && p[i + 2] == 0 && p[i + 3] == 1
  }

  predicate CodeAt(p: seq<byte>, i: nat) {
    Code3At(p, i) || Code4At(p, i)
  }

  function PrefixLen(p: seq<byte>, i: nat): nat {
    if Code3At(p, i) then 3 else 4
  }

  // The least start code at or after `from`, or the end of the payload.
  function NextCode(p: seq<byte>, from: nat): (at: nat)
    ensures from <= |p| ==> from <= at
    ensures at <= |p|
    ensures at < |p| ==> CodeAt(p, at)
    decreases |p| - from
  {
    if from >= |p| then |p| else if CodeAt(p, from) then from else NextCode(p, from + 1)
  }

  lemma {:induction false} NextCodeIsLeast(p: seq<byte>, from: nat)
    ensures forall i :: from <= i < NextCode(p, from) ==> !CodeAt(p, i)
    decreases |p| - from
  {
    if from < |p| && !CodeAt(p, from) {
      NextCodeIsLeast(p, from + 1);
    }
  }

  lemma NextCodeIs(p: seq<byte>, from: nat, at: nat)
    requires from <= at <= |p|
    requires at < |p| ==> CodeAt(p, at)
    requires forall i :: from <= i < at ==> !CodeAt(p, i)
    ensures NextCode(p, from) == at
  {
    NextCodeIsLeast(p, from);
  }

  /** The driver's forward search. */
  method FindStartCode(p: seq<byte>, from: nat) returns (at: nat, prefixLen: nat)
    requires from <= |p|
    ensures at == NextCode(p, from)
    ensures at < |p| ==> prefixLen == PrefixLen(p, at)
  {
    var i := from;
    while i + 3 <= |p|
      invariant from <= i <= |p|
      invariant forall k :: from <= k < i ==> !CodeAt(p, k)
    {
      if p[i] == 0 && p[i + 1] == 0 {
        if p[i + 2] == 1 {
          NextCodeIs(p, from, i);
          return i, 3;
        }
        if i + 4 <= |p| && p[i + 2] == 0 && p[i + 3] == 1 {
          NextCodeIs(p, from, i);
          return i, 4;
        }
      }
      i := i + 1;
    }
    NextCodeIs(p, from, |p|);
    return |p|, 0;
  }

  // ----- NAL units -----

  // A NAL unit with its start code occupies [start, end); its header byte is at `header`.
  datatype Nal = Nal(start: nat, header: nat, end: nat, kind: nat)

  // A start code with nothing behind it.
  predicate DanglingAt(p: seq<byte>, at: nat) {
    at < |p| && CodeAt(p, at) && at + PrefixLen(p, at) == |p|
  }

  // No further unit: the payload ends, or ends in a start code.
  predicate Stops(p: seq<byte>, at: nat) {
    at >= |p| || DanglingAt(p, at)
  }

  function TypeOf(b: byte): nat { b % 32 }

  /** The header byte of a unit: a zero bit, two bits of importance, five bits of type. */
  lemma HeaderNamesType(zero: nat, importance: nat, t: nat)
    requires zero < 2 && importance < 4 && t < 32
    ensures TypeOf(128 * zero + 32 * importance + t) == t
  {
  }

  /** The two forms of a start code. */
  lemma StartCodes(p: seq<byte>, i: nat)
    ensures CodeAt(p, i) <==>
              (i + 3 <= |p| && p[i..i + 3] == [0, 0, 1]) || (i + 4 <= |p| && p[i..i + 4] == [0, 0, 0, 1])
    ensures CodeAt(p, i) ==> i + PrefixLen(p, i) <= |p| && p[i + PrefixLen(p, i) - 1] == 1
  {
    if i + 4 <= |p| {
      assert p[i..i + 4] == [p[i], p[i + 1], p[i + 2], p[i + 3]];
    }
    if i + 3 <= |p| {
      assert p[i..i + 3] == [p[i], p[i + 1], p[i + 2]];
    }
  }

  // The unit whose start code is at `start`.
  function UnitFrom(p: seq<byte>, start: nat): Nal
    requires start + PrefixLen(p, start) < |p|
  {
    var header := start + PrefixLen(p, start);
    Nal(start, header, NextCode(p, header + 1), TypeOf(p[header]))
  }

  // The units that begin at or after `from`.
  function NalsAfter(p: seq<byte>, from: nat): seq<Nal>
    decreases |p| - from
  {
    var start := NextCode(p, from);
    if from >= |p| || Stops(p, start) then []
    else
      var header := start + PrefixLen(p, start);
      [UnitFrom(p, start)] + NalsAfter(p, header + 1)
  }

  function Nals(p: seq<byte>): seq<Nal> { NalsAfter(p, 0) }

  // The types of the units, in order.
  function KindsAfter(p: seq<byte>, from: nat): seq<nat> { Kinds(NalsAfter(p, from)) }

  function Types(p: seq<byte>): seq<nat> { KindsAfter(p, 0) }

  function Kinds(ns: seq<Nal>): seq<nat> {
    seq(|ns|, k requires 0 <= k < |ns| => ns[k].kind)
  }

  // Where the units end, or the first start code if there is none.
  function LastEnd(p: seq<byte>, from: nat): nat {
    var ns := NalsAfter(p, from);
    if ns == [] then NextCode(p, from) else ns[|ns| - 1].end
  }

  // The payload does not stop right behind a start code.
  predicate Closes(p: seq<byte>, from: nat) { LastEnd(p, from) == |p| }

  predicate Closed(p: seq<byte>) { Closes(p, 0) }

  // One start code, its own, and a header byte right behind it.
  predicate IsUnit(p: seq<byte>, n: Nal) {
    && n.start < n.header < n.end <= |p|
    && CodeAt(p, n.start) && n.header == n.start + PrefixLen(p, n.start) && n.kind == TypeOf(p[n.header])
    && forall i :: n.header < i < n.end ==> !CodeAt(p, i)
  }

  predicate Abut(ns: seq<Nal>) {
    forall k :: 0 < k < |ns| ==> ns[k - 1].end == ns[k].start
  }

  predicate AllUnits(p: seq<byte>, ns: seq<Nal>) {
    forall k :: 0 <= k < |ns| ==> IsUnit(p, ns[k])
  }

  lemma FirstNal(p: seq<byte>, from: nat)
    requires from < |p| && !Stops(p, NextCode(p, from))
    ensures NextCode(p, from) + PrefixLen(p, NextCode(p, from)) < |p|
    ensures var u := UnitFrom(p, NextCode(p, from));
            IsUnit(p, u) && from < u.header && NalsAfter(p, from) == [u] + NalsAfter(p, u.header + 1)
  {
    var start := NextCode(p, from);
    NextCodeIsLeast(p, start + PrefixLen(p, start) + 1);
  }

  lemma NoNal(p: seq<byte>, from: nat)
    requires Stops(p, NextCode(p, from))
    ensures NalsAfter(p, from) == [] && KindsAfter(p, from) == [] && Closes(p, from) == (NextCode(p, from) == |p|)
  {
  }

  // A first unit adds its kind to those of the rest, and ends where they do.
  lemma OneMoreKind(n: Nal, ns: seq<Nal>, all: seq<Nal>)
    requires all == [n] + ns
    ensures Kinds(all) == [n.kind] + Kinds(ns)
  {
  }

  lemma FirstKind(p: seq<byte>, from: nat)
    requires from < |p| && !Stops(p, NextCode(p, from))
    ensures NextCode(p, from) + PrefixLen(p, NextCode(p, from)) < |p|
    ensures var u := UnitFrom(p, NextCode(p, from));
            && from < u.header < |p| && u.kind == TypeOf(p[u.header])
            && KindsAfter(p, from) == [u.kind] + KindsAfter(p, u.header + 1)
            && Closes(p, from) == Closes(p, u.header + 1)
  {
    var u := UnitFrom(p, NextCode(p, from));
    FirstNal(p, from);
    OneMoreKind(u, NalsAfter(p, u.header + 1), NalsAfter(p, from));
  }

  lemma {:induction false} NalsAreUnits(p: seq<byte>, from: nat)
    requires from <= |p|
    ensures AllUnits(p, NalsAfter(p, from))
    decreases |p| - from
  {
    if from < |p| && !Stops(p, NextCode(p, from)) {
      FirstNal(p, from);
      NalsAreUnits(p, UnitFrom(p, NextCode(p, from)).header + 1);
    }
  }

  // The units abut, from the start code at `start` on to where the walk stops.
  predicate Tiles(p: seq<byte>, ns: seq<Nal>, start: nat) {
    && Abut(ns)
    && (if ns == [] then Stops(p, start) else ns[0].start == start && Stops(p, ns[|ns| - 1].end))
  }

  lemma OneMoreTile(p: seq<byte>, n: Nal, ns: seq<Nal>)
    requires Tiles(p, ns, n.end)
    ensures Tiles(p, [n] + ns, n.start)
  {
  }

  lemma {:induction false} NalsAbut(p: seq<byte>, from: nat)
    requires from <= |p|
    ensures Tiles(p, NalsAfter(p, from), NextCode(p, from))
    decreases |p| - from
  {
    if from == |p| || Stops(p, NextCode(p, from)) {
      NoNal(p, from);
    } else {
      var first := UnitFrom(p, NextCode(p, from));
      FirstNal(p, from);
      NalsAbut(p, first.header + 1);
      OneMoreTile(p, first, NalsAfter(p, first.header + 1));
    }
  }

  /**
   The units tile the payload: they start at the first start code, each ends where the next
   begins, and the last one ends where the payload does or at a dangling start code.
   */
  lemma NalsTile(p: seq<byte>)
    ensures var ns := Nals(p);
            AllUnits(p, ns) && Types(p) == Kinds(ns) && Tiles(p, ns, NextCode(p, 0))
  {
    NalsAreUnits(p, 0);
    NalsAbut(p, 0);
  }

  // ----- Classification -----

  datatype AuClass = AuClass(hasVcl: bool, hasIdr: bool, hasParameterSet: bool)

  predicate IsVcl(t: nat) { 1 <= t <= 5 }

  predicate HasVcl(ts: seq<nat>) { exists t :: t in ts && IsVcl(t) }

  function ClassOf(ts: seq<nat>): AuClass {
    AuClass(HasVcl(ts), 5 in ts, 7 in ts || 8 in ts)
  }

  /** Coded slices are types 1 to 5, of them 5 an IDR's; parameter sets are types 7 and 8. */
  lemma ClassOfTable(ts: seq<nat>)
    ensures ClassOf(ts).hasVcl <==> exists i :: 0 <= i < |ts| && 1 <= ts[i] <= 5
    ensures ClassOf(ts).hasIdr <==> exists i :: 0 <= i < |ts| && ts[i] == 5
    ensures ClassOf(ts).hasParameterSet <==> exists i :: 0 <= i < |ts| && (ts[i] == 7 || ts[i] == 8)
  {
    if HasVcl(ts) {
      var t :| t in ts && IsVcl(t);
      assert exists i :: 0 <= i < |ts| && ts[i] == t;
    }
    if i :| 0 <= i < |ts| && 1 <= ts[i] <= 5 {
      assert ts[i] in ts && IsVcl(ts[i]);
    }
  }

  function Or(a: AuClass, b: AuClass): AuClass {
    AuClass(a.hasVcl || b.hasVcl, a.hasIdr || b.hasIdr, a.hasParameterSet || b.hasParameterSet)
  }

  lemma ClassOfConcat(a: seq<nat>, b: seq<nat>)
    ensures ClassOf(a + b) == Or(ClassOf(a), ClassOf(b))
  {
    assert forall t :: t in a + b <==> t in a || t in b;
  }

  // Where no unit begins, the first byte says nothing.
  lemma NoUnitAt(p: seq<byte>, i: nat)
    requires i < |p|
    requires CodeAt(p, i) ==> DanglingAt(p, i)
    ensures KindsAfter(p, i) == KindsAfter(p, i + 1)
  {
    if CodeAt(p, i) {
      DanglingIsLast(p, i);
      NoNal(p, i);
      NoNal(p, i + 1);
    } else {
      NotACode(p, i);
    }
  }

  // Behind the first byte of a dangling start code there is at most the rest of it.
  lemma DanglingIsLast(p: seq<byte>, i: nat)
    requires DanglingAt(p, i)
    ensures Stops(p, NextCode(p, i)) && Stops(p, NextCode(p, i + 1))
  {
    if Code4At(p, i) {
      assert CodeAt(p, i + 1) && DanglingAt(p, i + 1);
    } else {
      NextCodeIs(p, i + 1, |p|);
    }
  }

  lemma NotACode(p: seq<byte>, i: nat)
    requires i < |p| && !CodeAt(p, i)
    ensures KindsAfter(p, i) == KindsAfter(p, i + 1)
  {
    assert NextCode(p, i) == NextCode(p, i + 1);
    if Stops(p, NextCode(p, i)) {
      NoNal(p, i);
      NoNal(p, i + 1);
    } else {
      FirstNal(p, i);
      FirstNal(p, i + 1);
    }
  }

  function ClassOfType(t: nat): AuClass { AuClass(IsVcl(t), t == 5, t == 7 || t == 8) }

  lemma ClassOfMore(t: nat, ts: seq<nat>, whole: seq<nat>)
    requires whole == [t] + ts
    ensures ClassOf(whole) == Or(ClassOfType(t), ClassOf(ts))
  {
    ClassOfConcat([t], ts);
    assert HasVcl([t]) == IsVcl(t) by { assert t in [t]; }
  }

  // Where a unit does begin, its type comes first.
  lemma UnitAt(p: seq<byte>, i: nat, header: nat)
    requires CodeAt(p, i) && header == i + PrefixLen(p, i) < |p|
    ensures ClassOf(KindsAfter(p, i)) == Or(ClassOfType(TypeOf(p[header])), ClassOf(KindsAfter(p, header + 1)))
  {
    FirstKind(p, i);
    ClassOfMore(TypeOf(p[header]), KindsAfter(p, header + 1), KindsAfter(p, i));
  }

  function WithType(c: AuClass, t: nat): AuClass {
    AuClass(c.hasVcl || IsVcl(t), c.hasIdr || t == 5, c.hasParameterSet || t == 7 || t == 8)
  }

  // What the scan has still to find out.
  predicate Remains(whole: AuClass, c: AuClass, p: seq<byte>, i: nat) {
    whole == Or(c, ClassOf(KindsAfter(p, i)))
  }

  lemma Skipped(whole: AuClass, c: AuClass, p: seq<byte>, i: nat)
    requires i < |p| && (CodeAt(p, i) ==> DanglingAt(p, i)) && Remains(whole, c, p, i)
    ensures Remains(whole, c, p, i + 1)
  {
    NoUnitAt(p, i);
  }

  lemma Met(whole: AuClass, c: AuClass, p: seq<byte>, i: nat, header: nat)
    requires CodeAt(p, i) && header == i + PrefixLen(p, i) < |p| && Remains(whole, c, p, i)
    ensures Remains(whole, WithType(c, TypeOf(p[header])), p, header + 1)
  {
    UnitAt(p, i, header);
  }

  lemma Done(whole: AuClass, c: AuClass, p: seq<byte>, i: nat)
    requires i <= |p| <= i + 3 && Remains(whole, c, p, i)
    ensures c == whole
  {
    TooShortForAUnit(p, i);
  }

  /** The driver's own scan, which never builds the list of units, sees exactly those units. */
  method ClassifyAu(p: seq<byte>) returns (c: AuClass)
    ensures c == ClassOf(Types(p))
  {
    ghost var whole := ClassOf(Types(p));
    c := AuClass(false, false, false);
    var i := 0;
    while i + 3 < |p|
      invariant i <= |p| && Remains(whole, c, p, i)
    {
      if p[i] != 0 || p[i + 1] != 0 {
        Skipped(whole, c, p, i);
        i := i + 1;
        continue;
      }
      var header;
      if p[i + 2] == 1 {
        header := i + 3;
      } else if i + 4 < |p| && p[i + 2] == 0 && p[i + 3] == 1 {
        header := i + 4;
      } else {
        Skipped(whole, c, p, i);
        i := i + 1;
        continue;
      }
      Met(whole, c, p, i, header);
      var t := TypeOf(p[header]);
      if 1 <= t <= 5 { c := c.(hasVcl := true); }
      if t == 5 { c := c.(hasIdr := true); }
      if t == 7 || t == 8 { c := c.(hasParameterSet := true); }
      i := header + 1;
    }
    Done(whole, c, p, i);
  }

  lemma TooShortForAUnit(p: seq<byte>, i: nat)
    requires i <= |p| <= i + 3
    ensures KindsAfter(p, i) == []
  {
    assert !Stops(p, NextCode(p, i)) ==> NextCode(p, i) + 3 < |p|;
    NoNal(p, i);
  }

  // ----- Concatenation -----

  // `p` is `a` and then `b`.
  predicate Joined(p: seq<byte>, a: seq<byte>, b: seq<byte>) {
    && |p| == |a| + |b|
    && (forall i :: 0 <= i < |a| ==> a[i] == p[i])
    && (forall i :: 0 <= i < |b| ==> b[i] == p[|a| + i])
  }

  // The back part has its start codes where the whole has them.
  lemma CodeBehind(p: seq<byte>, a: seq<byte>, b: seq<byte>, i: nat)
    requires Joined(p, a, b) && i <= |b|
    ensures CodeAt(p, |a| + i) == CodeAt(b, i) && PrefixLen(p, |a| + i) == PrefixLen(b, i)
    ensures i < |b| ==> p[|a| + i] == b[i]
  {
    var n := |a|;
    assert i + 1 < |b| ==> b[i + 1] == p[n + (i + 1)];
    assert i + 2 < |b| ==> b[i + 2] == p[n + (i + 2)];
    assert i + 3 < |b| ==> b[i + 3] == p[n + (i + 3)];
  }

  lemma NextCodeBehind(p: seq<byte>, a: seq<byte>, b: seq<byte>, from: nat)
    requires Joined(p, a, b) && from <= |b|
    ensures NextCode(p, |a| + from) == |a| + NextCode(b, from)
  {
    var at := NextCode(b, from);
    NextCodeIsLeast(b, from);
    CodeBehind(p, a, b, at);
    forall i | |a| + from <= i < |a| + at ensures !CodeAt(p, i) {
      CodeBehind(p, a, b, i - |a|);
    }
    NextCodeIs(p, |a| + from, |a| + at);
  }

  // Two payloads whose units from here on are of the same types, and which end alike.
  predicate SameRest(p: seq<byte>, i: nat, b: seq<byte>, k: nat) {
    KindsAfter(p, i) == KindsAfter(b, k) && Closes(p, i) == Closes(b, k)
  }

  // From here on the next unit has its header byte at `header`.
  predicate HeaderNext(p: seq<byte>, from: nat, header: nat) {
    && from < |p| && !Stops(p, NextCode(p, from))
    && header == NextCode(p, from) + PrefixLen(p, NextCode(p, from))
  }

  lemma OneKindMore(p: seq<byte>, from: nat, header: nat)
    requires HeaderNext(p, from, header) && header < |p|
    ensures KindsAfter(p, from) == [TypeOf(p[header])] + KindsAfter(p, header + 1)
    ensures Closes(p, from) == Closes(p, header + 1)
  {
    FirstKind(p, from);
  }

  lemma SameUnit(p: seq<byte>, i: nat, h: nat, b: seq<byte>, k: nat, g: nat)
    requires HeaderNext(p, i, h) && HeaderNext(b, k, g)
    requires h < |p| && g < |b| && p[h] == b[g] && SameRest(p, h + 1, b, g + 1)
    ensures SameRest(p, i, b, k)
  {
    OneKindMore(p, i, h);
    OneKindMore(b, k, g);
  }

  lemma HeaderBehind(p: seq<byte>, a: seq<byte>, b: seq<byte>, from: nat, header: nat)
    requires Joined(p, a, b) && HeaderNext(b, from, header)
    ensures from < header < |b| && HeaderNext(p, |a| + from, |a| + header) && p[|a| + header] == b[header]
  {
    NextCodeBehind(p, a, b, from);
    CodeBehind(p, a, b, NextCode(b, from));
    CodeBehind(p, a, b, header);
  }

  lemma NothingBehind(p: seq<byte>, a: seq<byte>, b: seq<byte>, from: nat)
    requires Joined(p, a, b) && from <= |b| && Stops(b, NextCode(b, from))
    ensures SameRest(p, |a| + from, b, from)
  {
    NextCodeBehind(p, a, b, from);
    CodeBehind(p, a, b, NextCode(b, from));
    NoNal(b, from);
    NoNal(p, |a| + from);
  }

  // The units of the back part are units of the whole.
  lemma {:induction false} KindsBehind(p: seq<byte>, a: seq<byte>, b: seq<byte>, from: nat)
    requires Joined(p, a, b) && from <= |b|
    ensures SameRest(p, |a| + from, b, from)
    decreases |b| - from
  {
    if Stops(b, NextCode(b, from)) {
      NothingBehind(p, a, b, from);
    } else {
      var header := NextCode(b, from) + PrefixLen(b, NextCode(b, from));
      HeaderBehind(p, a, b, from, header);
      KindsBehind(p, a, b, header + 1);
      SameUnit(p, |a| + from, |a| + header, b, from, header);
    }
  }

  // The front part has the whole's start codes, up to its end.
  lemma CodeInFront(p: seq<byte>, a: seq<byte>, b: seq<byte>, i: nat)
    requires Joined(p, a, b) && CodeAt(b, 0) && i < |a|
    ensures CodeAt(a, i) ==> CodeAt(p, i) && PrefixLen(p, i) == PrefixLen(a, i)
    ensures CodeAt(p, i) && !CodeAt(a, i) ==> i == |a| - 1 && Code3At(b, 0) && Code4At(p, i) && !Code3At(p, i)
  {
    assert b[0] == p[|a|] && b[1] == p[|a| + 1] && b[2] == p[|a| + 2];
  }

  // The next start code lies in the front part, or is the payload's own, which a zero at the
  // end of the front part may lengthen.
  lemma NextCodeInFront(p: seq<byte>, a: seq<byte>, b: seq<byte>, from: nat)
    requires Joined(p, a, b) && CodeAt(b, 0) && from <= |a|
    ensures var at := NextCode(p, from);
            if NextCode(a, from) < |a| then
              at == NextCode(a, from) && PrefixLen(p, at) == PrefixLen(a, at)
            else
              at + PrefixLen(p, at) == |a| + PrefixLen(b, 0)
  {
    var k := NextCode(a, from);
    NextCodeIsLeast(a, from);
    if k < |a| {
      forall i | from <= i < k ensures !CodeAt(p, i) {
        CodeInFront(p, a, b, i);
        CodeInFront(p, a, b, k);
      }
      CodeInFront(p, a, b, k);
      NextCodeIs(p, from, k);
    } else {
      CodeBehind(p, a, b, 0);
      forall i | from <= i < |a| - 1 ensures !CodeAt(p, i) {
        CodeInFront(p, a, b, i);
      }
      if from < |a| && CodeAt(p, |a| - 1) {
        CodeInFront(p, a, b, |a| - 1);
        NextCodeIs(p, from, |a| - 1);
      } else {
        NextCodeIs(p, from, |a|);
      }
    }
  }

  // Behind the last unit of the front part comes the first of the payload.
  lemma LastInFront(p: seq<byte>, a: seq<byte>, b: seq<byte>, from: nat)
    requires Joined(p, a, b) && CodeAt(b, 0) && from <= |a| && NextCode(a, from) == |a|
    ensures SameRest(p, from, b, 0)
  {
    var len := PrefixLen(b, 0);
    NextCodeInFront(p, a, b, from);
    if len < |b| {
      FirstBehind(p, a, b, from, len);
    } else {
      NoNal(b, 0);
      NoNal(p, from);
    }
  }

  lemma FirstBehind(p: seq<byte>, a: seq<byte>, b: seq<byte>, from: nat, len: nat)
    requires Joined(p, a, b) && CodeAt(b, 0) && from <= |a| && len == PrefixLen(b, 0) < |b|
    requires NextCode(p, from) + PrefixLen(p, NextCode(p, from)) == |a| + len
    ensures SameRest(p, from, b, 0)
  {
    CodeBehind(p, a, b, len);
    KindsBehind(p, a, b, len + 1);
    SameUnit(p, from, |a| + len, b, 0, len);
  }

  /**
   Putting bytes in front of a payload that begins with a start code leaves its units
   alone, however many zero bytes the front part ends in, as long as the front part does
   not stop right behind a start code.
   */
  lemma TypesConcat(a: seq<byte>, b: seq<byte>)
    requires Closed(a) && CodeAt(b, 0)
    ensures Types(a + b) == Types(a) + Types(b)
    ensures Closed(a + b) == Closed(b)
  {
    KindsInFront(a + b, a, b, 0);
  }

  lemma Regroup(t: nat, xs: seq<nat>, ys: seq<nat>, zs: seq<nat>, all: seq<nat>)
    requires zs == xs + ys && all == [t] + zs
    ensures all == ([t] + xs) + ys
  {
  }

  // A unit of the front part is a unit of the whole.
  lemma HeaderInFront(p: seq<byte>, a: seq<byte>, b: seq<byte>, from: nat, header: nat)
    requires Joined(p, a, b) && CodeAt(b, 0) && HeaderNext(a, from, header)
    ensures from < header < |a| && HeaderNext(p, from, header) && p[header] == a[header]
  {
    NextCodeInFront(p, a, b, from);
  }

  lemma NothingInFront(p: seq<byte>, a: seq<byte>, b: seq<byte>, from: nat)
    requires Joined(p, a, b) && CodeAt(b, 0) && from <= |a| && Closes(a, from) && Stops(a, NextCode(a, from))
    ensures KindsAfter(a, from) == [] && SameRest(p, from, b, 0)
  {
    NoNal(a, from);
    LastInFront(p, a, b, from);
  }

  lemma {:induction false} KindsInFront(p: seq<byte>, a: seq<byte>, b: seq<byte>, from: nat)
    requires Joined(p, a, b) && CodeAt(b, 0) && from <= |a| && Closes(a, from)
    ensures KindsAfter(p, from) == KindsAfter(a, from) + KindsAfter(b, 0)
    ensures Closes(p, from) == Closes(b, 0)
    decreases |a| - from
  {
    if Stops(a, NextCode(a, from)) {
      NothingInFront(p, a, b, from);
    } else {
      var header := NextCode(a, from) + PrefixLen(a, NextCode(a, from));
      HeaderInFront(p, a, b, from, header);
      OneKindMore(a, from, header);
      OneKindMore(p, from, header);
      KindsInFront(p, a, b, header + 1);
      Regroup(TypeOf(a[header]), KindsAfter(a, header + 1), KindsAfter(b, 0), KindsAfter(p, header + 1),
              KindsAfter(p, from));
    }
  }
}

/**
 Measuring the HDMI receiver's timing and choosing the video mode.
 */
module Receiver {
  import opened Basics

  function Abs(x: int): nat { if x < 0 then -x else x }

  // ----- One measurement -----

  // The receiver registers, in the order one pass reads them.
  datatype Registers = Registers(
    detect: byte, htotalHi: byte, htotalLo: byte, vtotalHi: byte, vtotalLo: byte,
    hperiodHi: byte, hperiodLo: byte, vperiodHi: byte, vperiodLo: byte, interlace: byte,
    vtotalHiAfter: byte, vtotalLoAfter: byte, detectAfter: byte)

  datatype Sample = Sample(htotal: u16, vtotal: u16, hperiod: u16, vperiod: u16, lines: u16,
                           interlaced: bool, fromGeometry: bool, lockEnded: bool)

  datatype Verdict =
    | NoLock
    | HperiodOverflow | VperiodOverflow | VtotalMoved | OutOfRange | LinesDisagree
    | Accepted(sample: Sample)

  // Bits 2, 3 and 4 of the detect register.
  predicate Locked(status: byte) { status / 4 % 8 == 7 }

  function Htotal(r: Registers): u16 { (r.htotalHi * 0x100 + r.htotalLo) % 0x1000 }
  function Vtotal(r: Registers): u16 { (r.vtotalHi * 0x100 + r.vtotalLo) % 0x800 }
  function VtotalAfter(r: Registers): u16 { (r.vtotalHiAfter * 0x100 + r.vtotalLoAfter) % 0x800 }
  function HperiodRaw(r: Registers): u16 { r.hperiodHi % 0x40 * 0x100 + r.hperiodLo }
  function VperiodRaw(r: Registers): u16 { r.vperiodHi % 0x40 * 0x100 + r.vperiodLo }

  /** Which bits of the registers count: three for lock, twelve, eleven and fourteen of the counters. */
  lemma RegisterFields(r: Registers, a: nat, b: nat, c: nat, d: nat, high: nat)
    requires a < 0x10 && b < 0x8 && c < 0x40 && d < 0x40 && high < 4
    requires r.htotalHi == a + 0x10 * high && r.vtotalHi == b + 0x8 * high
    requires r.hperiodHi == c + 0x40 * high && r.vperiodHi == d + 0x40 * high
    ensures Htotal(r) == 0x100 * a + r.htotalLo && Vtotal(r) == 0x100 * b + r.vtotalLo
    ensures HperiodRaw(r) == 0x100 * c + r.hperiodLo && VperiodRaw(r) == 0x100 * d + r.vperiodLo
  {
  }

  /** Full lock is bits 2 to 4 of the detect register, whatever the others say. */
  lemma LockBits(low: nat, mid: nat, high: nat)
    requires low < 4 && mid < 8 && high < 8
    ensures Locked(low + 4 * mid + 32 * high) <==> mid == 7
  {
  }

  // A rate in tenths from a raw period counter; zero counters give zero.
  function Rate(clock: nat, raw: u16): nat { if raw == 0 then 0 else clock / raw }

  function Hrate(r: Registers): nat { Rate(1600000, HperiodRaw(r)) }
  function Vrate(r: Registers): nat { Rate(1250000, VperiodRaw(r)) }

  // Lines per vertical period, as a number and as the driver's 16-bit field.
  function TrueLines(r: Registers): nat { if Vrate(r) == 0 then 0 else Hrate(r) * 1000 / Vrate(r) }
  function Lines(r: Registers): u16 { TrueLines(r) % 0x1_0000 }

  predicate Progressive(lines: int, vtotal: int) { Abs(lines - vtotal) <= 8 }
  predicate Interlaced(lines: int, vtotal: int) { Abs(lines - vtotal / 2) <= 8 }

  /**
   What makes a sample acceptable: lock, a vertical total that held still, counters in
   range, and a line count that fits one of the two field orders.
   */
  predicate Acceptable(r: Registers) {
    && Locked(r.detect)
    && Hrate(r) <= 0xffff && Vrate(r) <= 0xffff
    && Abs(VtotalAfter(r) - Vtotal(r)) <= 2
    && Htotal(r) != 0 && Hrate(r) != 0 && 150 <= Vtotal(r) && 200 <= Vrate(r) <= 1500
    && (Progressive(Lines(r), Vtotal(r)) || Interlaced(Lines(r), Vtotal(r)))
  }

  /** No sample fits both field orders. */
  lemma FieldOrdersExclude(lines: int, vtotal: int)
    requires 150 <= vtotal
    ensures !(Progressive(lines, vtotal) && Interlaced(lines, vtotal))
    ensures Progressive(lines, vtotal) ==> Abs(lines - vtotal) < Abs(lines - vtotal / 2)
    ensures Interlaced(lines, vtotal) ==> Abs(lines - vtotal / 2) < Abs(lines - vtotal) && lines != 0
  {
  }

  /**
   One measurement pass.  Acceptance and the field flag follow from the counters alone;
   the interlace register decides nothing about an accepted sample.
   */
  method MeasureOnce(r: Registers) returns (v: Verdict)
    ensures v.Accepted? <==> Acceptable(r)
    ensures v.Accepted? ==>
              && v.sample.htotal == Htotal(r) && v.sample.vtotal == Vtotal(r)
              && v.sample.hperiod == Hrate(r) && v.sample.vperiod == Vrate(r) && v.sample.lines == Lines(r)
              && v.sample.fromGeometry
              && v.sample.interlaced == Interlaced(Lines(r), Vtotal(r))
              && v.sample.interlaced == !Progressive(Lines(r), Vtotal(r))
              && v.sample.lockEnded == !Locked(r.detectAfter)
    ensures v.NoLock? <==> !Locked(r.detect)
    ensures v.HperiodOverflow? <==> Locked(r.detect) && Hrate(r) > 0xffff
    ensures v.VperiodOverflow? <==> Locked(r.detect) && Hrate(r) <= 0xffff && Vrate(r) > 0xffff
    ensures v.VtotalMoved? ==> Abs(VtotalAfter(r) - Vtotal(r)) > 2
    ensures v.OutOfRange? ==> Htotal(r) == 0 || Hrate(r) == 0 || Vtotal(r) < 150 || Vrate(r) < 200 || Vrate(r) > 1500
  {
    if !Locked(r.detect) {
      return NoLock;
    }
    var htotal, vtotal := Htotal(r), Vtotal(r);
    var converted := Rate(1600000, HperiodRaw(r));
    if converted > 0xffff {
      return HperiodOverflow;
    }
    var hperiod: u16 := converted;
    converted := Rate(1250000, VperiodRaw(r));
    if converted > 0xffff {
      return VperiodOverflow;
    }
    var vperiod: u16 := converted;
    var lines: u16 := if vperiod != 0 then hperiod * 1000 / vperiod % 0x1_0000 else 0;
    var interlaced, fromGeometry;
    if lines != 0 && vtotal != 0 {
      var dProg, dInt := Abs(lines - vtotal), Abs(lines - vtotal / 2);
      interlaced := dInt < dProg;
      fromGeometry := true;
    } else {
      interlaced := r.interlace / 8 % 2 == 1;
      fromGeometry := false;
    }
    if Abs(VtotalAfter(r) - vtotal) > 2 {
      return VtotalMoved;
    }
    if htotal == 0 || hperiod == 0 || vtotal < 150 || vperiod < 200 || vperiod > 1500 {
      return OutOfRange;
    }
    FieldOrdersExclude(lines, vtotal);
    var expected := if interlaced then vtotal / 2 else vtotal;
    if Abs(lines - expected) > 8 {
      return LinesDisagree;
    }
    return Accepted(Sample(htotal, vtotal, hperiod, vperiod, lines, interlaced, fromGeometry, !Locked(r.detectAfter)));
  }

  /** Only the interlace register differs: same acceptance, same field order. */
  lemma InterlaceRegisterIsIgnored(r: Registers, other: byte)
    ensures var s := r.(interlace := other);
            && (Acceptable(r) <==> Acceptable(s))
            && (Interlaced(Lines(r), Vtotal(r)) <==> Interlaced(Lines(s), Vtotal(s)))
  {
  }

  /**
   The line count is kept in 16 bits.  An accepted sample's true line count fits one of the
   field orders exactly when it needs no more than 16 bits ...
   */
  lemma AcceptedLinesAreTrueIffNarrow(r: Registers)
    requires Acceptable(r)
    ensures Progressive(TrueLines(r), Vtotal(r)) || Interlaced(TrueLines(r), Vtotal(r)) <==> TrueLines(r) < 0x1_0000
  {
    WrapDecides(TrueLines(r), Vtotal(r));
  }

  lemma WrapDecides(lines: nat, vtotal: nat)
    requires vtotal < 0x800
    requires Progressive(lines % 0x1_0000, vtotal) || Interlaced(lines % 0x1_0000, vtotal)
    ensures Progressive(lines, vtotal) || Interlaced(lines, vtotal) <==> lines < 0x1_0000
  {
  }

  /** ... and there are accepted samples whose true line count does not fit. */
  lemma AWideLineCountCanBeAccepted() returns (r: Registers)
    ensures Acceptable(r) && TrueLines(r) == 65708 && Lines(r) == 172 == Vtotal(r)
  {
    r := Registers(0x1c, 1, 0, 0, 172, 0, 25, 5, 3, 0, 0, 172, 0x1c);
    assert HperiodRaw(r) == 25 && VperiodRaw(r) == 1283;
    assert Vrate(r) == 974 && Hrate(r) == 64000;
    assert TrueLines(r) == 65708 && Vtotal(r) == 172 && Htotal(r) == 256;
  }

  // ----- Choosing the mode -----

  datatype Timing =
    | P480x60 | P720x30 | P720x50 | P720x60
    | P1080x24 | P1080x25 | P1080x30 | I1080x50 | I1080x60 | P1080x50 | P1080x60

  datatype Row = Row(timing: Timing, htotalMin: u16, htotalMax: u16, vtotalMin: u16, vtotalMax: u16,
                     hperiodMin: u16, hperiodMax: u16, vperiodMin: u16, vperiodMax: u16, interlaced: bool)

  const MODES: seq<Row> := [
    Row(P480x60, 845, 865, 520, 525, 310, 320, 595, 605, false),
    Row(P720x30, 2300, 2500, 745, 755, 215, 235, 290, 310, false),
    Row(P720x50, 2965, 2985, 745, 755, 360, 380, 480, 520, false),
    Row(P720x60, 2470, 2480, 745, 755, 445, 455, 595, 605, false),
    Row(P720x60, 1645, 1655, 745, 755, 445, 455, 595, 605, false),
    Row(P1080x24, 4080, 4105, 1120, 1130, 260, 280, 230, 250, false),
    Row(P1080x25, 3950, 3970, 1120, 1130, 270, 290, 240, 254, false),
    Row(P1080x30, 2295, 3305, 1120, 1130, 330, 345, 290, 310, false),
    Row(I1080x50, 3950, 3970, 555, 570, 270, 290, 490, 510, true),
    Row(I1080x60, 3290, 3310, 555, 570, 330, 345, 590, 610, true),
    Row(P1080x50, 3950, 3970, 1120, 1130, 550, 570, 480, 520, false),
    Row(P1080x60, 3290, 3310, 1120, 1130, 665, 685, 595, 605, false)]

  // What the table is matched against.
  datatype Counters = Counters(htotal: u16, vtotal: u16, hperiod: u16, vperiod: u16, interlaced: bool)

  // The receiver's clock domain: true totals, or deep colour at 30 or 36 bits.
  datatype Scale = True | ThreeHalves | SixFifths

  function Scaled(htotal: u16, s: Scale): u16 {
    match s
    case True => htotal
    case ThreeHalves => htotal * 3 / 2 % 0x1_0000
    case SixFifths => htotal * 6 / 5 % 0x1_0000
  }

  // Everything but the horizontal total.
  predicate FitsRest(e: Row, m: Counters) {
    && e.vtotalMin <= m.vtotal <= e.vtotalMax && e.hperiodMin <= m.hperiod <= e.hperiodMax
    && e.vperiodMin <= m.vperiod <= e.vperiodMax && m.interlaced == e.interlaced
  }

  predicate InRange(e: Row, htotal: u16, m: Counters) {
    e.htotalMin <= htotal <= e.htotalMax && FitsRest(e, m)
  }

  /** The bounds of a row belong to it, and nothing beyond them does. */
  lemma BoundsAreInclusive(e: Row, htotal: u16, m: Counters)
    requires e.htotalMin <= e.htotalMax && e.vtotalMin <= e.vtotalMax
    requires e.hperiodMin <= e.hperiodMax && e.vperiodMin <= e.vperiodMax
    ensures InRange(e, e.htotalMin, Counters(0, e.vtotalMin, e.hperiodMin, e.vperiodMin, e.interlaced))
    ensures InRange(e, e.htotalMax, Counters(0, e.vtotalMax, e.hperiodMax, e.vperiodMax, e.interlaced))
    ensures htotal < e.htotalMin || htotal > e.htotalMax || m.vtotal < e.vtotalMin || m.vtotal > e.vtotalMax ==>
              !InRange(e, htotal, m)
    ensures m.hperiod < e.hperiodMin || m.hperiod > e.hperiodMax || m.vperiod < e.vperiodMin || m.vperiod > e.vperiodMax ==>
              !InRange(e, htotal, m)
    ensures m.interlaced != e.interlaced ==> !InRange(e, htotal, m)
  {
  }

  predicate Matches(i: nat, s: Scale, m: Counters)
    requires i < |MODES|
  {
    InRange(MODES[i], Scaled(m.htotal, s), m)
  }

  // Apart from the horizontal total only 1080p24 and 1080p25 overlap ...
  lemma RestDecides(i: nat, j: nat, m: Counters)
    requires i <= j < |MODES| && FitsRest(MODES[i], m) && FitsRest(MODES[j], m)
    ensures MODES[i].timing == MODES[j].timing || (i == 5 && j == 6)
  {
  }

  // ... and no horizontal total is read as both, in any two clock domains.
  lemma FilmRatesDiffer(htotal: u16, s: Scale, t: Scale)
    ensures !(4080 <= Scaled(htotal, s) <= 4105 && 3950 <= Scaled(htotal, t) <= 3970)
  {
    ScaledFrom(htotal, s);
    ScaledFrom(htotal, t);
  }

  // The totals that can be read as a film rate, by clock domain; a scaled one wraps at most once.
  lemma ScaledFrom(htotal: u16, s: Scale)
    ensures 4080 <= Scaled(htotal, s) <= 4105 ==>
              || 4080 <= htotal <= 4105 || 2720 <= htotal <= 2737 || 46410 <= htotal <= 46428
              || 3400 <= htotal <= 3421 || 58013 <= htotal <= 58035
    ensures 3950 <= Scaled(htotal, s) <= 3970 ==>
              || 3950 <= htotal <= 3970 || 2633 <= htotal <= 2647 || 46323 <= htotal <= 46338
              || 3291 <= htotal <= 3309 || 57904 <= htotal <= 57922
  {
    match s
    case True =>
    case ThreeHalves => WrapsOnce(htotal * 3 / 2);
    case SixFifths => WrapsOnce(htotal * 6 / 5);
  }

  lemma WrapsOnce(n: nat)
    requires n < 0x2_0000
    ensures n % 0x1_0000 == if n < 0x1_0000 then n else n - 0x1_0000
  {
  }

  /**
   Any two table rows that match the same counters, in whatever clock domains, name the
   same timing: neither the order of the rows nor the order of the passes matters.
   */
  lemma MatchIsUnambiguous(i: nat, s: Scale, j: nat, t: Scale, m: Counters)
    requires i < |MODES| && j < |MODES| && Matches(i, s, m) && Matches(j, t, m)
    ensures MODES[i].timing == MODES[j].timing
  {
    if i <= j {
      RestDecides(i, j, m);
      FilmRatesDiffer(m.htotal, s, t);
    } else {
      RestDecides(j, i, m);
      FilmRatesDiffer(m.htotal, t, s);
    }
  }

  method FirstMatch(s: Scale, m: Counters) returns (i: nat)
    ensures i <= |MODES|
    ensures i < |MODES| ==> Matches(i, s, m)
    ensures forall j :: 0 <= j < i ==> !Matches(j, s, m)
  {
    i := 0;
    while i < |MODES|
      invariant i <= |MODES|
      invariant forall j :: 0 <= j < i ==> !Matches(j, s, m)
    {
      if Matches(i, s, m) {
        return i;
      }
      i := i + 1;
    }
  }

  /** Three passes over the table: some timing exactly when some row matches in some domain. */
  method MatchMode(m: Counters) returns (r: Option<Timing>, scaled: bool)
    ensures r == None ==> forall j, s :: 0 <= j < |MODES| ==> !Matches(j, s, m)
    ensures forall j, s :: 0 <= j < |MODES| && Matches(j, s, m) ==> r == Some(MODES[j].timing)
    ensures scaled <==> r.Some? && forall j :: 0 <= j < |MODES| ==> !Matches(j, True, m)
  {
    var i := FirstMatch(True, m);
    scaled := false;
    if i == |MODES| {
      i := FirstMatch(ThreeHalves, m);
      if i == |MODES| {
        i := FirstMatch(SixFifths, m);
        if i == |MODES| {
          forall j, s | 0 <= j < |MODES| ensures !Matches(j, s, m) {
            match s { case True => case ThreeHalves => case SixFifths => }
          }
          return None, false;
        }
      }
      scaled := true;
    }
    r := Some(MODES[i].timing);
    forall j, s | 0 <= j < |MODES| && Matches(j, s, m) ensures r == Some(MODES[j].timing) {
      var t: Scale :| Matches(i, t, m);
      MatchIsUnambiguous(i, t, j, s, m);
    }
  }

  /** A sample that is accepted and names a mode has its true line count. */
  lemma MatchedLinesAreTrue(r: Registers, i: nat, s: Scale, m: Counters)
    requires Acceptable(r) && i < |MODES| && m.hperiod == Hrate(r) && Matches(i, s, m)
    ensures TrueLines(r) < 0x1_0000
  {
    assert MODES[i].hperiodMax <= 685;
    QuotientBound(Hrate(r), Vrate(r));
  }

  lemma QuotientBound(h: nat, v: nat)
    requires h <= 685 && 200 <= v
    ensures h * 1000 / v < 0x1_0000
  {
    var q := h * 1000 / v;
    assert q * v <= h * 1000;
    assert q * 200 <= q * v;
  }

  // What one accepted measurement hands to the table.
  function CountersOf(r: Registers): Counters
    requires Acceptable(r)
  {
    Counters(Htotal(r), Vtotal(r), Hrate(r), Vrate(r), Interlaced(Lines(r), Vtotal(r)))
  }

  // Counters in an interlaced row come with at least 529 lines per vertical period.
  lemma InterlacedRowsHaveManyLines(h: nat, v: nat, i: nat, m: Counters)
    requires i < |MODES| && MODES[i].interlaced && FitsRest(MODES[i], m) && m.hperiod == h && m.vperiod == v
    ensures v > 0 && h * 1000 / v >= 529 && m.vtotal <= 570 && m.interlaced
  {
    assert i == 8 || i == 9;
    assert 529 * v <= h * 1000;
    QuotientAtLeast(h * 1000, v, 529);
  }

  // So many lines are not those of one field of so few.
  lemma ManyLinesAreProgressive(m: Counters, lines: nat, i: nat)
    requires i < |MODES| && FitsRest(MODES[i], m) && m.vperiod > 0
    requires lines == m.hperiod * 1000 / m.vperiod && m.interlaced == Interlaced(lines, m.vtotal)
    ensures !MODES[i].interlaced
  {
    if MODES[i].interlaced {
      InterlacedRowsHaveManyLines(m.hperiod, m.vperiod, i, m);
    }
  }

  lemma TrueLinesOf(r: Registers, h: nat, v: nat)
    requires h == Hrate(r) && v == Vrate(r) && v > 0
    ensures TrueLines(r) == h * 1000 / v
  {
  }

  lemma NarrowIsKept(r: Registers)
    requires TrueLines(r) < 0x1_0000
    ensures Lines(r) == TrueLines(r)
  {
  }

  /**
   The interlaced rows of the table are never reached: their vertical totals count the lines
   of one field, and for such a sample the line count agrees with the whole total, so the
   geometry calls it progressive.
   */
  lemma AcceptedSamplesMatchNoInterlacedRow(r: Registers, i: nat, s: Scale)
    requires Acceptable(r) && i < |MODES| && Matches(i, s, CountersOf(r))
    ensures !MODES[i].interlaced
  {
    var m := CountersOf(r);
    MatchedLinesAreTrue(r, i, s, m);
    NarrowIsKept(r);
    TrueLinesOf(r, m.hperiod, m.vperiod);
    ManyLinesAreProgressive(m, Lines(r), i);
  }

  // ----- Standard sources -----

  // The totals and the pixel clock of a progressive format of CEA-861.
  datatype Format = Format(htotal: nat, vtotal: nat, pixelclock: nat)

  function Cea(t: Timing): Format
    requires !t.I1080x50? && !t.I1080x60?
  {
    match t
    case P480x60 => Format(858, 525, 27_000_000)
    case P720x30 => Format(3300, 750, 74_250_000)
    case P720x50 => Format(1980, 750, 74_250_000)
    case P720x60 => Format(1650, 750, 74_250_000)
    case P1080x24 => Format(2750, 1125, 74_250_000)
    case P1080x25 => Format(2640, 1125, 74_250_000)
    case P1080x30 => Format(2200, 1125, 74_250_000)
    case P1080x50 => Format(2640, 1125, 148_500_000)
    case P1080x60 => Format(2200, 1125, 148_500_000)
  }

  // The receiver counts a line in periods of 160 MHz and a frame in periods of 125 kHz.
  function HperiodOf(f: Format): nat
    requires f.pixelclock > 0
  {
    160_000_000 * f.htotal / f.pixelclock
  }

  function VperiodOf(f: Format): nat
    requires f.pixelclock > 0
  {
    125_000 * f.htotal * f.vtotal / f.pixelclock
  }

  // `r` is what the receiver shows of such a source: full lock, and counters that hold still.
  predicate Shows(r: Registers, f: Format) {
    && f.pixelclock > 0 && r.detect == r.detectAfter == 0x1c
    && r.htotalHi * 0x100 + r.htotalLo == f.htotal
    && r.vtotalHi * 0x100 + r.vtotalLo == f.vtotal == r.vtotalHiAfter * 0x100 + r.vtotalLoAfter
    && r.hperiodHi * 0x100 + r.hperiodLo == HperiodOf(f) && r.vperiodHi * 0x100 + r.vperiodLo == VperiodOf(f)
  }

  // What such a source measures as: its totals, and kilohertz and hertz in tenths.
  function Nominal(t: Timing): Counters
    requires !t.I1080x50? && !t.I1080x60?
  {
    match t
    case P480x60 => Counters(858, 525, 314, 599, false)
    case P720x30 => Counters(3300, 750, 225, 300, false)
    case P720x50 => Counters(1980, 750, 375, 500, false)
    case P720x60 => Counters(1650, 750, 450, 600, false)
    case P1080x24 => Counters(2750, 1125, 270, 240, false)
    case P1080x25 => Counters(2640, 1125, 281, 250, false)
    case P1080x30 => Counters(2200, 1125, 337, 300, false)
    case P1080x50 => Counters(2640, 1125, 562, 500, false)
    case P1080x60 => Counters(2200, 1125, 675, 600, false)
  }

  lemma RawShown(r: Registers, f: Format, h: nat, v: nat)
    requires Shows(r, f) && f.htotal < 0x1000 && f.vtotal < 0x800
    requires HperiodOf(f) == h < 0x4000 && VperiodOf(f) == v < 0x4000
    ensures Htotal(r) == f.htotal && Vtotal(r) == f.vtotal == VtotalAfter(r) && Locked(r.detect)
    ensures HperiodRaw(r) == h && VperiodRaw(r) == v
  {
    SixBits(r.hperiodHi, r.hperiodLo);
    SixBits(r.vperiodHi, r.vperiodLo);
  }

  lemma SixBits(hi: byte, lo: byte)
    requires hi * 0x100 + lo < 0x4000
    ensures hi % 0x40 == hi
  {
  }

  lemma AcceptedThus(r: Registers, m: Counters, lines: nat)
    requires Locked(r.detect) && Htotal(r) == m.htotal != 0 && Vtotal(r) == VtotalAfter(r) == m.vtotal
    requires Hrate(r) == m.hperiod != 0 && Vrate(r) == m.vperiod && TrueLines(r) == lines < 0x1_0000
    requires 150 <= m.vtotal && 200 <= m.vperiod <= 1500 && Progressive(lines, m.vtotal) && !m.interlaced
    ensures Acceptable(r) && CountersOf(r) == m
  {
    NarrowIsKept(r);
    assert Lines(r) == lines;
    FieldOrdersExclude(lines, m.vtotal);
  }

  // A source with these raw counters measures as `m`.
  lemma MeasuredThus(r: Registers, f: Format, h: nat, v: nat, m: Counters, lines: nat)
    requires Shows(r, f) && 0 < f.htotal < 0x1000 && 150 <= f.vtotal < 0x800
    requires HperiodOf(f) == h < 0x4000 && VperiodOf(f) == v < 0x4000
    requires m.htotal == f.htotal && m.vtotal == f.vtotal && !m.interlaced && 0 < m.hperiod && 200 <= m.vperiod <= 1500
    requires Rate(1600000, h) == m.hperiod && Rate(1250000, v) == m.vperiod
    requires m.hperiod * 1000 / m.vperiod == lines < 0x1_0000 && Progressive(lines, m.vtotal)
    ensures Acceptable(r) && CountersOf(r) == m
  {
    RawShown(r, f, h, v);
    AcceptedThus(r, m, lines);
  }

  lemma CountersOfStandard(r: Registers, t: Timing)
    requires !t.I1080x50? && !t.I1080x60? && Shows(r, Cea(t))
    ensures Acceptable(r) && CountersOf(r) == Nominal(t)
  {
    match t
    case P480x60 => MeasuredThus(r, Cea(t), 5084, 2085, Nominal(t), 524);
    case P720x30 => MeasuredThus(r, Cea(t), 7111, 4166, Nominal(t), 750);
    case P720x50 => MeasuredThus(r, Cea(t), 4266, 2500, Nominal(t), 750);
    case P720x60 => MeasuredThus(r, Cea(t), 3555, 2083, Nominal(t), 750);
    case P1080x24 => MeasuredThus(r, Cea(t), 5925, 5208, Nominal(t), 1125);
    case P1080x25 => MeasuredThus(r, Cea(t), 5688, 5000, Nominal(t), 1124);
    case P1080x30 => MeasuredThus(r, Cea(t), 4740, 4166, Nominal(t), 1123);
    case P1080x50 => MeasuredThus(r, Cea(t), 2844, 2500, Nominal(t), 1124);
    case P1080x60 => MeasuredThus(r, Cea(t), 2370, 2083, Nominal(t), 1125);
  }

  predicate IsNamed(m: Counters, t: Timing) {
    exists i: nat, s: Scale :: i < |MODES| && MODES[i].timing == t && Matches(i, s, m)
  }

  lemma NominalIsNamed(t: Timing)
    requires !t.I1080x50? && !t.I1080x60? && t != P720x30 && t != P1080x24
    ensures IsNamed(Nominal(t), t)
  {
    match t
    case P480x60 => assert Matches(0, True, Nominal(t));
    case P720x50 => assert Matches(2, ThreeHalves, Nominal(t));
    case P720x60 => assert Matches(4, True, Nominal(t));
    case P1080x25 => assert Matches(6, ThreeHalves, Nominal(t));
    case P1080x30 => assert Matches(7, ThreeHalves, Nominal(t));
    case P1080x50 => assert Matches(10, ThreeHalves, Nominal(t));
    case P1080x60 => assert Matches(11, ThreeHalves, Nominal(t));
  }

  /**
   Every progressive format of the table is accepted when a standard source sends it, and all
   but two are then named for what they are, some of them in a pass for scaled totals ...
   */
  lemma StandardSourcesAreNamed(r: Registers, t: Timing)
    requires !t.I1080x50? && !t.I1080x60? && Shows(r, Cea(t))
    requires t != P720x30 && t != P1080x24
    ensures Acceptable(r) && IsNamed(CountersOf(r), t)
  {
    CountersOfStandard(r, t);
    NominalIsNamed(t);
  }

  /** ... while 720p30 and 1080p24 of the standard totals match no row in any clock domain. */
  lemma TwoStandardSourcesAreNot(r: Registers, t: Timing, i: nat, s: Scale)
    requires (t == P720x30 || t == P1080x24) && Shows(r, Cea(t)) && i < |MODES|
    ensures Acceptable(r) && !Matches(i, s, CountersOf(r))
  {
    CountersOfStandard(r, t);
    NominalIsNotNamed(t, i, s);
  }

  lemma NominalIsNotNamed(t: Timing, i: nat, s: Scale)
    requires (t == P720x30 || t == P1080x24) && i < |MODES|
    ensures !Matches(i, s, Nominal(t))
  {
    match s
    case True =>
    case ThreeHalves => assert Scaled(3300, s) == 4950 && Scaled(2750, s) == 4125;
    case SixFifths => assert Scaled(3300, s) == 3960 && Scaled(2750, s) == 3300;
  }
}

/**
 Handing one raw frame out of a slot the card writes into.

 Four dwords of a slot, the sentinels, hold a poison value until the card overwrites them.
 To detect a card that writes during the copy, the driver poisons the sentinels again
 before copying, and afterwards puts the saved pixels back where the chosen layout keeps
 them.
 */
module RawSlot {
  import opened Basics
  import opened FrameLength

  const SLOTS: nat := 4
  const BUF_SIZE: nat := 0x466000
  const DEFAULT_FRAME: nat := 0x2f7600
  const BANK0_POISON: byte := 0xa5
  const BANK1_POISON: byte := 0x5a

  datatype Layout = I420 | Yv12 | Nv12

  // The slot's poison byte: slots 0..3 are the first bank, 4..7 the second.
  function SlotPoison(idx: nat): byte { if idx < SLOTS then BANK0_POISON else BANK1_POISON }

  // Round up to a multiple of 16 in 32-bit arithmetic; the result in units of 16.
  function AlignedUnits(w: u32): nat { (w + 15) % 0x1_0000_0000 / 16 }

  // The frame size, ALIGN(w, 16) * h * 3 / 2 in 64-bit arithmetic.
  function FrameBytes(w: u32, h: u32): nat {
    if w == 0 || h == 0 then DEFAULT_FRAME
    else 16 * (AlignedUnits(w) * h * 3) % 0x1_0000_0000_0000_0000 / 2
  }

  // The least multiple of 16 that is no less than the width.
  predicate IsStride(stride: nat, w: nat) {
    stride % 16 == 0 && w <= stride < w + 16
  }

  /**
   The size is that of a 4:2:0 picture whose lines are rounded up to 16 samples, if and only
   if neither the rounding nor the product wraps; its planes are then those of the picture.
   */
  lemma FrameIsThePicture(w: u32, h: u32, stride: nat)
    requires w > 0 && h > 0 && IsStride(stride, w)
    ensures 2 * FrameBytes(w, h) == 3 * (stride * h) <==>
            stride < 0x1_0000_0000 && 3 * (stride * h) < 0x1_0000_0000_0000_0000
    ensures 2 * FrameBytes(w, h) == 3 * (stride * h) ==>
              Luma(FrameBytes(w, h)) == stride * h && 4 * Chroma(FrameBytes(w, h)) == stride * h
  {
    var units := stride / 16;
    var area := units * h;
    assert 16 * area == stride * h by { Regrouped(units, h); }
    assert area > 0 by { Positive(units, h); }
    if stride < 0x1_0000_0000 {
      assert AlignedUnits(w) == units;
      SizeOf(area, FrameBytes(w, h));
    } else {
      assert AlignedUnits(w) == 0;
    }
  }

  lemma Regrouped(units: nat, h: nat)
    ensures 16 * (units * h) == 16 * units * h
  {
  }

  lemma Positive(a: nat, b: nat)
    requires a > 0 && b > 0
    ensures a * b > 0
  {
  }

  lemma SizeOf(area: nat, frame: nat)
    requires frame == 16 * (area * 3) % 0x1_0000_0000_0000_0000 / 2
    ensures frame == 24 * area <==> 48 * area < 0x1_0000_0000_0000_0000
    ensures frame == 24 * area ==> Luma(frame) == 16 * area && Chroma(frame) == 4 * area
  {
  }

  /** The size assumed before anything is negotiated is that of a 1920x1080 picture. */
  lemma DefaultFrameIsFullHd(w: u32, h: u32)
    ensures FrameBytes(1920, 1080) == 1920 * 1080 * 3 / 2
    ensures w == 0 || h == 0 ==> FrameBytes(w, h) == FrameBytes(1920, 1080)
  {
  }

  /** The two banks of four slots have poisons of their own. */
  lemma BanksHaveTheirPoison(idx: nat)
    ensures idx < 4 ==> SlotPoison(idx) == 0xa5
    ensures 4 <= idx < 8 ==> SlotPoison(idx) == 0x5a
  {
  }

  lemma FrameIsEven(w: u32, h: u32)
    ensures FrameBytes(w, h) % 2 == 0
  {
    MultipleOf16(AlignedUnits(w) * h * 3);
  }

  lemma MultipleOf16(x: nat)
    ensures 16 * x % 0x1_0000_0000_0000_0000 / 2 % 2 == 0
  {
    var y := 16 * x;
    var q := y / 0x1_0000_0000_0000_0000;
    HalfIsEven(y % 0x1_0000_0000_0000_0000, 4 * x - 0x4000_0000_0000_0000 * q);
  }

  lemma HalfIsEven(y: nat, quarter: int)
    requires y == 4 * quarter
    ensures y / 2 % 2 == 0
  {
    var half := y / 2;
    assert half == 2 * quarter;
  }

  predicate Fits(frame: nat) { 4096 <= frame <= BUF_SIZE }

  function Luma(frame: nat): nat { frame / 3 * 2 }

  function Chroma(frame: nat): nat { (frame - Luma(frame)) / 2 }

  lemma PlanesFill(frame: nat)
    requires frame % 2 == 0
    ensures Luma(frame) + 2 * Chroma(frame) == frame
  {
  }

  // Where the layout keeps the byte that the card wrote at `off`.
  function Place(layout: Layout, frame: nat, off: nat): nat {
    var luma, csize := Luma(frame), Chroma(frame);
    if off < luma || layout == I420 then off
    else if off < luma + csize then
      if layout == Yv12 then off + csize else luma + 2 * (off - luma)
    else
      if layout == Yv12 then off - csize else luma + 2 * (off - luma - csize) + 1
  }

  /** The layouts permute the bytes of a frame. */
  lemma PlacePermutes(layout: Layout, frame: nat, a: nat, b: nat)
    requires frame % 2 == 0 && a < frame && b < frame
    ensures Place(layout, frame, a) < frame
    ensures Place(layout, frame, a) == Place(layout, frame, b) ==> a == b
  {
    PlanesFill(frame);
  }

  // The samples of a picture: luma, and the two chroma planes.
  datatype Sample = Y(i: nat) | U(i: nat) | V(i: nat)

  predicate IsSample(frame: nat, s: Sample) { s.i < if s.Y? then Luma(frame) else Chroma(frame) }

  // Where each format keeps them: I420 has its planes in the order Y, U, V; YV12 in the order
  // Y, V, U; NV12 keeps U and V by turns behind Y.
  function SampleAt(layout: Layout, frame: nat, s: Sample): nat {
    match s
    case Y(i) => i
    case U(i) =>
      (match layout
       case I420 => Luma(frame) + i
       case Yv12 => Luma(frame) + Chroma(frame) + i
       case Nv12 => Luma(frame) + 2 * i)
    case V(i) =>
      (match layout
       case I420 => Luma(frame) + Chroma(frame) + i
       case Yv12 => Luma(frame) + i
       case Nv12 => Luma(frame) + 2 * i + 1)
  }

  /** Every sample goes from where the card's I420 has it to where the chosen format has it. */
  lemma PlaceKeepsSamples(layout: Layout, frame: nat, s: Sample)
    requires IsSample(frame, s)
    ensures Place(layout, frame, SampleAt(I420, frame, s)) == SampleAt(layout, frame, s)
  {
  }

  function SentinelOffset(frame: nat, i: nat): nat
    requires i < 4 && 4 <= frame
  {
    match i
    case 0 => frame - 4
    case 1 => frame - frame / 16
    case 2 => frame - frame / 4
    case _ => frame / 2
  }

  /**
   The sentinels do not overlap.  One is the very last dword; the others lie half, three
   quarters and fifteen sixteenths into the frame.
   */
  lemma SentinelsSpread(frame: nat)
    requires 4096 <= frame
    ensures SentinelOffset(frame, 0) + 4 == frame && SentinelOffset(frame, 1) + 4 <= SentinelOffset(frame, 0)
    ensures 15 * frame <= 16 * SentinelOffset(frame, 1) < 15 * frame + 16
    ensures SentinelOffset(frame, 2) + 4 <= SentinelOffset(frame, 1)
    ensures 3 * frame <= 4 * SentinelOffset(frame, 2) < 3 * frame + 4
    ensures SentinelOffset(frame, 3) + 4 <= SentinelOffset(frame, 2)
    ensures frame - 1 <= 2 * SentinelOffset(frame, 3) <= frame
  {
  }

  predicate InSentinel(frame: nat, i: nat, off: nat)
    requires i < 4 && 4 <= frame
  {
    SentinelOffset(frame, i) <= off < SentinelOffset(frame, i) + 4
  }

  // One of the first `n` sentinels.
  predicate InFirst(frame: nat, n: nat, off: nat)
    requires n <= 4 <= frame
  {
    n > 0 && (InSentinel(frame, n - 1, off) || InFirst(frame, n - 1, off))
  }

  predicate IsSentinelByte(frame: nat, off: nat)
    requires 4 <= frame
  {
    InFirst(frame, 4, off)
  }

  lemma InSentinelIsSentinelByte(frame: nat, i: nat, off: nat)
    requires i < 4 <= frame && InSentinel(frame, i, off)
    ensures IsSentinelByte(frame, off)
  {
    assert InFirst(frame, i + 1, off);
    assert i < 2 ==> InFirst(frame, i + 2, off);
  }

  lemma SentinelsInside(frame: nat, i: nat)
    requires 64 <= frame && i < 4
    ensures SentinelOffset(frame, i) + 4 <= frame
  {
  }

  function DwordIn(s: seq<byte>, off: nat): u32
    requires off + 4 <= |s|
  {
    Le32(s[off], s[off + 1], s[off + 2], s[off + 3])
  }

  // Byte `b` of a dword.
  function ByteOf(w: u32, b: nat): byte
    requires b < 4
  {
    match b
    case 0 => w % 0x100
    case 1 => w / 0x100 % 0x100
    case 2 => w / 0x1_0000 % 0x100
    case _ => w / 0x100_0000 % 0x100
  }

  lemma Below(q: nat, high: nat, unit: nat)
    requires q < high
    ensures unit * q + unit <= unit * high
  {
    assert unit * (q + 1) <= unit * high;
  }

  // The digits above `unit`.
  lemma Shifted(low: nat, unit: nat, high: nat)
    requires low < unit
    ensures (low + unit * high) / unit == high
  {
    var q := (low + unit * high) / unit;
    assert unit * q <= low + unit * high < unit * q + unit;
    if q < high {
      Below(q, high, unit);
    } else if high < q {
      Below(high, q, unit);
    }
  }

  lemma ByteOfLe32(a: byte, b: byte, c: byte, d: byte)
    ensures var w := Le32(a, b, c, d);
            ByteOf(w, 0) == a && ByteOf(w, 1) == b && ByteOf(w, 2) == c && ByteOf(w, 3) == d
  {
    Shifted(a, 0x100, b + 0x100 * c + 0x1_0000 * d);
    Shifted(a + 0x100 * b, 0x1_0000, c + 0x100 * d);
    Shifted(a + 0x100 * b + 0x1_0000 * c, 0x100_0000, d);
    LowDigit(a, b + 0x100 * c + 0x1_0000 * d);
    LowDigit(b, c + 0x100 * d);
    LowDigit(c, d);
  }

  lemma LowDigit(low: byte, high: nat)
    ensures (low + 0x100 * high) % 0x100 == low
  {
  }

  function Sentinel(s: seq<byte>, frame: nat, i: nat): u32
    requires 64 <= frame <= |s| && i < 4
  {
    SentinelsInside(frame, i);
    DwordIn(s, SentinelOffset(frame, i))
  }

  // Every sentinel dword has been overwritten.
  predicate Landed(s: seq<byte>, frame: nat, poison: byte)
    requires 64 <= frame <= |s|
  {
    && Sentinel(s, frame, 0) != PoisonWord(poison) && Sentinel(s, frame, 1) != PoisonWord(poison)
    && Sentinel(s, frame, 2) != PoisonWord(poison) && Sentinel(s, frame, 3) != PoisonWord(poison)
  }

  // `t` is `s` with every sentinel byte poisoned.
  ghost predicate IsPoisoned(s: seq<byte>, t: seq<byte>, frame: nat, poison: byte)
    requires 4 <= frame
  {
    && |t| == |s|
    && forall k :: 0 <= k < |s| ==> t[k] == if IsSentinelByte(frame, k) then poison else s[k]
  }

  lemma PoisonedIsNotLanded(s: seq<byte>, t: seq<byte>, frame: nat, poison: byte)
    requires 64 <= frame <= |s| && IsPoisoned(s, t, frame, poison)
    ensures !Landed(t, frame, poison)
  {
    PoisonedSentinel(s, t, frame, poison, 0);
  }

  // ----- The copy -----

  // `src` is what the processor reads, byte by byte; the card may be writing meanwhile.
  method CopyRange(dst: array<byte>, at: nat, src: seq<byte>, from: nat, n: nat)
    requires at + n <= dst.Length && from + n <= |src|
    modifies dst
    ensures forall k :: at <= k < at + n ==> dst[k] == src[from + (k - at)]
    ensures forall k :: 0 <= k < at || at + n <= k < dst.Length ==> dst[k] == old(dst[k])
  {
    var i := 0;
    while i < n
      invariant i <= n
      invariant forall k :: at <= k < at + i ==> dst[k] == src[from + (k - at)]
      invariant forall k :: 0 <= k < at || at + i <= k < dst.Length ==> dst[k] == old(dst[k])
    {
      dst[at + i] := src[from + i];
      i := i + 1;
    }
  }

  method Interleave(dst: array<byte>, at: nat, src: seq<byte>, u: nat, v: nat, n: nat)
    requires at + 2 * n <= dst.Length && u + n <= |src| && v + n <= |src|
    modifies dst
    ensures forall k :: 0 <= k < n ==> dst[at + 2 * k] == src[u + k] && dst[at + 2 * k + 1] == src[v + k]
    ensures forall k :: 0 <= k < at || at + 2 * n <= k < dst.Length ==> dst[k] == old(dst[k])
  {
    var i := 0;
    while i < n
      invariant i <= n
      invariant forall k :: 0 <= k < i ==> dst[at + 2 * k] == src[u + k] && dst[at + 2 * k + 1] == src[v + k]
      invariant forall k :: 0 <= k < at || at + 2 * i <= k < dst.Length ==> dst[k] == old(dst[k])
    {
      dst[at + 2 * i] := src[u + i];
      dst[at + 2 * i + 1] := src[v + i];
      i := i + 1;
    }
  }

  // Two neighbouring planes of `n` bytes each, the other way round.
  method Exchange(dst: array<byte>, at: nat, src: seq<byte>, n: nat)
    requires at + 2 * n <= dst.Length && at + 2 * n <= |src|
    modifies dst
    ensures forall k :: at <= k < at + n ==> dst[k] == src[k + n]
    ensures forall k :: at + n <= k < at + 2 * n ==> dst[k] == src[k - n]
    ensures forall k :: 0 <= k < at || at + 2 * n <= k < dst.Length ==> dst[k] == old(dst[k])
  {
    CopyRange(dst, at, src, at + n, n);
    CopyRange(dst, at + n, src, at, n);
  }

  // `dst` holds `frame` bytes of `src`, re-ordered into the layout.
  ghost predicate Arranged(layout: Layout, frame: nat, src: seq<byte>, dst: seq<byte>)
    requires frame % 2 == 0 && frame <= |src| && frame <= |dst|
  {
    forall off :: 0 <= off < frame ==>
      Place(layout, frame, off) < frame && dst[Place(layout, frame, off)] == src[off]
  }

  lemma SameIsI420(frame: nat, src: seq<byte>, dst: seq<byte>)
    requires frame % 2 == 0 && frame <= |src| && frame <= |dst|
    requires forall k :: 0 <= k < frame ==> dst[k] == src[k]
    ensures Arranged(I420, frame, src, dst)
  {
  }

  // The two chroma planes exchanged.
  lemma ExchangedIsYv12(frame: nat, src: seq<byte>, dst: seq<byte>)
    requires frame % 2 == 0 && frame <= |src| && frame <= |dst|
    requires forall k :: 0 <= k < Luma(frame) ==> dst[k] == src[k]
    requires forall k :: Luma(frame) <= k < Luma(frame) + Chroma(frame) ==> dst[k] == src[k + Chroma(frame)]
    requires forall k :: Luma(frame) + Chroma(frame) <= k < frame ==> dst[k] == src[k - Chroma(frame)]
    ensures Arranged(Yv12, frame, src, dst)
  {
    PlanesFill(frame);
  }

  // The two chroma planes interleaved.
  lemma InterleavedIsNv12(frame: nat, src: seq<byte>, dst: seq<byte>)
    requires frame % 2 == 0 && frame <= |src| && frame <= |dst| && Luma(frame) + 2 * Chroma(frame) == frame
    requires forall k :: 0 <= k < Luma(frame) ==> dst[k] == src[k]
    requires forall k :: 0 <= k < Chroma(frame) ==>
               dst[Luma(frame) + 2 * k] == src[Luma(frame) + k] &&
               dst[Luma(frame) + 2 * k + 1] == src[Luma(frame) + Chroma(frame) + k]
    ensures Arranged(Nv12, frame, src, dst)
  {
    var luma, csize := Luma(frame), Chroma(frame);
    forall off | 0 <= off < frame
      ensures Place(Nv12, frame, off) < frame && dst[Place(Nv12, frame, off)] == src[off]
    {
      if luma <= off {
        var k := if off < luma + csize then off - luma else off - luma - csize;
        assert dst[luma + 2 * k] == src[luma + k] && dst[luma + 2 * k + 1] == src[luma + csize + k];
      }
    }
  }

  // Luma is in place; chroma follows, in the layout's order.
  method ChromaInOrder(dst: array<byte>, src: seq<byte>, frame: nat)
    requires frame % 2 == 0 && frame <= dst.Length && frame <= |src|
    requires forall k :: 0 <= k < Luma(frame) ==> dst[k] == src[k]
    modifies dst
    ensures Arranged(I420, frame, src, dst[..])
    ensures forall k :: frame <= k < dst.Length ==> dst[k] == old(dst[k])
  {
    var luma, csize := Luma(frame), Chroma(frame);
    PlanesFill(frame);
    CopyRange(dst, luma, src, luma, 2 * csize);
    SameIsI420(frame, src, dst[..]);
  }

  method ChromaExchanged(dst: array<byte>, src: seq<byte>, frame: nat)
    requires frame % 2 == 0 && frame <= dst.Length && frame <= |src|
    requires forall k :: 0 <= k < Luma(frame) ==> dst[k] == src[k]
    modifies dst
    ensures Arranged(Yv12, frame, src, dst[..])
    ensures forall k :: frame <= k < dst.Length ==> dst[k] == old(dst[k])
  {
    var luma, csize := Luma(frame), Chroma(frame);
    PlanesFill(frame);
    Exchange(dst, luma, src, csize);
    ExchangedIsYv12(frame, src, dst[..]);
  }

  method ChromaInterleaved(dst: array<byte>, src: seq<byte>, frame: nat)
    requires frame % 2 == 0 && frame <= dst.Length && frame <= |src|
    requires forall k :: 0 <= k < Luma(frame) ==> dst[k] == src[k]
    modifies dst
    ensures Arranged(Nv12, frame, src, dst[..])
    ensures forall k :: frame <= k < dst.Length ==> dst[k] == old(dst[k])
  {
    var luma, csize := Luma(frame), Chroma(frame);
    PlanesFill(frame);
    Interleave(dst, luma, src, luma, luma + csize, csize);
    InterleavedIsNv12(frame, src, dst[..]);
  }

  /** Copy a frame, re-ordering chroma into the chosen layout. */
  method CopyFrame(layout: Layout, dst: array<byte>, src: seq<byte>, frame: nat)
    requires frame % 2 == 0 && frame <= dst.Length && frame <= |src|
    modifies dst
    ensures Arranged(layout, frame, src, dst[..])
    ensures forall k :: frame <= k < dst.Length ==> dst[k] == old(dst[k])
  {
    PlanesFill(frame);
    CopyRange(dst, 0, src, 0, Luma(frame));
    match layout
    case Yv12 => ChromaExchanged(dst, src, frame);
    case Nv12 => ChromaInterleaved(dst, src, frame);
    case I420 => ChromaInOrder(dst, src, frame);
  }

  // ----- Saving, poisoning and restoring -----

  method SentinelSave(src: array<byte>, frame: nat) returns (saved: seq<u32>)
    requires 64 <= frame <= src.Length
    ensures |saved| == 4
    ensures forall i :: 0 <= i < 4 ==> saved[i] == Sentinel(src[..], frame, i)
  {
    saved := [];
    var i := 0;
    while i < 4
      invariant i == |saved| <= 4
      invariant forall j :: 0 <= j < i ==> saved[j] == Sentinel(src[..], frame, j)
    {
      SentinelsInside(frame, i);
      saved := saved + [DwordIn(src[..], SentinelOffset(frame, i))];
      i := i + 1;
    }
  }

  method WriteDword(a: array<byte>, off: nat, w: u32)
    requires off + 4 <= a.Length
    modifies a
    ensures forall k :: 0 <= k < a.Length ==>
              a[k] == if off <= k < off + 4 then ByteOf(w, k - off) else old(a[k])
  {
    a[off] := ByteOf(w, 0);
    a[off + 1] := ByteOf(w, 1);
    a[off + 2] := ByteOf(w, 2);
    a[off + 3] := ByteOf(w, 3);
  }

  lemma PoisonBytes(poison: byte)
    ensures forall b :: 0 <= b < 4 ==> ByteOf(PoisonWord(poison), b) == poison
  {
    ByteOfLe32(poison, poison, poison, poison);
    assert PoisonWord(poison) == Le32(poison, poison, poison, poison);
  }

  method SentinelRepoison(src: array<byte>, frame: nat, poison: byte)
    requires 64 <= frame <= src.Length
    modifies src
    ensures IsPoisoned(old(src[..]), src[..], frame, poison)
    ensures !Landed(src[..], frame, poison)
  {
    PoisonBytes(poison);
    var i := 0;
    while i < 4
      invariant i <= 4
      invariant forall k :: 0 <= k < src.Length ==>
                  src[k] == if InFirst(frame, i, k) then poison else old(src[k])
    {
      SentinelsInside(frame, i);
      WriteDword(src, SentinelOffset(frame, i), PoisonWord(poison));
      i := i + 1;
    }
    PoisonedIsNotLanded(old(src[..]), src[..], frame, poison);
  }

  lemma SentinelBytes(s: seq<byte>, frame: nat, i: nat)
    requires 64 <= frame <= |s| && i < 4
    ensures SentinelOffset(frame, i) + 4 <= frame
    ensures forall o :: 0 <= o < frame && InSentinel(frame, i, o) ==>
              ByteOf(Sentinel(s, frame, i), o - SentinelOffset(frame, i)) == s[o]
  {
    SentinelsInside(frame, i);
    var off := SentinelOffset(frame, i);
    ByteOfLe32(s[off], s[off + 1], s[off + 2], s[off + 3]);
  }

  lemma PlacesInside(layout: Layout, frame: nat)
    requires frame % 2 == 0
    ensures forall o :: 0 <= o < frame ==> Place(layout, frame, o) < frame
  {
    forall o | 0 <= o < frame ensures Place(layout, frame, o) < frame {
      PlacePermutes(layout, frame, o, o);
    }
  }

  lemma PlacesApart(layout: Layout, frame: nat, off: nat)
    requires frame % 2 == 0 && off < frame
    ensures forall o :: 0 <= o < frame && o != off ==> Place(layout, frame, o) != Place(layout, frame, off)
  {
    forall o | 0 <= o < frame && o != off
      ensures Place(layout, frame, o) != Place(layout, frame, off)
    {
      PlacePermutes(layout, frame, o, off);
    }
  }

  // Put one byte back where the chosen layout keeps it.
  method RestoreByte(layout: Layout, dst: array<byte>, frame: nat, off: nat, val: byte)
    requires frame % 2 == 0 && off < frame <= dst.Length
    modifies dst
    ensures Place(layout, frame, off) < frame && dst[Place(layout, frame, off)] == val
    ensures forall k :: 0 <= k < dst.Length && k != Place(layout, frame, off) ==> dst[k] == old(dst[k])
  {
    PlacePermutes(layout, frame, off, off);
    var luma, csize := Luma(frame), Chroma(frame);
    if off < luma || layout == I420 {
      dst[off] := val;
      return;
    }
    if off < luma + csize {
      var idx := off - luma;
      if layout == Yv12 {
        dst[luma + csize + idx] := val;
      } else {
        dst[luma + 2 * idx] := val;
      }
      return;
    }
    var idx := off - luma - csize;
    if layout == Yv12 {
      dst[luma + idx] := val;
    } else {
      dst[luma + 2 * idx + 1] := val;
    }
  }

  // Put one saved dword back, byte by byte.
  method RestoreDword(layout: Layout, dst: array<byte>, frame: nat, off: nat, w: u32)
    requires frame % 2 == 0 && off + 4 <= frame <= dst.Length
    modifies dst
    ensures forall o :: 0 <= o < frame ==> Place(layout, frame, o) < frame
    ensures forall o :: 0 <= o < frame ==>
              dst[Place(layout, frame, o)] ==
              if off <= o < off + 4 then ByteOf(w, o - off) else old(dst[Place(layout, frame, o)])
    ensures forall k :: frame <= k < dst.Length ==> dst[k] == old(dst[k])
  {
    PlacesInside(layout, frame);
    var b := 0;
    while b < 4
      invariant b <= 4
      invariant forall o :: 0 <= o < frame ==>
                  dst[Place(layout, frame, o)] ==
                  if off <= o < off + b then ByteOf(w, o - off) else old(dst[Place(layout, frame, o)])
      invariant forall k :: frame <= k < dst.Length ==> dst[k] == old(dst[k])
    {
      PlacesApart(layout, frame, off + b);
      RestoreByte(layout, dst, frame, off + b, ByteOf(w, b));
      b := b + 1;
    }
  }

  /** Undo the poison in the copy: the result is the frame as it was before poisoning. */
  method SentinelRestore(layout: Layout, dst: array<byte>, frame: nat, saved: seq<u32>, ghost orig: seq<byte>)
    requires frame % 2 == 0 && 64 <= frame <= dst.Length && frame <= |orig| && |saved| == 4
    requires forall i :: 0 <= i < 4 ==> saved[i] == Sentinel(orig, frame, i)
    requires Restored(layout, frame, 0, orig, dst[..])
    modifies dst
    ensures Arranged(layout, frame, orig, dst[..])
    ensures forall k :: frame <= k < dst.Length ==> dst[k] == old(dst[k])
  {
    PlacesInside(layout, frame);
    var i := 0;
    while i < 4
      invariant i <= 4
      invariant Restored(layout, frame, i, orig, dst[..])
      invariant forall k :: frame <= k < dst.Length ==> dst[k] == old(dst[k])
    {
      ghost var before := dst[..];
      SentinelBytes(orig, frame, i);
      RestoreDword(layout, dst, frame, SentinelOffset(frame, i), saved[i]);
      OneMoreRestored(layout, frame, i, orig, saved[i], before, dst[..]);
      i := i + 1;
    }
  }

  // The copy is right outside the sentinels, and in the first `n` of them.
  ghost predicate Restored(layout: Layout, frame: nat, n: nat, orig: seq<byte>, dst: seq<byte>)
    requires n <= 4 <= frame <= |orig|
  {
    forall o :: 0 <= o < frame && (!IsSentinelByte(frame, o) || InFirst(frame, n, o)) ==>
      Place(layout, frame, o) < |dst| && dst[Place(layout, frame, o)] == orig[o]
  }

  lemma OneMoreRestored(layout: Layout, frame: nat, i: nat, orig: seq<byte>, w: u32, before: seq<byte>, now: seq<byte>)
    requires i < 4 && 64 <= frame <= |orig| && frame <= |before| == |now|
    requires forall o :: 0 <= o < frame ==> Place(layout, frame, o) < frame
    requires Restored(layout, frame, i, orig, before)
    requires forall o :: 0 <= o < frame && InSentinel(frame, i, o) ==> ByteOf(w, o - SentinelOffset(frame, i)) == orig[o]
    requires forall o :: 0 <= o < frame ==>
               now[Place(layout, frame, o)] ==
               if InSentinel(frame, i, o) then ByteOf(w, o - SentinelOffset(frame, i))
               else before[Place(layout, frame, o)]
    ensures Restored(layout, frame, i + 1, orig, now)
  {
  }

  // ----- Delivery -----

  datatype Write = Write(at: nat, value: byte)

  // The slot after the card's writes, in order.
  function Written(s: seq<byte>, writes: seq<Write>): (t: seq<byte>)
    ensures |t| == |s|
    decreases |writes|
  {
    if writes == [] then s
    else
      var w := writes[0];
      Written(if w.at < |s| then s[w.at := w.value] else s, writes[1..])
  }

  method CardWrites(src: array<byte>, writes: seq<Write>)
    modifies src
    ensures src[..] == Written(old(src[..]), writes)
  {
    var i := 0;
    while i < |writes|
      invariant i <= |writes|
      invariant Written(old(src[..]), writes) == Written(src[..], writes[i..])
    {
      ghost var before := src[..];
      if writes[i].at < src.Length {
        src[writes[i].at] := writes[i].value;
        assert src[..] == before[writes[i].at := writes[i].value];
      }
      assert writes[i..][1..] == writes[i + 1..];
      i := i + 1;
    }
  }

  // The saved pixels in the sentinels, everything else as it now is.
  function Repaired(saved: seq<byte>, now: seq<byte>, frame: nat): (r: seq<byte>)
    requires 4 <= frame && |saved| == |now|
    ensures |r| == |now|
    ensures forall k :: 0 <= k < |now| ==> r[k] == if IsSentinelByte(frame, k) then saved[k] else now[k]
  {
    seq(|now|, k requires 0 <= k < |now| => if IsSentinelByte(frame, k) then saved[k] else now[k])
  }

  // `now` is `was` with its sentinels poisoned and then written to by the card.
  ghost predicate LeftBy(was: seq<byte>, now: seq<byte>, frame: nat, poison: byte, writes: seq<Write>)
    requires 4 <= frame
  {
    exists p :: IsPoisoned(was, p, frame, poison) && now == Written(p, writes)
  }

  /**
   What the copy reads while the card writes `during` into `s`: the byte at offset k is read
   after the first `when(k)` of the writes.
   */
  function Seen(s: seq<byte>, during: seq<Write>, when: nat -> nat): (r: seq<byte>)
    ensures |r| == |s|
  {
    seq(|s|, k requires 0 <= k < |s| => Written(s, Landing(during, when(k)))[k])
  }

  function Landing(during: seq<Write>, n: nat): seq<Write> {
    if n < |during| then during[..n] else during
  }

  // The picture handed over: what the copy read, with the saved pixels back in the sentinels.
  ghost predicate Delivers(layout: Layout, frame: nat, poison: byte, was: seq<byte>,
                           during: seq<Write>, when: nat -> nat, dst: seq<byte>)
    requires 4 <= frame <= |was| && frame % 2 == 0 && frame <= |dst|
  {
    exists p :: IsPoisoned(was, p, frame, poison)
      && Arranged(layout, frame, Repaired(was, Seen(p, during, when), frame), dst)
  }

  datatype Outcome = NotReady | Detached | NoBuffer | TooSmall | Torn | Delivered

  // Save, poison, copy, check and restore.
  method CopyOut(layout: Layout, src: array<byte>, frame: nat, poison: byte,
                 dst: array<byte>, during: seq<Write>, when: nat -> nat) returns (torn: bool)
    requires dst != src && frame % 2 == 0 && 64 <= frame <= dst.Length && frame <= src.Length
    modifies src, dst
    ensures torn <==> Landed(src[..], frame, poison)
    ensures LeftBy(old(src[..]), src[..], frame, poison, during)
    ensures during == [] ==> !torn
    ensures !torn ==> Delivers(layout, frame, poison, old(src[..]), during, when, dst[..])
  {
    var saved := SentinelSave(src, frame);
    SentinelRepoison(src, frame, poison);
    ghost var poisoned := src[..];
    var read := Seen(src[..], during, when);
    CardWrites(src, during);
    assert IsPoisoned(old(src[..]), poisoned, frame, poison) && src[..] == Written(poisoned, during);
    CopyFrame(layout, dst, read, frame);
    torn := Landed(src[..], frame, poison);
    if !torn {
      ghost var picture := Repaired(old(src[..]), read, frame);
      RepairedSentinels(old(src[..]), read, frame);
      SentinelRestore(layout, dst, frame, saved, picture);
    }
  }

  /**
   Deliver one slot.  `dst` is the plane of the first queued buffer, or null when none is
   queued; `during` is what the card writes between the re-poison and the second look at the
   sentinels, and `when` says how much of it precedes each byte's copy.
   */
  method DeliverSlot(layout: Layout, src: array<byte>, w: u32, h: u32, idx: nat, streaming: bool,
                     dst: array?<byte>, during: seq<Write>, when: nat -> nat) returns (o: Outcome)
    requires src.Length == BUF_SIZE && dst != src
    modifies src
    modifies if dst == null then {} else {dst}
    // Which outcome, and whether the slot may be taken again.
    ensures var frame := FrameBytes(w, h);
            var ready := Fits(frame) && Landed(old(src[..]), frame, SlotPoison(idx));
            && (o == NotReady <==> !ready)
            && (o == Detached <==> ready && !streaming)
            && (o == NoBuffer <==> ready && streaming && dst == null)
            && (o == TooSmall <==> ready && streaming && dst != null && dst.Length < frame)
    ensures o == NotReady ==> src[..] == old(src[..])
    ensures o != NotReady ==> Fits(FrameBytes(w, h))
    ensures o != NotReady ==> (o == Torn <==> Landed(src[..], FrameBytes(w, h), SlotPoison(idx)))
    ensures o == Detached || o == NoBuffer || o == TooSmall ==>
              && IsPoisoned(old(src[..]), src[..], FrameBytes(w, h), SlotPoison(idx))
              && LeftBy(old(src[..]), src[..], FrameBytes(w, h), SlotPoison(idx), [])
    ensures o == Torn || o == Delivered ==>
              LeftBy(old(src[..]), src[..], FrameBytes(w, h), SlotPoison(idx), during)
    ensures during == [] ==> o != Torn
    // What is delivered.
    ensures o == Delivered ==>
              && FrameBytes(w, h) % 2 == 0 && dst != null && FrameBytes(w, h) <= dst.Length
              && Delivers(layout, FrameBytes(w, h), SlotPoison(idx), old(src[..]), during, when, dst[..])
  {
    var frame, poison := FrameBytes(w, h), SlotPoison(idx);
    FrameIsEven(w, h);
    if frame < 4096 || frame > BUF_SIZE || !Landed(src[..], frame, poison) {
      return NotReady;
    }
    if !streaming {
      SentinelRepoison(src, frame, poison);
      return Detached;
    }
    if dst == null {
      SentinelRepoison(src, frame, poison);
      return NoBuffer;
    }
    if dst.Length < frame {
      SentinelRepoison(src, frame, poison);
      return TooSmall;
    }
    var torn := CopyOut(layout, src, frame, poison, dst, during, when);
    return if torn then Torn else Delivered;
  }

  // ----- What is delivered -----

  // Some write put `b` at offset `k`.
  predicate WroteAt(writes: seq<Write>, k: nat, b: byte) {
    exists j :: 0 <= j < |writes| && writes[j] == Write(k, b)
  }

  lemma {:induction false} WrittenByte(s: seq<byte>, writes: seq<Write>, k: nat)
    requires k < |s|
    ensures Written(s, writes)[k] == s[k] || WroteAt(writes, k, Written(s, writes)[k])
    decreases |writes|
  {
    if writes != [] {
      var w := writes[0];
      var t := if w.at < |s| then s[w.at := w.value] else s;
      WrittenByte(t, writes[1..], k);
      var b := Written(t, writes[1..])[k];
      if WroteAt(writes[1..], k, b) {
        var j :| 0 <= j < |writes| - 1 && writes[1..][j] == Write(k, b);
        assert writes[j + 1] == Write(k, b);
      } else if w.at == k {
        assert writes[0] == Write(k, b);
      }
    }
  }

  /**
   Every byte delivered is the frame's own, at the place its layout gives it, unless the card
   wrote another into that very offset while it was being copied.  No poison is delivered, and
   the sentinels always come out as they were.
   */
  lemma DeliveredBytes(layout: Layout, frame: nat, poison: byte, was: seq<byte>,
                       during: seq<Write>, when: nat -> nat, dst: seq<byte>, k: nat)
    requires 4 <= frame <= |was| && frame % 2 == 0 && k < frame <= |dst|
    requires Delivers(layout, frame, poison, was, during, when, dst)
    ensures Place(layout, frame, k) < frame
    ensures var b := dst[Place(layout, frame, k)];
            b == was[k] || (!IsSentinelByte(frame, k) && WroteAt(Landing(during, when(k)), k, b))
  {
    var p :| IsPoisoned(was, p, frame, poison) && Arranged(layout, frame, Repaired(was, Seen(p, during, when), frame), dst);
    WrittenByte(p, Landing(during, when(k)), k);
  }

  /** A quiet card: exactly the frame that was there. */
  lemma QuietDelivery(layout: Layout, frame: nat, poison: byte, was: seq<byte>, when: nat -> nat, dst: seq<byte>)
    requires 4 <= frame <= |was| && frame % 2 == 0 && frame <= |dst|
    requires Delivers(layout, frame, poison, was, [], when, dst)
    ensures Arranged(layout, frame, was, dst)
  {
    forall k | 0 <= k < frame
      ensures Place(layout, frame, k) < frame && dst[Place(layout, frame, k)] == was[k]
    {
      DeliveredBytes(layout, frame, poison, was, [], when, dst, k);
    }
  }

  lemma RepairedSentinels(saved: seq<byte>, now: seq<byte>, frame: nat)
    requires 64 <= frame <= |now| && |saved| == |now|
    ensures forall i :: 0 <= i < 4 ==> Sentinel(Repaired(saved, now, frame), frame, i) == Sentinel(saved, frame, i)
  {
    forall i | 0 <= i < 4
      ensures Sentinel(Repaired(saved, now, frame), frame, i) == Sentinel(saved, frame, i)
    {
      SentinelsInside(frame, i);
      var off := SentinelOffset(frame, i);
      InSentinelIsSentinelByte(frame, i, off);
      InSentinelIsSentinelByte(frame, i, off + 1);
      InSentinelIsSentinelByte(frame, i, off + 2);
      InSentinelIsSentinelByte(frame, i, off + 3);
    }
  }

  // ----- Taking a slot again -----

  predicate Hits(w: Write, frame: nat, i: nat)
    requires i < 4 && 4 <= frame
  {
    InSentinel(frame, i, w.at)
  }

  predicate HitBySome(writes: seq<Write>, frame: nat, i: nat)
    requires i < 4 && 4 <= frame
  {
    exists j :: 0 <= j < |writes| && Hits(writes[j], frame, i)
  }

  lemma {:induction false} UnhitSentinelStays(s: seq<byte>, writes: seq<Write>, frame: nat, i: nat)
    requires 64 <= frame <= |s| && i < 4
    requires !HitBySome(writes, frame, i)
    ensures Sentinel(Written(s, writes), frame, i) == Sentinel(s, frame, i)
    decreases |writes|
  {
    if writes != [] {
      SentinelsInside(frame, i);
      var w := writes[0];
      var t := if w.at < |s| then s[w.at := w.value] else s;
      assert !Hits(w, frame, i);
      assert Sentinel(t, frame, i) == Sentinel(s, frame, i);
      assert forall j :: 0 <= j < |writes| - 1 ==> writes[1..][j] == writes[j + 1];
      UnhitSentinelStays(t, writes[1..], frame, i);
    }
  }

  /**
   Once its sentinels are poisoned a slot is ready again only after the card has written
   into every one of them, whatever else it writes.
   */
  lemma ReadyAgainNeedsEverySentinel(s: seq<byte>, poisoned: seq<byte>, writes: seq<Write>, frame: nat, poison: byte)
    requires 64 <= frame <= |s| && IsPoisoned(s, poisoned, frame, poison)
    requires Landed(Written(poisoned, writes), frame, poison)
    ensures forall i :: 0 <= i < 4 ==> HitBySome(writes, frame, i)
  {
    forall i | 0 <= i < 4
      ensures HitBySome(writes, frame, i)
    {
      if !HitBySome(writes, frame, i) {
        UnhitSentinelStays(poisoned, writes, frame, i);
        PoisonedSentinel(s, poisoned, frame, poison, i);
      }
    }
  }

  lemma {:induction false} WrittenTwice(s: seq<byte>, a: seq<Write>, b: seq<Write>)
    ensures Written(Written(s, a), b) == Written(s, a + b)
    decreases |a|
  {
    if a == [] {
      assert a + b == b;
    } else {
      var t := if a[0].at < |s| then s[a[0].at := a[0].value] else s;
      WrittenTwice(t, a[1..], b);
      assert (a + b)[1..] == a[1..] + b;
    }
  }

  /**
   However a slot was left, delivered, torn or dropped: it is ready again only after the card
   has written into every sentinel, during the copy or later.
   */
  lemma TakenAgainNeedsEverySentinel(was: seq<byte>, now: seq<byte>, during: seq<Write>, later: seq<Write>,
                                     frame: nat, poison: byte)
    requires 64 <= frame <= |was| && LeftBy(was, now, frame, poison, during)
    requires |now| == |was| && Landed(Written(now, later), frame, poison)
    ensures forall i :: 0 <= i < 4 ==> HitBySome(during + later, frame, i)
  {
    var p :| IsPoisoned(was, p, frame, poison) && now == Written(p, during);
    WrittenTwice(p, during, later);
    ReadyAgainNeedsEverySentinel(was, p, during + later, frame, poison);
  }

  lemma PoisonedSentinel(s: seq<byte>, t: seq<byte>, frame: nat, poison: byte, i: nat)
    requires 64 <= frame <= |s| && IsPoisoned(s, t, frame, poison) && i < 4
    ensures Sentinel(t, frame, i) == PoisonWord(poison)
  {
    SentinelsInside(frame, i);
    var off := SentinelOffset(frame, i);
    InSentinelIsSentinelByte(frame, i, off);
    InSentinelIsSentinelByte(frame, i, off + 1);
    InSentinelIsSentinelByte(frame, i, off + 2);
    InSentinelIsSentinelByte(frame, i, off + 3);
  }
}

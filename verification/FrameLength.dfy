/**
 How many bytes did the card write?  A buffer is filled with one repeated byte before the
 card may use it, and the written length is read off the untouched suffix.
 */
module FrameLength {
  import opened Basics

  function PoisonWord(poison: byte): u32 { 0x0101_0101 * poison }

  function PoisonQword(poison: byte): int { 0x0101_0101_0101_0101 * poison }

  // The 64-bit view of two neighbouring dwords.
  function Qword(lo: u32, hi: u32): int { lo + 0x1_0000_0000 * hi }

  datatype Verdict = NoData | NoSpace | Bounded

  // The number of dwords up to and including the last one that is not poison.
  function Touched(dwords: seq<u32>, w: u32): (n: nat)
    ensures n <= |dwords|
    ensures n > 0 ==> dwords[n - 1] != w
    ensures forall i :: n <= i < |dwords| ==> dwords[i] == w
  {
    if dwords == [] then 0
    else if dwords[|dwords| - 1] != w then |dwords|
    else Touched(dwords[..|dwords| - 1], w)
  }

  lemma TouchedIs(dwords: seq<u32>, w: u32, n: nat)
    requires n <= |dwords| && (n > 0 ==> dwords[n - 1] != w)
    requires forall i :: n <= i < |dwords| ==> dwords[i] == w
    ensures Touched(dwords, w) == n
  {
  }

  function VerdictOf(n: nat, size: nat): Verdict {
    if n == 0 then NoData else if n == size then NoSpace else Bounded
  }

  /** The plain backward scan, one dword at a time. */
  method InferByDwords(dwords: array<u32>, w: u32) returns (verdict: Verdict, bytes: nat)
    ensures bytes == 4 * Touched(dwords[..], w)
    ensures verdict == VerdictOf(Touched(dwords[..], w), dwords.Length)
  {
    var i: nat := dwords.Length;
    while i > 0
      invariant i <= dwords.Length
      invariant forall k :: i <= k < dwords.Length ==> dwords[k] == w
    {
      if dwords[i - 1] == w {
        i := i - 1;
        continue;
      }
      TouchedIs(dwords[..], w, i);
      bytes := i * 4;
      if i == dwords.Length {
        return NoSpace, bytes;
      }
      return Bounded, bytes;
    }
    TouchedIs(dwords[..], w, 0);
    return NoData, 0;
  }

  /** The fast backward scan, two dwords at a time: the same verdict and the same length. */
  method InferByQwords(dwords: array<u32>, poison: byte) returns (verdict: Verdict, bytes: nat)
    requires dwords.Length % 2 == 0
    ensures bytes == 4 * Touched(dwords[..], PoisonWord(poison))
    ensures verdict == VerdictOf(Touched(dwords[..], PoisonWord(poison)), dwords.Length)
  {
    var w, q := PoisonWord(poison), PoisonQword(poison);
    var i: nat := dwords.Length / 2;
    while i > 0
      invariant i <= dwords.Length / 2
      invariant forall k :: 2 * i <= k < dwords.Length ==> dwords[k] == w
    {
      var dword := (i - 1) * 2;
      QwordIsPoison(dwords[dword], dwords[dword + 1], poison);
      if Qword(dwords[dword], dwords[dword + 1]) == q {
        i := i - 1;
        continue;
      }
      if dwords[dword + 1] != w {
        TouchedIs(dwords[..], w, dword + 2);
        bytes := (dword + 2) * 4;
      } else {
        TouchedIs(dwords[..], w, dword + 1);
        bytes := (dword + 1) * 4;
      }
      if bytes == dwords.Length * 4 {
        return NoSpace, bytes;
      }
      return Bounded, bytes;
    }
    TouchedIs(dwords[..], w, 0);
    return NoData, 0;
  }

  lemma QwordIsPoison(lo: u32, hi: u32, poison: byte)
    ensures Qword(lo, hi) == PoisonQword(poison) <==> lo == PoisonWord(poison) && hi == PoisonWord(poison)
  {
    SameQword(lo, hi, PoisonWord(poison));
  }

  lemma SameQword(lo: u32, hi: u32, w: u32)
    ensures Qword(lo, hi) == Qword(w, w) <==> lo == w && hi == w
  {
    if hi < w {
      assert 0x1_0000_0000 * hi <= 0x1_0000_0000 * w - 0x1_0000_0000;
    } else if hi > w {
      assert 0x1_0000_0000 * hi >= 0x1_0000_0000 * w + 0x1_0000_0000;
    }
  }

  // ----- What the scan says about a write -----

  // Four bytes as a little-endian dword.
  function Le32(a: byte, b: byte, c: byte, d: byte): u32 {
    a + 0x100 * b + 0x1_0000 * c + 0x100_0000 * d
  }

  // A buffer of `size` dwords after the card wrote `data` over the poison from the start.
  function ByteAt(data: seq<byte>, poison: byte, i: nat): byte {
    if i < |data| then data[i] else poison
  }

  function DwordOf(data: seq<byte>, poison: byte, k: nat): u32 {
    Le32(ByteAt(data, poison, 4 * k), ByteAt(data, poison, 4 * k + 1),
         ByteAt(data, poison, 4 * k + 2), ByteAt(data, poison, 4 * k + 3))
  }

  function AfterWrite(data: seq<byte>, poison: byte, size: nat): (d: seq<u32>)
    ensures |d| == size
    ensures forall k :: 0 <= k < size ==> d[k] == DwordOf(data, poison, k)
  {
    if size == 0 then [] else AfterWrite(data, poison, size - 1) + [DwordOf(data, poison, size - 1)]
  }

  function Dwords(bytes: nat): nat { (bytes + 3) / 4 }

  /**
   After any write from the start of the buffer the scan reports its length, rounded up to
   a dword, exactly when the last dword written differs from the poison; otherwise it
   reports less.
   */
  lemma WriteIsRecovered(data: seq<byte>, poison: byte, size: nat)
    requires |data| <= 4 * size
    ensures var n := Dwords(|data|);
            var touched := Touched(AfterWrite(data, poison, size), PoisonWord(poison));
            && touched <= n
            && (touched == n <==> n == 0 || DwordOf(data, poison, n - 1) != PoisonWord(poison))
  {
    var n := Dwords(|data|);
    var d := AfterWrite(data, poison, size);
    forall k | n <= k < size ensures d[k] == PoisonWord(poison) {
      assert ByteAt(data, poison, 4 * k) == poison;
    }
    var touched := Touched(d, PoisonWord(poison));
    assert touched <= n;
    if n > 0 && DwordOf(data, poison, n - 1) != PoisonWord(poison) {
      assert d[n - 1] != PoisonWord(poison);
    }
  }
}

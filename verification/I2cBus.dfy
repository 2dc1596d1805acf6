/**
 The bit-banged I2C master, judged by an independent bus monitor.

 A GPIO pin emulates an open-drain line: released by switching it to input, driven low by
 clearing its latch and switching it to output.  Every level the two wires take is
 recorded, and a monitor that knows nothing of the master decodes the record by the rules
 of the I2C-bus specification (UM10204, sections 3.1.3 to 3.1.6).
 */
module I2cBus {
  import opened Basics

  // ----- The monitor -----

  datatype Wire = Wire(sda: bool, scl: bool)

  // What the monitor reports; `ack` means SDA was low in the ninth clock.
  datatype Symbol = Start | RepeatedStart | Octet(value: byte, ack: bool) | Stop

  // `bit` is the level sampled at the last rising clock edge, if the clock is still high and
  // SDA has not moved since.
  datatype Monitor = Monitor(wire: Wire, busy: bool, bit: Option<bool>, bits: seq<bool>, out: seq<Symbol>)

  function ValueOf(bits: seq<bool>): nat {
    if bits == [] then 0 else 2 * ValueOf(bits[..|bits| - 1]) + (if bits[|bits| - 1] then 1 else 0)
  }

  lemma {:induction false} ValueBound(bits: seq<bool>)
    requires |bits| <= 8
    ensures ValueOf(bits) < Pow2(|bits|)
  {
    if bits != [] {
      ValueBound(bits[..|bits| - 1]);
    }
  }

  function Pow2(n: nat): (p: nat)
    ensures p >= 1
  {
    if n == 0 then 1 else 2 * Pow2(n - 1)
  }

  function EndBit(m: Monitor, b: bool): Monitor
    requires |m.bits| <= 8
  {
    if |m.bits| == 8 then
      ValueBound(m.bits);
      m.(bit := None, bits := [], out := m.out + [Octet(ValueOf(m.bits), !b)])
    else m.(bit := None, bits := m.bits + [b])
  }

  function Observe(m: Monitor, w: Wire): (n: Monitor)
    requires |m.bits| <= 8
    ensures |n.bits| <= 8
  {
    var m1 := m.(wire := w);
    if m.wire.scl && w.scl then
      if m.wire.sda && !w.sda then
        m1.(busy := true, bit := None, bits := [], out := m.out + [if m.busy then RepeatedStart else Start])
      else if !m.wire.sda && w.sda then
        m1.(busy := false, bit := None, bits := [], out := m.out + [Stop])
      else m1
    else if !m.wire.scl && w.scl then m1.(bit := Some(w.sda))
    else if m.wire.scl && !w.scl && m.busy && m.bit.Some? then EndBit(m1, m.bit.value)
    else m1.(bit := None)
  }

  // The monitor's view of a whole recording that starts on a free bus.
  function Watch(trace: seq<Wire>): (m: Monitor)
    requires trace != []
    ensures |m.bits| <= 8
  {
    if |trace| == 1 then Monitor(trace[0], false, None, [], [])
    else Observe(Watch(trace[..|trace| - 1]), trace[|trace| - 1])
  }

  // ----- The master -----

  datatype Pin = Pin(output: bool, latch: bool)

  // Bit `i` of a byte.
  function BitOf(b: byte, i: nat): bool
    requires i < 8
  {
    b / Pow2(i) % 2 == 1
  }

  // The `k` most significant bits, first one first.
  function TopBits(b: byte, k: nat): (bits: seq<bool>)
    requires k <= 8
    ensures |bits| == k
  {
    if k == 0 then [] else TopBits(b, k - 1) + [BitOf(b, 8 - k)]
  }

  lemma {:induction false} TopBitsValue(b: byte, k: nat)
    requires k <= 8
    ensures ValueOf(TopBits(b, k)) == b / Pow2(8 - k)
  {
    if k == 0 {
      assert Pow2(8) == 256;
    } else {
      TopBitsValue(b, k - 1);
      HalvesStep(b, 8 - k);
    }
  }

  lemma HalvesStep(b: byte, i: nat)
    requires i < 8
    ensures b / Pow2(i) == 2 * (b / Pow2(i + 1)) + (if BitOf(b, i) then 1 else 0)
  {
    assert Pow2(1) == 2 && Pow2(2) == 4 && Pow2(3) == 8 && Pow2(4) == 16;
    assert Pow2(5) == 32 && Pow2(6) == 64 && Pow2(7) == 128 && Pow2(8) == 256;
    if i == 0 { } else if i == 1 { } else if i == 2 { } else if i == 3 { }
    else if i == 4 { } else if i == 5 { } else if i == 6 { } else { }
  }

  // The ninth bit completes the octet.
  lemma OctetEnds(m: Monitor, value: byte, b: bool)
    requires m.bits == TopBits(value, 8)
    ensures EndBit(m, b) == m.(bit := None, bits := [], out := m.out + [Octet(value, !b)])
  {
    TopBitsValue(value, 8);
  }

  lemma WatchOne(trace: seq<Wire>, w: Wire)
    requires trace != []
    ensures Watch(trace + [w]) == Observe(Watch(trace), w)
  {
    assert (trace + [w])[..|trace|] == trace;
  }

  // Octets only: no START or STOP in between.
  predicate OctetsOnly(s: seq<Symbol>) {
    forall i :: 0 <= i < |s| ==> s[i].Octet?
  }

  predicate AddsOctetsOnly(before: seq<Symbol>, after: seq<Symbol>) {
    before <= after && OctetsOnly(after[|before|..])
  }

  // Calls the drivers' scan and EEPROM code make, with what the addressed device answers.
  datatype Op = DoStart | DoStop | DoWrite(value: byte, acked: bool) | DoRead(data: byte, ack: bool)

  // Transfers and STOP only between a START and a STOP.
  predicate Legal(ops: seq<Op>, held: bool) {
    ops == [] ||
    match ops[0]
    case DoStart => Legal(ops[1..], true)
    case DoStop => held && Legal(ops[1..], false)
    case _ => held && Legal(ops[1..], true)
  }

  function SymbolOf(op: Op, held: bool): Symbol {
    match op
    case DoStart => if held then RepeatedStart else Start
    case DoStop => Stop
    case DoWrite(value, acked) => Octet(value, acked)
    case DoRead(data, ack) => Octet(data, ack)
  }

  function SymbolsOf(ops: seq<Op>, held: bool): seq<Symbol> {
    if ops == [] then [] else [SymbolOf(ops[0], held)] + SymbolsOf(ops[1..], ops[0] != DoStop)
  }

  const MAILBOX_ERROR: int := -5

  class Master {
    // The module parameter and what the firmware really does: which direction bit is output.
    const dirInvert: bool
    const wiredInvert: bool
    // Which mailbox commands fail, and whether a failed one took effect all the same.
    const fails: nat -> bool
    const tookEffect: nat -> bool
    var sent: nat
    var sda: Pin
    var scl: Pin
    var slaveLow: bool     // the addressed device pulls SDA
    // Every level the wires took, and what the monitor makes of it.
    ghost var trace: seq<Wire>
    ghost var seen: Monitor

    function Levels(): Wire
      reads this
    {
      Wire((!sda.output || sda.latch) && !slaveLow, !scl.output || scl.latch)
    }

    // An error is the mailbox's: the last command sent is one that fails.
    predicate Blames(ret: int)
      reads this`sent
    {
      ret == MAILBOX_ERROR ==> sent > 0 && fails(sent - 1)
    }

    // Open-drain discipline, the right polarity, and a complete recording.
    ghost predicate Valid()
      reads this
    {
      && dirInvert == wiredInvert
      && (sda.output ==> !sda.latch) && (scl.output ==> !scl.latch)
      && trace != [] && seen == Watch(trace) && seen.wire == Levels()
    }

    // Bus free, both lines up.
    ghost predicate Free()
      reads this
    {
      Valid() && Levels() == Wire(true, true) && !seen.busy && seen.bits == []
    }

    // Inside a transaction, clock low, between octets.
    ghost predicate Held()
      reads this
    {
      Valid() && scl.output && !slaveLow && seen.busy && seen.bits == [] && seen.bit == None
    }

    constructor (dirInvert: bool, fails: nat -> bool, tookEffect: nat -> bool)
      ensures Free() && seen.out == []
    {
      this.dirInvert := dirInvert;
      this.wiredInvert := dirInvert;
      this.fails, this.tookEffect := fails, tookEffect;
      sent := 0;
      sda, scl, slaveLow := Pin(false, false), Pin(false, false), false;
      trace := [Wire(true, true)];
      seen := Monitor(Wire(true, true), false, None, [], []);
    }

    ghost method Record()
      requires trace != [] && seen == Watch(trace)
      modifies this`trace, this`seen
      ensures trace != [] && seen == Watch(trace) && seen == Observe(old(seen), Levels())
      ensures seen.wire == Levels()
    {
      WatchOne(trace, Levels());
      trace := trace + [Levels()];
      seen := Observe(seen, Levels());
    }

    // The device moves SDA; it may do so only while the clock is low.
    method DeviceDrives(low: bool)
      requires Valid() && !Levels().scl
      modifies this`slaveLow, this`trace, this`seen
      ensures Valid() && slaveLow == low
      ensures seen == old(seen).(wire := Levels(), bit := None)
    {
      slaveLow := low;
      Record();
    }

    // Set the direction of one pin (clock = SCL).
    method Direction(clock: bool, output: bool) returns (ret: int)
      requires Valid()
      requires output ==> !(if clock then scl.latch else sda.latch)
      modifies this`sent, this`sda, this`scl, this`trace, this`seen
      ensures Valid() && (ret == 0 || ret == MAILBOX_ERROR) && Blames(ret)
      ensures (if clock then sda else scl) == old(if clock then sda else scl)
      ensures (if clock then scl.latch else sda.latch) == old(if clock then scl.latch else sda.latch)
      ensures ret == 0 ==> (if clock then scl.output else sda.output) == output
      ensures Levels() == old(Levels()) || (if clock then scl.output else sda.output) == output
      ensures seen == Observe(old(seen), Levels())
    {
      var bit := if dirInvert then !output else output;
      ret := if fails(sent) then MAILBOX_ERROR else 0;
      if ret == 0 || tookEffect(sent) {
        var wired := if wiredInvert then !bit else bit;
        if clock { scl := scl.(output := wired); } else { sda := sda.(output := wired); }
      }
      sent := sent + 1;
      Record();
    }

    method Release(clock: bool) returns (ret: int)
      requires Valid()
      modifies this`sent, this`sda, this`scl, this`trace, this`seen
      ensures Valid() && (ret == 0 || ret == MAILBOX_ERROR) && Blames(ret)
      ensures (if clock then sda else scl) == old(if clock then sda else scl)
      ensures ret == 0 ==> !(if clock then scl.output else sda.output)
      ensures Levels() == old(Levels()) || !(if clock then scl.output else sda.output)
      ensures seen == Observe(old(seen), Levels())
    {
      ret := Direction(clock, false);
    }

    method DriveLow(clock: bool) returns (ret: int)
      requires Valid()
      modifies this`sent, this`sda, this`scl, this`trace, this`seen
      ensures Valid() && (ret == 0 || ret == MAILBOX_ERROR) && Blames(ret)
      ensures (if clock then sda else scl) == old(if clock then sda else scl)
      ensures ret == 0 ==> (if clock then scl.output else sda.output)
      ensures Levels() == old(Levels()) || (if clock then scl.output else sda.output)
      ensures seen == Observe(old(seen), Levels())
    {
      ret := if fails(sent) then MAILBOX_ERROR else 0;
      if ret == 0 || tookEffect(sent) {
        if clock { scl := scl.(latch := false); } else { sda := sda.(latch := false); }
      }
      sent := sent + 1;
      if ret != 0 {
        Record();
        return;
      }
      ret := Direction(clock, true);
    }

    /** START, or a repeated START when the bus is already held. */
    method SendStart() returns (ret: int)
      requires !slaveLow && (Free() || Held())
      modifies this`sent, this`sda, this`scl, this`trace, this`seen
      ensures Valid() && (ret == 0 || ret == MAILBOX_ERROR) && Blames(ret)
      ensures ret == 0 ==> Held()
      ensures ret == 0 ==> seen.out == old(seen.out) + [if old(seen.busy) then RepeatedStart else Start]
    {
      ret := Release(false);
      if ret != 0 { return; }
      ret := Release(true);
      if ret != 0 { return; }
      ret := DriveLow(false);
      if ret != 0 { return; }
      ret := DriveLow(true);
    }

    method SendStop() returns (ret: int)
      requires Held()
      modifies this`sent, this`sda, this`scl, this`trace, this`seen
      ensures Valid() && (ret == 0 || ret == MAILBOX_ERROR) && Blames(ret)
      ensures ret == 0 ==> Free() && !slaveLow && seen.out == old(seen.out) + [Stop]
    {
      ret := DriveLow(false);
      if ret != 0 { return; }
      ret := Release(true);
      if ret != 0 { return; }
      ret := Release(false);
    }

    // The clock is low inside a transaction and the device has let go of SDA.
    ghost predicate BetweenBits()
      reads this
    {
      Valid() && scl.output && !slaveLow && seen.busy && seen.bit == None
    }

    // One bit out; the monitor samples exactly that bit.
    method WriteBit(bit: bool) returns (ret: int)
      requires BetweenBits()
      modifies this`sent, this`sda, this`scl, this`trace, this`seen
      ensures Valid() && (ret == 0 || ret == MAILBOX_ERROR) && Blames(ret)
      ensures ret == 0 ==> BetweenBits() && seen == EndBit(old(seen), bit).(wire := Levels())
      ensures AddsOctetsOnly(old(seen.out), seen.out)
    {
      if bit {
        ret := Release(false);
      } else {
        ret := DriveLow(false);
      }
      if ret != 0 { return; }
      assert Levels().sda == bit && !Levels().scl;
      ret := Release(true);
      if ret != 0 { return; }
      assert Levels() == Wire(bit, true) && seen.bit == Some(bit);
      ret := DriveLow(true);
    }

    // Sample SDA.
    method ReadPin() returns (ret: int, bit: bool)
      modifies this`sent
      ensures (ret == 0 || ret == MAILBOX_ERROR) && Blames(ret)
      ensures ret == 0 ==> bit == Levels().sda
    {
      ret := if fails(sent) then MAILBOX_ERROR else 0;
      sent := sent + 1;
      bit := Levels().sda;
    }

    // The first half of a bit coming in: the device answers and the clock goes high.
    method Expose(answer: bool) returns (ret: int)
      requires BetweenBits()
      modifies this`sent, this`sda, this`scl, this`trace, this`seen, this`slaveLow
      ensures Valid() && (ret == 0 || ret == MAILBOX_ERROR) && Blames(ret)
      ensures slaveLow == !answer && seen.out == old(seen.out)
      ensures ret == 0 ==> Levels() == Wire(answer, true) && !sda.output && !scl.output
      ensures ret == 0 ==> seen == old(seen).(wire := Levels(), bit := Some(answer))
    {
      DeviceDrives(!answer);
      ret := Release(false);
      if ret != 0 { return; }
      ret := Release(true);
    }

    // One bit in: the device puts its answer on SDA while the clock is low, and lets go after.
    method ReadBit(answer: bool) returns (ret: int, bit: bool)
      requires BetweenBits()
      modifies this`sent, this`sda, this`scl, this`trace, this`seen, this`slaveLow
      ensures Valid() && (ret == 0 || ret == MAILBOX_ERROR) && Blames(ret)
      ensures ret == 0 ==> bit == answer
      ensures ret == 0 ==> BetweenBits() && seen == EndBit(old(seen), answer).(wire := Levels())
      ensures AddsOctetsOnly(old(seen.out), seen.out)
    {
      bit := false;
      ret := Expose(answer);
      if ret != 0 { return; }
      ret, bit := ReadPin();
      if ret != 0 { return; }
      ret := Conceal(answer);
    }

    // The second half: the clock goes low, which ends the bit, and the device lets go.
    method Conceal(answer: bool) returns (ret: int)
      requires Valid() && seen.busy && seen.bit == Some(answer) && seen.wire == Wire(answer, true)
      requires slaveLow == !answer && !sda.output && !scl.output
      modifies this`sent, this`sda, this`scl, this`trace, this`seen, this`slaveLow
      ensures Valid() && (ret == 0 || ret == MAILBOX_ERROR) && Blames(ret)
      ensures ret == 0 ==> BetweenBits() && seen == EndBit(old(seen), answer).(wire := Levels())
      ensures AddsOctetsOnly(old(seen.out), seen.out)
    {
      ret := DriveLow(true);
      if ret != 0 { return; }
      DeviceDrives(false);
    }

    // The eight data bits of an octet going out, most significant first.
    method WriteBits(value: byte) returns (ret: int)
      requires Held()
      modifies this`sent, this`sda, this`scl, this`trace, this`seen
      ensures Valid() && (ret == 0 || ret == MAILBOX_ERROR) && Blames(ret)
      ensures ret == 0 ==> BetweenBits() && seen.bits == TopBits(value, 8) && seen.out == old(seen.out)
      ensures AddsOctetsOnly(old(seen.out), seen.out)
    {
      ret := 0;
      var k := 0;
      while k < 8
        invariant k <= 8 && ret == 0 && BetweenBits()
        invariant seen.bits == TopBits(value, k) && seen.out == old(seen.out)
      {
        ret := WriteBit(BitOf(value, 7 - k));
        if ret != 0 { return; }
        k := k + 1;
      }
    }

    /** Eight bits, most significant first, then the device's acknowledge: 0 on ACK, 1 on NAK. */
    method WriteByte(value: byte, acked: bool) returns (ret: int)
      requires Held()
      modifies this`sent, this`sda, this`scl, this`trace, this`seen, this`slaveLow
      ensures Valid() && (ret == (if acked then 0 else 1) || ret == MAILBOX_ERROR) && Blames(ret)
      ensures ret != MAILBOX_ERROR ==> Held() && seen.out == old(seen.out) + [Octet(value, acked)]
      ensures AddsOctetsOnly(old(seen.out), seen.out)
    {
      ret := WriteBits(value);
      if ret != 0 { return; }
      OctetEnds(seen, value, !acked);
      var ack;
      ret, ack := ReadBit(!acked);
      if ret != 0 { return; }
      ret := if ack then 1 else 0;
    }

    // Data bit `k` of an octet coming in.
    method ReadNext(data: byte, k: nat, sofar: nat) returns (ret: int, value: nat)
      requires BetweenBits() && k < 8 && seen.bits == TopBits(data, k) && sofar == Front(data, k)
      modifies this`sent, this`sda, this`scl, this`trace, this`seen, this`slaveLow
      ensures Valid() && (ret == 0 || ret == MAILBOX_ERROR) && Blames(ret)
      ensures ret == 0 ==> value == Front(data, k + 1)
      ensures ret == 0 ==> BetweenBits() && seen.bits == TopBits(data, k + 1) && seen.out == old(seen.out)
      ensures AddsOctetsOnly(old(seen.out), seen.out)
    {
      var bit;
      ret, bit := ReadBit(BitOf(data, 7 - k));
      value := if bit then sofar + Pow2(7 - k) else sofar;
    }

    // The eight data bits of an octet coming in.
    method ReadBits(data: byte) returns (ret: int, value: nat)
      requires Held()
      modifies this`sent, this`sda, this`scl, this`trace, this`seen, this`slaveLow
      ensures Valid() && (ret == 0 || ret == MAILBOX_ERROR) && Blames(ret)
      ensures ret == 0 ==> value == data
      ensures ret == 0 ==> BetweenBits() && seen.bits == TopBits(data, 8)
      ensures ret == 0 ==> seen.out == old(seen.out)
      ensures AddsOctetsOnly(old(seen.out), seen.out)
    {
      ret, value := 0, 0;
      var k := 0;
      FrontIsValue(data, 8);
      TopBitsValue(data, 8);
      while k < 8
        invariant k <= 8 && ret == 0 && BetweenBits()
        invariant seen.bits == TopBits(data, k) && seen.out == old(seen.out)
        invariant value == Front(data, k)
      {
        ret, value := ReadNext(data, k, value);
        if ret != 0 { return; }
        k := k + 1;
      }
    }

    /** Eight bits in, most significant first, then the master's own acknowledge. */
    method ReadByte(data: byte, ack: bool) returns (ret: int, value: nat)
      requires Held()
      modifies this`sent, this`sda, this`scl, this`trace, this`seen, this`slaveLow
      ensures Valid() && (ret == 0 || ret == MAILBOX_ERROR) && Blames(ret)
      ensures ret == 0 ==> value == data
      ensures ret == 0 ==> Held() && seen.out == old(seen.out) + [Octet(data, ack)]
      ensures AddsOctetsOnly(old(seen.out), seen.out)
    {
      ret, value := ReadBits(data);
      if ret != 0 { return; }
      OctetEnds(seen, data, !ack);
      ret := WriteBit(!ack);
    }

    // One call of the drivers' scan and EEPROM code.
    method Call(op: Op) returns (ret: int)
      requires !slaveLow && (Free() || Held()) && Legal([op], seen.busy)
      modifies this`sent, this`sda, this`scl, this`trace, this`seen, this`slaveLow
      ensures Valid() && Blames(ret)
      ensures ret != MAILBOX_ERROR ==> !slaveLow && (Free() || Held()) && seen.busy == (op != DoStop)
      ensures ret != MAILBOX_ERROR ==> seen.out == old(seen.out) + [SymbolOf(op, old(seen.busy))]
    {
      match op {
        case DoStart => ret := SendStart();
        case DoStop => ret := SendStop();
        case DoWrite(value, acked) => ret := WriteByte(value, acked);
        case DoRead(data, ack) => var v; ret, v := ReadByte(data, ack);
      }
    }

    /**
     Any legal sequence of calls: if the mailbox accepts every command, all of them succeed and
     the monitor decodes exactly those STARTs, repeated STARTs, octets with their acknowledge,
     and STOPs.  The sequence stops early only at a command that the mailbox refuses.
     */
    method Run(ops: seq<Op>) returns (ok: bool)
      requires !slaveLow && (Free() || Held()) && Legal(ops, seen.busy)
      modifies this`sent, this`sda, this`scl, this`trace, this`seen, this`slaveLow
      ensures (forall n :: !fails(n)) ==> ok
      ensures !ok ==> sent > 0 && fails(sent - 1)
      ensures ok ==> Valid() && seen.out == old(seen.out) + SymbolsOf(ops, old(seen.busy))
    {
      ghost var expected := seen.out + SymbolsOf(ops, seen.busy);
      var i := 0;
      while i < |ops|
        invariant i <= |ops| && !slaveLow && (Free() || Held()) && Legal(ops[i..], seen.busy)
        invariant expected == seen.out + SymbolsOf(ops[i..], seen.busy)
      {
        ghost var out, busy := seen.out, seen.busy;
        LegalSplits(ops, i, busy);
        var ret := Call(ops[i]);
        if ret == MAILBOX_ERROR {
          return false;
        }
        SymbolsSplit(out, ops, i, busy);
        i := i + 1;
      }
      ok := true;
    }
  }

  lemma LegalSplits(ops: seq<Op>, i: nat, held: bool)
    requires i < |ops| && Legal(ops[i..], held)
    ensures Legal([ops[i]], held) && Legal(ops[i + 1..], ops[i] != DoStop)
  {
    assert ops[i..][1..] == ops[i + 1..];
  }

  lemma SymbolsSplit(out: seq<Symbol>, ops: seq<Op>, i: nat, held: bool)
    requires i < |ops|
    ensures out + SymbolsOf(ops[i..], held) ==
            (out + [SymbolOf(ops[i], held)]) + SymbolsOf(ops[i + 1..], ops[i] != DoStop)
  {
    assert ops[i..][1..] == ops[i + 1..];
  }

  // The first `k` bits of a byte, in place.
  function Front(b: byte, k: nat): nat
    requires k <= 8
  {
    if k == 0 then 0 else Front(b, k - 1) + (if BitOf(b, 8 - k) then Pow2(8 - k) else 0)
  }

  lemma {:induction false} FrontIsValue(b: byte, k: nat)
    requires k <= 8
    ensures Front(b, k) == ValueOf(TopBits(b, k)) * Pow2(8 - k)
  {
    if k > 0 {
      FrontIsValue(b, k - 1);
      Append(ValueOf(TopBits(b, k - 1)), Pow2(8 - k), BitOf(b, 8 - k));
      TopBitsAppend(b, k);
    }
  }

  lemma TopBitsAppend(b: byte, k: nat)
    requires 0 < k <= 8
    ensures ValueOf(TopBits(b, k)) == 2 * ValueOf(TopBits(b, k - 1)) + (if BitOf(b, 8 - k) then 1 else 0)
  {
    assert TopBits(b, k)[..k - 1] == TopBits(b, k - 1);
  }

  lemma Append(v: nat, p: nat, bit: bool)
    ensures v * (2 * p) + (if bit then p else 0) == (2 * v + (if bit then 1 else 0)) * p
  {
    assert v * (2 * p) == 2 * v * p;
  }
}

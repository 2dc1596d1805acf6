/**
 Starting and stopping the card's capture pipeline, and the stream lifecycle around it:
 STREAMON, STREAMOFF and the HDMI recovery pass.

 The card's answers, the receiver's answers and the clock are inputs.  Every command sent
 is recorded in `log`, and `answers` gives the card's reply to the n-th one.
 */
module Pipeline {
  import opened Basics
  import opened CardLog
  import opened StartScript
  import opened Recovery

  const PLACEHOLDER_WIDTH: nat := 1920
  const PLACEHOLDER_HEIGHT: nat := 1080

  const ENODEV: int := -19
  const EBUSY: int := -16
  const EPIPE: int := -32
  const ENOLCK: int := -37

  // Frames per second, rounded to the nearest whole number; `total` is the pixels of a whole
  // frame, blanking included.
  function SourceFps(pixelclock: nat, total: nat): nat {
    if total == 0 || pixelclock == 0 then 0
    else
      var fps := (pixelclock + total / 2) / total;
      if fps < 255 then fps else 255
  }

  /**
   Below the cap the rate is the nearest one, a tie going up; at the cap it is at least that.
   A source without a clock or without pixels has none.
   */
  lemma SourceFpsIsNearest(pixelclock: nat, total: nat)
    ensures total == 0 || pixelclock == 0 ==> SourceFps(pixelclock, total) == 0
    ensures total > 0 && pixelclock > 0 ==>
            var fps := SourceFps(pixelclock, total);
            && (fps < 255 ==> 2 * (fps * total) - total <= 2 * pixelclock < 2 * (fps * total) + total + total % 2)
            && (fps == 255 ==> 2 * pixelclock >= 2 * (255 * total) - total)
  {
    if total == 0 || pixelclock == 0 {
      return;
    }
    var q := (pixelclock + total / 2) / total;
    Quotient(pixelclock + total / 2, total);
    if q > 255 {
      QuotientBelow(255, total, q);
    }
  }

  // A receiver that is not there is one without lock.
  function ErrorOf(sight: Sight): int {
    if sight.error == ENODEV || sight.error == 0 then ENOLCK else sight.error
  }

  // One vb2 call, one recovery pass, or a format negotiated while detached.
  datatype Op =
    | On(sight: Sight)
    | Off
    | Monitor(sight: Sight, young: bool, silent: bool, leave: nat -> bool)
    | Negotiate(width: nat, height: nat, rawChanged: bool)

  function CountOn(ops: seq<Op>): nat {
    if ops == [] then 0 else CountOn(ops[..|ops| - 1]) + (if ops[|ops| - 1].On? then 1 else 0)
  }

  // The commands sent, and the driver's own count of SET_VICs among them.
  datatype Sent = Sent(log: Log, spawns: nat)

  // What has been switched on; `cycles` counts the starts that got as far as SET_VIC.
  datatype Card = Card(cycles: nat, aicArmed: bool, accepting: bool, poison: bool)

  // A running pipeline, or one whose deferred start failed, has heard nothing and stays so.
  predicate Undisturbed(log0: Log, pipe0: Pipe, log: Log, pipe: Pipe) {
    && (pipe0.running ==> pipe.running && log == log0 && pipe.source == pipe0.source && pipe.failed == pipe0.failed)
    && (!pipe0.running && pipe0.failed ==> pipe.failed && !pipe.running && log == log0)
  }

  class Device {
    const p: Params
    const answers: nat -> int
    const dmaArmed: bool
    const irqRequested: bool

    var sent: Sent
    var card: Card
    var pipe: Pipe
    var input: Input
    var link: Link
    // Negotiated capture geometry.
    var width: nat
    var height: nat

    // `sum` describes `log`; `sessionBase` counts the spawns before the latest STREAMON.
    ghost var sum: Summary
    ghost var sessionBase: nat

    constructor (p: Params, answers: nat -> int, dmaArmed: bool, irqRequested: bool, width: nat, height: nat)
      ensures Settled() && !link.streaming && sent.log == [] && this.p == p && this.answers == answers
      ensures this.dmaArmed == dmaArmed && this.irqRequested == irqRequested
      ensures !pipe.running && !pipe.failed && !pipe.replace
    {
      this.p, this.answers, this.dmaArmed, this.irqRequested := p, answers, dmaArmed, irqRequested;
      this.width, this.height := width, height;
      sent := Sent([], 0);
      card := Card(0, false, false, false);
      pipe := Pipe(false, false, false, 0, 0, NO_SIGNAL, 0);
      input := Input(false, NO_SIGNAL, NO_SIGNAL, None);
      link := Link(false, false, false, false, false);
      sum, sessionBase := Summary(0, 0, 0, false, true), 0;
    }

    // What dma_start is told the input is.
    function InputMode(): (m: Mode)
      reads this`input, this`width, this`height
      ensures IsWhole(input.source) ==> m == input.source
      ensures input.source == NO_SIGNAL && IsWhole(input.detected) ==> m == input.detected.(interlaced := false)
      ensures input.source == NO_SIGNAL == input.detected ==> m == Mode(width, height, 60, false)
    {
      var w := if input.source.width != 0 then input.source.width else input.detected.width;
      var h := if input.source.height != 0 then input.source.height else input.detected.height;
      Mode(if w != 0 then w else width, if h != 0 then h else height,
           if input.source.fps != 0 then input.source.fps else if input.detected.fps != 0 then input.detected.fps else 60,
           input.source.interlaced)
    }

    // `sum` describes the record, and the record is sound.
    ghost predicate LogValid()
      reads this`sent, this`sum
    {
      sum == Summarize(sent.log) && sum.sound && sent.spawns == sum.spawns
    }

    // A running pipeline has buffers registered, the poison baseline and completions; without
    // one nothing is left spawned, accepted or poisoned.
    ghost predicate CardValid()
      reads this`sent, this`card, this`sum, this`pipe
    {
      && LogValid()
      && (if pipe.running then dmaArmed && sum.registered && card.accepting == irqRequested && card.poison
          else sum.unstopped == 0 && !card.accepting && !card.poison)
      && (card.accepting ==> irqRequested)
    }

    // The session has spawned at most once, and not at all while a deferred start is still due.
    ghost predicate Valid()
      reads this`sent, this`card, this`sum, this`pipe, this`sessionBase, this`link
    {
      && CardValid()
      && sessionBase <= sum.spawns <= sessionBase + 1
      && (link.streaming && !pipe.running && !pipe.failed ==> sum.spawns == sessionBase)
    }

    // Between vb2 operations: detached means that neither worker is at work.
    ghost predicate Settled()
      reads this
    {
      Valid() && (!link.streaming ==> !link.armed && !link.noSignal && !link.recovering)
    }

    predicate Matches(live: Mode)
      reads this
    {
      pipe.source == live
    }

    method Send(c: Command) returns (ret: int)
      requires LogValid()
      requires c == SetVic ==> sum.unstopped == 0
      requires c == StartStreaming ==> sum.registered
      modifies this`sent, this`sum
      ensures LogValid() && sum == Next(old(sum), c)
      ensures sent.log == old(sent.log) + [c] && ret == answers(|old(sent.log)|)
    {
      Appended(sent.log, c);
      ret := answers(|sent.log|);
      sent := sent.(log := sent.log + [c]);
      sum := Next(sum, c);
      if c == SetVic {
        sent := sent.(spawns := sent.spawns + 1);
      }
    }

    predicate SpawnDue()
      reads this`card
    {
      !(p.setvicOnce && card.cycles > 0)
    }

    predicate AicDue()
      reads this`card
    {
      p.aicOn && (p.aicEveryFrame || !card.aicArmed)
    }

    // The record a start begins with, and the commands it depends on.
    function Begun(): Log
      reads this`sent
    {
      sent.log + PreStop(p)
    }

    function Due(): Log
      reads this`card
    {
      Script(p, SpawnDue(), AicDue())
    }

    // Every command of a start begun behind `log` will be answered with 0.
    predicate StartAnswered(log: Log)
      reads this`card
    {
      var begun := |log| + |PreStop(p)|;
      AllZero(answers, begun, begun + DueCount(p, SpawnDue(), AicDue()))
    }

    // A start begun behind `log`, or now, would succeed.
    predicate CanStartBehind(log: Log)
      reads this`card
    {
      dmaArmed && StartAnswered(log)
    }

    predicate CanStart()
      reads this`sent, this`card
    {
      CanStartBehind(sent.log)
    }

    // A command that neither spawns nor stops nor registers nor kicks.
    method Configure(c: Command) returns (ret: int)
      requires LogValid() && (c == SetEnc || c == PostProc || c.SetAic?)
      modifies this`sent, this`sum
      ensures LogValid() && sum == old(sum)
      ensures sent.spawns == old(sent.spawns)
      ensures sent.log == old(sent.log) + [c] && ret == answers(|old(sent.log)|)
    {
      ret := Send(c);
    }

    // Before the spawn: stop whatever runs, and in the Windows order register buffers first.
    method Prepare() returns (ret: int)
      requires LogValid()
      modifies this`sent, this`sum
      ensures LogValid() && sum.spawns == old(sum.spawns) && sent.spawns == old(sent.spawns)
      ensures sum.stops == old(sum.stops) + (if p.winSeq then 1 else 0)
      ensures sum.unstopped == if p.winSeq then 0 else old(sum.unstopped)
      ensures Played(answers, old(Begun()), PrepareScript(p), sent.log, ret)
    {
      ret := 0;
      if p.winSeq {
        var ignored := Send(StopStreaming);
        if p.winBufsFirst {
          ret := Send(SetBuf);
        }
      }
    }

    // The encoder's two streams; the second only on request.
    method ConfigureEncoder() returns (ret: int)
      requires LogValid()
      modifies this`sent, this`sum
      ensures LogValid() && sum == old(sum) && sent.spawns == old(sent.spawns)
      ensures Played(answers, old(sent.log), EncoderScript(p), sent.log, ret)
    {
      PlayedOne(answers, sent.log, SetEnc);
      ret := Configure(SetEnc);
      if ret != 0 {
        Halted(answers, old(sent.log), [SetEnc], [SetEnc], sent.log, ret);
        return;
      }
      if p.encSub {
        ghost var middle := sent.log;
        PlayedOne(answers, sent.log, SetEnc);
        ret := Configure(SetEnc);
        PlayedOn(answers, old(sent.log), [SetEnc], middle, [SetEnc], sent.log, ret);
      }
    }

    // After the spawn: buffers registered again, the encoder configured.
    method Register() returns (ret: int)
      requires LogValid()
      modifies this`sent, this`sum
      ensures LogValid() && SameButBuffers(old(sum), sum) && sent.spawns == old(sent.spawns)
      ensures ret == 0 ==> sum.registered
      ensures Played(answers, old(sent.log), RegisterScript(p), sent.log, ret)
    {
      PlayedOne(answers, sent.log, SetBuf);
      if p.winSeq && p.winBufsFirst {
        ret := Send(SetBuf);
        if ret != 0 { return; }
      }
      if !p.winSeq {
        ret := ConfigureEncoder();
        if ret != 0 {
          Halted(answers, old(sent.log), EncoderScript(p), [SetBuf], sent.log, ret);
          return;
        }
      }
      ret := 0;
      if !p.winSeq || !p.winBufsFirst {
        ghost var middle := sent.log;
        PlayedOne(answers, middle, SetBuf);
        ret := Send(SetBuf);
        if !p.winSeq {
          PlayedOn(answers, old(sent.log), EncoderScript(p), middle, [SetBuf], sent.log, ret);
        }
      }
    }

    // The encoder and preview commands behind the audio gate.
    method Tail() returns (ret: int)
      requires LogValid()
      modifies this`sent, this`sum
      ensures LogValid() && sum == old(sum) && sent.spawns == old(sent.spawns)
      ensures Played(answers, old(sent.log), TailScript(p), sent.log, ret)
    {
      ret := 0;
      if p.winSeq {
        ret := ConfigureEncoder();
        if ret != 0 {
          Halted(answers, old(sent.log), EncoderScript(p), [PostProc], sent.log, ret);
          return;
        }
        ghost var middle := sent.log;
        ret := Configure(PostProc);
        PlayedOn(answers, old(sent.log), EncoderScript(p), middle, [PostProc], sent.log, ret);
      } else if p.postProc {
        ret := Configure(PostProc);
      }
    }

    // The same, and the kick, which the Windows order can do without.
    method Kick() returns (ret: int)
      requires LogValid() && sum.registered
      modifies this`sent, this`sum
      ensures LogValid() && sum.registered && SameButBuffers(old(sum), sum) && sent.spawns == old(sent.spawns)
      ensures Played(answers, old(sent.log), KickScript(p), sent.log, ret)
    {
      ret := Tail();
      if ret != 0 {
        Halted(answers, old(sent.log), TailScript(p), [StartStreaming], sent.log, ret);
        return;
      }
      if !p.winSeq || p.winStartOp6 {
        ghost var middle := sent.log;
        PlayedOne(answers, middle, StartStreaming);
        ret := Send(StartStreaming);
        PlayedOn(answers, old(sent.log), TailScript(p), middle, [StartStreaming], sent.log, ret);
      }
    }

    method FlushEvents()
      modifies this`card
      ensures card == old(card).(accepting := old(card.accepting) && !irqRequested)
    {
      if irqRequested {
        card := card.(accepting := false);
      }
    }

    // Spawn the encoder unless `setvicOnce` spares it; `fired` also when the card did not answer.
    method Spawn() returns (ret: int, fired: bool)
      requires LogValid() && sum.unstopped == 0
      modifies this`sent, this`card, this`sum
      ensures LogValid() && fired == old(SpawnDue()) == !(p.setvicOnce && old(card.cycles) > 0)
      ensures Played(answers, old(sent.log), SpawnScript(old(SpawnDue())), sent.log, ret)
      ensures card == old(card).(cycles := old(card.cycles) + 1)
      ensures sum.stops == old(sum.stops)
      ensures sum.spawns == old(sum.spawns) + (if fired then 1 else 0)
      ensures sum.unstopped == if fired then 1 else 0
    {
      PlayedNone(answers, sent.log);
      PlayedOne(answers, sent.log, SetVic);
      ret, fired := 0, false;
      if !p.setvicOnce || card.cycles == 0 {
        fired := true;
        ret := Send(SetVic);
      }
      card := card.(cycles := card.cycles + 1);
    }

    // The poison baseline and completions, which are accepted only after a command of this very
    // start, whose record began at `began`; then the audio gate.
    method Gate(ghost began: nat) returns (ret: int, newlyArmed: bool)
      requires LogValid() && !card.accepting && |sent.log| > began
      modifies this`sent, this`card, this`sum
      ensures LogValid() && sum == old(sum)
      ensures card == old(card).(accepting := irqRequested, poison := true, aicArmed := old(card.aicArmed) || newlyArmed)
      ensures newlyArmed == (ret == 0 && old(AicDue()) && !old(card.aicArmed))
      ensures |sent.log| == |old(sent.log)| + Once(p.aicOn && (p.aicEveryFrame || !old(card.aicArmed)))
      ensures Played(answers, old(sent.log), AicScript(old(AicDue())), sent.log, ret)
    {
      PlayedNone(answers, sent.log);
      PlayedOne(answers, sent.log, SetAic(true));
      ret, newlyArmed := 0, false;
      card := card.(poison := true);
      if irqRequested {
        card := card.(accepting := true);
      }
      if p.aicOn && (p.aicEveryFrame || !card.aicArmed) {
        ret := Configure(SetAic(true));
        if ret != 0 { return; }
        newlyArmed := !card.aicArmed;
        card := card.(aicArmed := true);
      }
    }

    // Behind the spawn: buffers, gate, encoder and kick.
    method Launch(ghost began: nat) returns (ret: int, newlyArmed: bool)
      requires LogValid() && !card.accepting && |sent.log| >= began
      modifies this`sent, this`card, this`sum
      ensures LogValid() && SameButBuffers(old(sum), sum)
      ensures card.accepting ==> irqRequested && |sent.log| > began
      ensures card.aicArmed == (old(card.aicArmed) || newlyArmed) && card.cycles == old(card.cycles)
      ensures newlyArmed == (!old(card.aicArmed) && old(AicDue()) &&
                             |sent.log| - Once(ret != 0) > |old(sent.log)| + |RegisterScript(p)|)
      ensures ret == 0 ==> sum.registered && card.accepting == irqRequested && card.poison
      ensures ret == 0 && old(AicDue()) ==> card.aicArmed
      ensures Played(answers, old(sent.log), LaunchScript(p, old(AicDue())), sent.log, ret)
    {
      ghost var registers, gates := RegisterScript(p), AicScript(AicDue());
      newlyArmed := false;
      ret := Register();
      if ret != 0 {
        Halted(answers, old(sent.log), registers, gates, sent.log, ret);
        Halted(answers, old(sent.log), registers + gates, KickScript(p), sent.log, ret);
        return;
      }
      ghost var registered := sent.log;
      ret, newlyArmed := Gate(began);
      PlayedOn(answers, old(sent.log), registers, registered, gates, sent.log, ret);
      if ret != 0 {
        Halted(answers, old(sent.log), registers + gates, KickScript(p), sent.log, ret);
        return;
      }
      ghost var gated := sent.log;
      ret := Kick();
      PlayedOn(answers, old(sent.log), registers + gates, gated, KickScript(p), sent.log, ret);
    }

    // Buffers in the Windows order, and the spawn.
    method SpawnPrepared() returns (ret: int, fired: bool)
      requires LogValid() && sum.unstopped == 0
      modifies this`sent, this`card, this`sum
      ensures LogValid() && sum.stops == old(sum.stops) + (if p.winSeq then 1 else 0)
      ensures sum.spawns == old(sum.spawns) + (if fired then 1 else 0)
      ensures sum.unstopped == if fired then 1 else 0
      ensures card == old(card).(cycles := card.cycles)
      ensures ret == 0 ==> fired == old(SpawnDue()) && card.cycles == old(card.cycles) + 1
      ensures fired ==> old(SpawnDue()) && card.cycles == old(card.cycles) + 1
      ensures fired == (old(SpawnDue()) && |sent.log| > |old(Begun())| + |PrepareScript(p)|)
      ensures Played(answers, old(Begun()), PrepareScript(p) + SpawnScript(old(SpawnDue())), sent.log, ret)
    {
      fired := false;
      ghost var spawns := SpawnScript(SpawnDue());
      ret := Prepare();
      if ret != 0 {
        Halted(answers, old(Begun()), PrepareScript(p), spawns, sent.log, ret);
        return;
      }
      ghost var prepared := sent.log;
      ret, fired := Spawn();
      PlayedOn(answers, old(Begun()), PrepareScript(p), prepared, spawns, sent.log, ret);
    }

    // Everything from the pre-STOP to the kick; `fired` and `newlyArmed` say what to unwind.
    method Bringup() returns (ret: int, fired: bool, newlyArmed: bool)
      requires LogValid() && sum.unstopped == 0 && !card.accepting
      modifies this`sent, this`card, this`sum
      ensures LogValid() && (card.accepting ==> irqRequested && |sent.log| > |old(sent.log)|)
      ensures sum.stops == old(sum.stops) + (if p.winSeq then 1 else 0)
      ensures sum.spawns == old(sum.spawns) + (if fired then 1 else 0)
      ensures sum.unstopped == if fired then 1 else 0
      ensures card.aicArmed == (old(card.aicArmed) || newlyArmed) && (newlyArmed ==> !old(card.aicArmed))
      ensures ret == 0 ==> sum.registered && card.accepting == irqRequested && card.poison
      ensures fired == (old(SpawnDue()) && |sent.log| > |old(Begun())| + |PrepareScript(p)|)
      ensures newlyArmed == (!old(card.aicArmed) && old(AicDue()) &&
                             |sent.log| - Once(ret != 0) > |old(Begun())| + GateAt(p, old(SpawnDue())))
      ensures ret == 0 ==> card.aicArmed == (old(card.aicArmed) || old(AicDue())) && card.cycles == old(card.cycles) + 1
      ensures forall begun, due :: begun == old(Begun()) && due == old(Due()) ==>
                Played(answers, begun, due, sent.log, ret)
    {
      fired, newlyArmed := false, false;
      ghost var began := |sent.log|;
      ghost var spawns := PrepareScript(p) + SpawnScript(SpawnDue());
      ghost var launches := LaunchScript(p, AicDue());
      ret, fired := SpawnPrepared();
      if ret != 0 {
        Halted(answers, old(Begun()), spawns, launches, sent.log, ret);
        return;
      }
      ghost var spawned := sent.log;
      ret, newlyArmed := Launch(began);
      PlayedOn(answers, old(Begun()), spawns, spawned, launches, sent.log, ret);
    }

    /**
     The commands of a start, all of it or nothing.  It succeeds exactly when the card answers
     every command due with 0, and then all of them have been sent, in order.  Otherwise it is
     undone: audio armed as before, a STOP sent exactly when an encoder had been sent for, and
     completions and poison off.
     */
    method Attempt() returns (ret: int)
      requires LogValid() && sum.unstopped == 0 && !card.accepting
      modifies this`sent, this`card, this`sum
      ensures LogValid() && (ret == 0 <==> old(StartAnswered(sent.log)))
      ensures ret == 0 ==> EndsIn(sent.log, LastDue(p))
      ensures forall begun, due :: begun == old(Begun()) && due == old(Due()) ==>
                Recorded(answers, begun, due, old(card.aicArmed), sent.log, ret)
      ensures old(sum.spawns) <= sum.spawns <= old(sum.spawns) + 1
      ensures card.accepting ==> |sent.log| > |old(sent.log)|
      ensures sum.stops == old(sum.stops) + (if p.winSeq then 1 else 0) +
                           (if ret == 0 then 0 else sum.spawns - old(sum.spawns))
      ensures ret == 0 ==> sum.registered && sum.spawns == old(sum.spawns) + (if old(SpawnDue()) then 1 else 0)
      ensures ret == 0 ==> card == Card(old(card.cycles) + 1, old(card.aicArmed) || old(AicDue()), irqRequested, true)
      ensures ret != 0 ==> sum.unstopped == 0 && card == Card(card.cycles, old(card.aicArmed), false, false)
    {
      ghost var begun, due := Begun(), Due();
      var fired, newlyArmed;
      ret, fired, newlyArmed := Bringup();
      ghost var reached := sent.log;
      if ret != 0 {
        Unwind(fired, newlyArmed);
      }
      StartRecorded(answers, p, old(SpawnDue()), old(AicDue()), old(card.aicArmed), begun, due, reached, ret,
                    fired, newlyArmed, sent.log);
    }

    /**
     Start the pipeline, which only happens with completions refused; they are accepted only
     after a command of this start has been sent.  Failure leaves the pipeline state untouched.
     */
    method DmaStart() returns (ret: int)
      requires CardValid() && !pipe.running
      modifies this`sent, this`card, this`sum, this`pipe
      ensures CardValid()
      ensures old(sum.spawns) <= sum.spawns <= old(sum.spawns) + 1
      ensures !old(card.accepting) && (card.accepting ==> |sent.log| > |old(sent.log)|)
      ensures !dmaArmed ==> ret == ENODEV && sent.log == old(sent.log)
      ensures ret == 0 <==> old(CanStart())
      ensures ret == 0 ==> dmaArmed && EndsIn(sent.log, LastDue(p))
      ensures dmaArmed ==> forall begun, due :: begun == old(Begun()) && due == old(Due()) ==>
                Recorded(answers, begun, due, old(card.aicArmed), sent.log, ret)
      ensures ret == 0 ==>
                && pipe == Pipe(true, false, false, width, height, InputMode(), old(pipe.attachments) + 1)
                && card == Card(old(card.cycles) + 1, old(card.aicArmed) || old(AicDue()), irqRequested, true)
                && sum.registered && sum.stops == old(sum.stops) + (if p.winSeq then 1 else 0)
                && sum.spawns == old(sum.spawns) + (if old(SpawnDue()) then 1 else 0)
      ensures ret != 0 ==>
                && card.aicArmed == old(card.aicArmed) && pipe == old(pipe)
                && !card.accepting && !card.poison
      ensures ret != 0 && dmaArmed ==>
                sum.stops == old(sum.stops) + (if p.winSeq then 1 else 0) + (sum.spawns - old(sum.spawns))
    {
      if !dmaArmed {
        return ENODEV;
      }
      var mode := InputMode();
      ret := Attempt();
      if ret == 0 {
        Commit(mode);
      }
    }

    method Commit(mode: Mode)
      modifies this`pipe
      ensures pipe == Pipe(true, false, false, width, height, mode, old(pipe.attachments) + 1)
    {
      pipe := Pipe(true, false, false, width, height, mode, pipe.attachments + 1);
    }

    method Unwind(fired: bool, newlyArmed: bool)
      requires LogValid() && (card.accepting ==> irqRequested)
      modifies this`sent, this`card, this`sum
      ensures LogValid() && sent.spawns == old(sent.spawns) && sum.spawns == old(sum.spawns)
      ensures sent.log == old(sent.log) + UnwindScript(fired, newlyArmed)
      ensures sum.stops == old(sum.stops) + (if fired then 1 else 0)
      ensures sum.unstopped == if fired then 0 else old(sum.unstopped)
      ensures card.aicArmed == (old(card.aicArmed) && !newlyArmed) && !card.accepting && !card.poison
    {
      if fired {
        var ignored := Send(StopStreaming);
      }
      if newlyArmed {
        var ignored := Configure(SetAic(false));
        card := card.(aicArmed := false);
      }
      FlushEvents();
      card := card.(poison := false);
    }

    // ----- Signal bookkeeping -----

    method ForgetSignal()
      modifies this`input
      ensures input == Input(false, NO_SIGNAL, NO_SIGNAL, old(input.lastGood))
    {
      input := Input(false, NO_SIGNAL, NO_SIGNAL, input.lastGood);
    }

    method AdoptSignal(live: Mode)
      modifies this`input
      ensures input == Input(true, live, live, old(input.lastGood))
    {
      input := Input(true, live, live, input.lastGood);
    }

    // Measure the input; a young enough earlier answer may stand in for a measurement.
    method Query(sight: Sight, allowCache: bool) returns (ret: int, live: Mode)
      modifies this`input
      ensures var cached := allowCache && old(input.locked) && old(input.lastGood.Some?) && sight.queryFresh;
              && input == (if cached then old(input) else Queried(old(input), sight.measured))
              && (ret == 0 <==> cached || sight.measured.Some?)
      ensures live == input.detected && (ret == 0 ==> input.locked)
      ensures ret != 0 ==> ret == ErrorOf(sight)
    {
      if allowCache && input.locked && input.lastGood.Some? && sight.queryFresh {
        return 0, input.detected;
      }
      match sight.measured
      case None =>
        ForgetSignal();
        ret, live := if sight.error == ENODEV || sight.error == 0 then ENOLCK else sight.error, NO_SIGNAL;
      case Some(mode) =>
        AdoptSignal(mode);
        input := input.(lastGood := Some(mode));
        ret, live := 0, mode;
    }

    // ----- The placeholder and the monitor -----

    method NoSignalActivate()
      modifies this`link
      ensures link == old(link).(noSignal := true, waiting := true)
    {
      link := link.(noSignal := true);
      link := link.(waiting := true);
    }

    method RecoveryStart()
      modifies this`link
      ensures link == if p.hotplugRecovery then old(link).(waiting := true, armed := true) else old(link)
    {
      if p.hotplugRecovery {
        link := link.(waiting := true);
        link := link.(armed := true);
      }
    }

    method RecoveryStop()
      modifies this`link
      ensures link == Link(old(link.streaming), false, false, false, false)
    {
      link := Link(link.streaming, false, false, false, false);
    }

    method StopCard()
      requires CardValid()
      modifies this`pipe, this`sent, this`card, this`sum
      ensures CardValid() && pipe == old(pipe).(running := false) && sum.spawns == old(sum.spawns)
      ensures card == Card(old(card.cycles), old(card.aicArmed), false, false)
      ensures sent.log == if old(pipe.running) then old(sent.log) + [StopStreaming] else old(sent.log)
    {
      if dmaArmed && pipe.running {
        var ignored := Send(StopStreaming);
        pipe := pipe.(running := false);
      }
      FlushEvents();
      card := card.(poison := false);
    }

    /** Stop everything: one STOP exactly when a pipeline runs. */
    method DmaStop()
      requires Valid()
      modifies this`link, this`pipe, this`sent, this`card, this`sum
      ensures Settled() && link == Link(false, false, false, false, false) && pipe == old(pipe).(running := false)
      ensures card == Card(old(card.cycles), old(card.aicArmed), false, false)
      ensures sent.log == if old(pipe.running) then old(sent.log) + [StopStreaming] else old(sent.log)
      ensures sum.spawns == old(sum.spawns)
    {
      link := link.(streaming := false);
      RecoveryStop();
      StopCard();
    }

    // ----- STREAMON -----

    // Attach to the running pipeline: no command at all.
    method Attach() returns (ret: int)
      requires Settled() && !link.streaming && pipe.running && sessionBase == sum.spawns
      modifies this`link, this`pipe
      ensures Settled() && link.streaming == (ret == 0)
      ensures ret == if width == pipe.width && height == pipe.height then 0 else EBUSY
      ensures ret == 0 ==> link == Link(true, true, true, true, p.hotplugRecovery)
      ensures pipe == old(pipe).(attachments := pipe.attachments)
      ensures pipe.attachments == old(pipe.attachments) + (if ret == 0 then 1 else 0)
      ensures ret != 0 ==> link == old(link)
    {
      if width != pipe.width || height != pipe.height {
        return EBUSY;
      }
      link := link.(waiting := true);
      link := link.(streaming := true);
      pipe := pipe.(attachments := pipe.attachments + 1);
      link := link.(recovering := true);
      NoSignalActivate();
      RecoveryStart();
      ret := 0;
    }

    // The placeholder is one picture of one size, and showing it is an option.
    function PlaceholderRet(lockRet: int): (ret: int)
      reads this`width, this`height
      ensures lockRet != 0 ==> (ret == 0 <==> p.streamWithoutSignal && width == 1920 && height == 1080)
    {
      if !p.streamWithoutSignal then lockRet
      else if width != PLACEHOLDER_WIDTH || height != PLACEHOLDER_HEIGHT then EPIPE
      else 0
    }

    // Attach with no pipeline: the placeholder only, if its geometry is the negotiated one.
    method StartPlaceholderOnly(lockRet: int) returns (ret: int)
      requires Settled() && !link.streaming && !pipe.running && sessionBase == sum.spawns && lockRet != 0
      modifies this`input, this`pipe, this`link
      ensures Settled() && link.streaming == (ret == 0)
      ensures ret == PlaceholderRet(lockRet)
      ensures ret == 0 ==>
                && link == Link(true, false, true, true, p.hotplugRecovery) && input == Forgotten(old(input))
                && pipe == old(pipe).(replace := false, failed := false)
      ensures ret != 0 ==> link == old(link) && input == old(input) && pipe == old(pipe)
    {
      if !p.streamWithoutSignal {
        ret := lockRet;
      } else if width != PLACEHOLDER_WIDTH || height != PLACEHOLDER_HEIGHT {
        ret := EPIPE;
      } else {
        ForgetSignal();
        pipe := pipe.(replace := false, failed := false);
        link := link.(streaming := true);
        NoSignalActivate();
        RecoveryStart();
        ret := 0;
      }
    }

    // The geometry to arm with: measured, or remembered for a short while.
    method Locate(sight: Sight) returns (ret: int)
      modifies this`input
      ensures input == Located(old(input), sight)
      ensures ret == if IsLocated(old(input), sight) then 0 else ErrorOf(sight)
    {
      var live;
      ret, live := Query(sight, true);
      if ret != 0 && input.lastGood.Some? && sight.cacheFresh {
        AdoptSignal(input.lastGood.value);
        ret := 0;
      }
    }

    predicate GeometryRefused(): (r: bool)
      reads this
      ensures r ==> p.strictGeometry && (input.source.width != width || input.source.height != height)
      ensures !r && p.strictGeometry && input.locked && IsWhole(input.source) ==>
                input.source.width == width && input.source.height == height
    {
      p.strictGeometry && input.locked && input.source.width != 0 && input.source.height != 0 &&
      (input.source.width != width || input.source.height != height)
    }

    // Attach by starting the pipeline here and now.
    method StartPipeline() returns (ret: int)
      requires Settled() && !link.streaming && !pipe.running && sessionBase == sum.spawns && dmaArmed
      modifies this`sent, this`card, this`sum, this`pipe, this`link
      ensures Settled() && link.streaming == (ret == 0) && pipe.running == (ret == 0) && sum.stops >= old(sum.stops)
      ensures ret == 0 <==> old(CanStart())
      ensures ret == 0 ==> link == Link(true, false, old(link.noSignal), true, p.hotplugRecovery)
      ensures ret == 0 ==> pipe == Pipe(true, false, false, width, height, InputMode(), old(pipe.attachments) + 1)
    {
      link := link.(waiting := true);
      link := link.(streaming := true);
      ret := DmaStart();
      if ret != 0 {
        link := link.(streaming := false);
      } else {
        RecoveryStart();
      }
    }

    // The lock byte alone says that there is nothing to see.
    predicate IsDark(sight: Sight)
      reads {}
    {
      p.streamWithoutSignal && sight.lockRet == 0 && !sight.locked
    }

    // Attach without a running pipeline: look at the input, then start or show the placeholder.
    method StartDetached(sight: Sight) returns (ret: int)
      requires Settled() && !link.streaming && !pipe.running && sessionBase == sum.spawns && dmaArmed
      modifies this`sent, this`card, this`sum, this`pipe, this`link, this`input
      ensures Settled() && link.streaming == (ret == 0) && sum.stops >= old(sum.stops)
      ensures ret == 0 ==> link.waiting && link.armed == p.hotplugRecovery && (pipe.running || link.noSignal)
      ensures !pipe.running && ret == 0 ==> sent.log == old(sent.log)
      ensures IsDark(sight) ==> ret == PlaceholderRet(ENOLCK)
      ensures !IsDark(sight) && !IsLocated(old(input), sight) ==> ret == PlaceholderRet(ErrorOf(sight))
      ensures IsDark(sight) || !IsLocated(old(input), sight) ==> sent.log == old(sent.log) && !pipe.running
      ensures !IsDark(sight) && IsLocated(old(input), sight) ==>
                && input == Located(old(input), sight) && (pipe.running <==> ret == 0)
                && (ret == 0 <==> !GeometryRefused() && old(CanStart()))
                && (GeometryRefused() ==> ret == EPIPE && sent.log == old(sent.log))
      ensures pipe.running ==> ret == 0 && pipe.source == InputMode() && !pipe.replace && input.locked
    {
      if p.streamWithoutSignal && sight.lockRet == 0 && !sight.locked {
        ret := StartPlaceholderOnly(ENOLCK);
        return;
      }
      ret := Locate(sight);
      if ret != 0 {
        ret := StartPlaceholderOnly(ret);
        return;
      }
      if GeometryRefused() {
        return EPIPE;
      }
      ret := StartPipeline();
    }

    // The record behind the STOP that a pending replacement costs.
    function Cleared(): Log
      reads this`sent, this`pipe
    {
      if pipe.running then sent.log + [StopStreaming] else sent.log
    }

    // No pipeline, or one that is to be replaced, which is first stopped.
    method Reopen(sight: Sight) returns (ret: int)
      requires Settled() && !link.streaming && dmaArmed && sessionBase == sum.spawns && (pipe.running ==> pipe.replace)
      modifies this`sent, this`card, this`sum, this`pipe, this`link, this`input
      ensures Settled() && link.streaming == (ret == 0)
      ensures ret == 0 ==> link.waiting && link.armed == p.hotplugRecovery && (pipe.running || link.noSignal)
      ensures IsDark(sight) ==> ret == PlaceholderRet(ENOLCK)
      ensures !IsDark(sight) && !IsLocated(old(input), sight) ==> ret == PlaceholderRet(ErrorOf(sight))
      ensures !IsDark(sight) && IsLocated(old(input), sight) ==>
                && (pipe.running <==> ret == 0) && input == Located(old(input), sight)
                && (ret == 0 <==> !GeometryRefused() && old(CanStartBehind(Cleared())))
                && (GeometryRefused() ==> ret == EPIPE)
      ensures !pipe.running && (ret == 0 || IsDark(sight) || !IsLocated(old(input), sight)) ==> sent.log == old(Cleared())
      ensures pipe.running ==> ret == 0 && pipe.source == InputMode() && !pipe.replace
      ensures sum.stops >= old(sum.stops) + (if old(pipe.running) then 1 else 0)
    {
      if pipe.running {
        DmaStop();
      }
      ret := StartDetached(sight);
    }

    /**
     STREAMON.  A running pipeline that needs no replacement is attached to without a single
     command; one that does is first stopped, once.  Otherwise a pipeline is started exactly
     when there is a mode to start it with, of the negotiated geometry if that matters, and
     the card accepts every command.  Nothing spawns twice.
     */
    method StreamOn(sight: Sight) returns (ret: int)
      requires Settled() && !link.streaming
      modifies this`sent, this`card, this`sum, this`pipe, this`link, this`input, this`sessionBase
      ensures Settled() && link.streaming == (ret == 0) && sessionBase == old(sum.spawns)
      ensures ret == 0 ==> link.waiting && link.armed == p.hotplugRecovery && (pipe.running || link.noSignal)
      ensures !dmaArmed ==> ret == ENODEV && sent.log == old(sent.log) && pipe == old(pipe)
      ensures old(pipe.running) && !old(pipe.replace) ==>
                sent.log == old(sent.log) && pipe.running && (ret == 0 ==> link.recovering && link.noSignal) &&
                ret == if width == pipe.width && height == pipe.height then 0 else EBUSY
      ensures dmaArmed && (old(pipe.running) ==> old(pipe.replace)) ==>
                && (IsDark(sight) ==> ret == PlaceholderRet(ENOLCK))
                && (!IsDark(sight) && !IsLocated(old(input), sight) ==> ret == PlaceholderRet(ErrorOf(sight)))
                && (!IsDark(sight) && IsLocated(old(input), sight) ==>
                      && (pipe.running <==> ret == 0) && input == Located(old(input), sight)
                      && (ret == 0 <==> !GeometryRefused() && old(CanStartBehind(Cleared())))
                      && (GeometryRefused() ==> ret == EPIPE))
                && (!pipe.running && (ret == 0 || IsDark(sight) || !IsLocated(old(input), sight)) ==>
                      sent.log == old(Cleared()))
                && (pipe.running ==> ret == 0 && pipe.source == InputMode() && !pipe.replace)
      ensures old(pipe.running) && old(pipe.replace) ==> sum.stops > old(sum.stops)
    {
      sessionBase := sum.spawns;
      if !dmaArmed {
        return ENODEV;
      }
      if pipe.running && !pipe.replace {
        ret := Attach();
      } else {
        ret := Reopen(sight);
      }
    }

    /** STREAMOFF leaves the card alone: a running pipeline keeps running. */
    method StreamOff()
      requires Valid()
      modifies this`sent, this`card, this`sum, this`link, this`pipe
      ensures Settled() && link == Link(false, false, false, false, false)
      ensures pipe == old(pipe) && sent.log == old(sent.log)
    {
      link := link.(streaming := false);
      RecoveryStop();
      if !pipe.running {
        DmaStop();
      }
    }

    // ----- The HDMI recovery pass -----

    // `leave` says that STREAMOFF was published just before the look at `streaming`.

    // What a pass finds here and now.
    predicate Finds(s: Scene)
      reads this
    {
      && s.pipe == pipe && FlagsKept(s.link, link) && s.input == input
      && s.refused == Refused(s.sight.measured)
    }

    function Scenery(sight: Sight, young: bool, silent: bool): (s: Scene)
      reads this
      ensures Finds(s) && s.sight == sight && s.young == young && s.silent == silent && s.answered == CanStart()
    {
      Scene(pipe, link, input, sight, young, silent, Refused(sight.measured), CanStart())
    }

    predicate Refused(measured: Option<Mode>)
      reads this
    {
      p.strictGeometry && measured.Some? && (measured.value.width != width || measured.value.height != height)
    }

    // The deferred start itself, with the decoder held back until an IDR.
    method StartNow(live: Mode, leave: bool) returns (outcome: Outcome)
      requires Valid() && link.streaming && !pipe.running && !pipe.failed && input.source == live
      modifies this`sent, this`card, this`sum, this`pipe, this`link
      ensures Valid() && (outcome.Detached? <==> !link.streaming)
      ensures outcome == if leave then Detached else if old(CanStart()) then Started(live) else StartFailed
      ensures outcome.Started? || outcome.StartFailed? ==> link == old(link).(waiting := true, recovering := false)
      ensures outcome.StartFailed? ==> pipe == old(pipe).(failed := true)
      ensures outcome.Started? ==> pipe.running && !pipe.replace && !pipe.failed
      ensures outcome.Started? ==> pipe.attachments == old(pipe.attachments) + 1
      ensures outcome.Started? && IsWhole(live) ==> pipe.source == live
    {
      link := link.(waiting := true);
      var ret := DmaStart();
      if leave {
        link := link.(streaming := false);
        outcome := Detached;
      } else if ret != 0 {
        pipe, link := pipe.(failed := true), link.(recovering := false);
        outcome := StartFailed;
      } else {
        link := link.(recovering := false);
        outcome := Started(live);
      }
    }

    // A stable mode while no pipeline runs: start one, unless that is already known not to work.
    method DeferredStart(live: Mode, leave: bool) returns (outcome: Outcome)
      requires Valid() && link.streaming && !pipe.running && input.source == live
      modifies this`sent, this`card, this`sum, this`pipe, this`link
      ensures Valid() && (outcome.Detached? <==> !link.streaming)
      ensures outcome == Renegotiate <==> p.strictGeometry && (live.width != old(width) || live.height != old(height))
      ensures outcome ==
              if old(Refused(Some(live))) then Renegotiate
              else if old(pipe.failed) then GivenUp
              else if leave then Detached
              else if old(CanStart()) then Started(live)
              else StartFailed
      ensures outcome.Renegotiate? || outcome.GivenUp? ==>
                sent == old(sent) && pipe == old(pipe).(replace := outcome.Renegotiate? || old(pipe.replace))
      ensures outcome.Renegotiate? || outcome.GivenUp? ==> link == old(link).(recovering := false)
      ensures outcome.Started? || outcome.StartFailed? ==> link == old(link).(waiting := true, recovering := false)
      ensures outcome.StartFailed? ==> pipe == old(pipe).(failed := true)
      ensures outcome.Started? ==> pipe.running && !pipe.replace && !pipe.failed
      ensures outcome.Started? ==> pipe.attachments == old(pipe.attachments) + 1
      ensures outcome.Started? && IsWhole(live) ==> pipe.source == live
    {
      if p.strictGeometry && (live.width != width || live.height != height) {
        pipe, link := pipe.(replace := true), link.(recovering := false);
        outcome := Renegotiate;
      } else if pipe.failed {
        link := link.(recovering := false);
        outcome := GivenUp;
      } else {
        outcome := StartNow(live, leave);
      }
    }

    // The lock byte says no.
    method LoseLock()
      modifies this`input, this`link
      ensures link == old(link).(noSignal := true, waiting := true, recovering := true)
      ensures input == Forgotten(old(input))
    {
      ForgetSignal();
      NoSignalActivate();
      link := link.(recovering := true);
    }

    // The first half of a pass: is a measurement called for?
    method Watch(sight: Sight, young: bool, silent: bool, leave: bool, ghost s: Scene) returns (verdict: Outcome)
      requires link.streaming && Finds(s) && s.sight == sight && s.young == young && s.silent == silent
      modifies this`link, this`input
      ensures verdict == Seen(s, leave) && (verdict == Detached <==> !link.streaming)
      ensures Judged(s, pipe, link, input, verdict)
    {
      link := link.(armed := false);
      if pipe.running && young && !link.recovering && !pipe.replace {
        verdict := Healthy;
      } else if leave {
        link := link.(streaming := false);
        verdict := Detached;
      } else if sight.lockRet != 0 {
        verdict := ReadFailed;
      } else if !sight.locked {
        LoseLock();
        verdict := Unlocked;
      } else if pipe.running && silent && !link.recovering {
        NoSignalActivate();
        link := link.(recovering := true, waiting := true);
        verdict := Silent;
      } else if !link.recovering && (if pipe.running then !pipe.replace else pipe.failed || pipe.replace) {
        verdict := Healthy;
      } else {
        verdict := Asking;
      }
    }

    // A stable mode while the pipeline runs: latch or cancel the replacement.
    method Judge(live: Mode)
      modifies this`pipe, this`link
      ensures pipe == old(pipe).(replace := !Matches(live))
      ensures link == old(link).(recovering := false, waiting := Matches(live) || old(link.waiting))
    {
      if !Matches(live) {
        pipe, link := pipe.(replace := true), link.(recovering := false);
        return;
      }
      if pipe.replace {
        pipe := pipe.(replace := false);
      }
      link := link.(waiting := true);
      link := link.(recovering := false);
    }

    // On a stable measurement: judge the running pipeline, or start one.
    method Act(live: Mode, leave: bool, ghost s: Scene) returns (outcome: Outcome)
      requires Valid() && link.streaming && s.sight.measured == Some(live) && input == Queried(s.input, Some(live))
      requires Finds(s.(input := input)) && s.answered == CanStart()
      modifies this`sent, this`card, this`sum, this`pipe, this`link
      ensures Valid() && (outcome == Detached <==> !link.streaming)
      ensures Undisturbed(old(sent.log), old(pipe), sent.log, pipe)
      ensures outcome == Acted(s, false, leave) && Judged(s, pipe, link, input, outcome)
      ensures !outcome.Detached? && !outcome.Started? && !outcome.StartFailed? ==> sent.log == old(sent.log)
    {
      if pipe.running {
        Judge(live);
        outcome := Measured(live);
      } else {
        outcome := DeferredStart(live, leave);
      }
    }

    // A full measurement, and the look at `streaming` behind it.
    method Measure(sight: Sight, leave: bool, ghost s: Scene) returns (outcome: Outcome, live: Mode)
      requires link.streaming && Finds(s) && s.sight == sight
      modifies this`link, this`input
      ensures outcome == Detached <==> !link.streaming
      ensures outcome == if leave then Detached else if sight.measured == None then Unmeasured else Asking
      ensures outcome != Asking ==> Judged(s, pipe, link, input, outcome)
      ensures outcome == Asking ==> sight.measured == Some(live) && input == Queried(s.input, Some(live))
      ensures outcome == Asking ==> link == old(link)
    {
      var ret;
      ret, live := Query(sight, false);
      outcome := Asking;
      if leave {
        link := link.(streaming := false);
        outcome := Detached;
      } else if ret != 0 {
        outcome := Unmeasured;
      }
    }

    // The second half: measure, then act.
    method MeasureAndAct(sight: Sight, leave: nat -> bool, ghost s: Scene) returns (outcome: Outcome)
      requires Valid() && link.streaming && Finds(s) && s.sight == sight && s.answered == CanStart()
      modifies this`sent, this`card, this`sum, this`pipe, this`link, this`input
      ensures Valid() && (outcome == Detached <==> !link.streaming)
      ensures Undisturbed(old(sent.log), old(pipe), sent.log, pipe)
      ensures outcome == Acted(s, leave(2), leave(3)) && Judged(s, pipe, link, input, outcome)
      ensures !outcome.Detached? && !outcome.Started? && !outcome.StartFailed? ==> sent.log == old(sent.log)
    {
      var live;
      outcome, live := Measure(sight, leave(2), s);
      if outcome == Asking {
        outcome := Act(live, leave(3), s);
      }
    }

    // A pass by a worker that found the session still streaming.
    method Inspect(sight: Sight, young: bool, silent: bool, leave: nat -> bool, ghost s: Scene) returns (outcome: Outcome)
      requires Valid() && link.streaming && Finds(s) && s.sight == sight && s.young == young && s.silent == silent
      requires s.answered == CanStart()
      modifies this`sent, this`card, this`sum, this`pipe, this`link, this`input
      ensures Valid() && (outcome.Detached? <==> !link.streaming)
      ensures Undisturbed(old(sent.log), old(pipe), sent.log, pipe)
      ensures outcome == Decision(s, leave) && Judged(s, pipe, link, input, outcome)
      ensures !outcome.Detached? && !outcome.Started? && !outcome.StartFailed? ==> sent.log == old(sent.log)
    {
      outcome := Watch(sight, young, silent, leave(1), s);
      if outcome == Asking {
        outcome := MeasureAndAct(sight, leave, s);
      }
    }

    // The worker's last look at `streaming`: armed again if the session is still there.
    method Rearm(leave: bool)
      requires Valid()
      modifies this`link
      ensures Valid() && FlagsKept(old(link), link)
      ensures link.streaming == (old(link.streaming) && !leave) && link.armed == (old(link.armed) || link.streaming)
    {
      if leave {
        link := link.(streaming := false);
      }
      if link.streaming {
        link := link.(armed := true);
      }
    }

    // The same, and the worker armed again unless the session has gone.
    method Attend(sight: Sight, young: bool, silent: bool, leave: nat -> bool, ghost s: Scene) returns (outcome: Outcome)
      requires Valid() && link.streaming && Finds(s) && s.sight == sight && s.young == young && s.silent == silent
      requires s.answered == CanStart()
      modifies this`sent, this`card, this`sum, this`pipe, this`link, this`input
      ensures Valid() && (link.streaming <==> !outcome.Detached? && !leave(4)) && (link.streaming ==> link.armed)
      ensures Undisturbed(old(sent.log), old(pipe), sent.log, pipe)
      ensures outcome == Decision(s, leave) && Judged(s, pipe, link, input, outcome)
      ensures !outcome.Detached? && !outcome.Started? && !outcome.StartFailed? ==> sent.log == old(sent.log)
    {
      outcome := Inspect(sight, young, silent, leave, s);
      ghost var left := link;
      if !outcome.Detached? {
        Rearm(leave(4));
        JudgedAlike(s, pipe, left, link, input, outcome);
      }
    }

    /**
     One pass of the recovery worker.  `leave(k)` says whether STREAMOFF was published just
     before the pass's k-th look at `streaming`; `young` and `silent` are the two comparisons
     of the last access unit's age with the stall interval.  The outcome is the one the scene
     calls for, and leaves exactly what it says.
     */
    method Pass(sight: Sight, young: bool, silent: bool, leave: nat -> bool) returns (outcome: Outcome)
      requires Valid()
      modifies this`sent, this`card, this`sum, this`pipe, this`link, this`input
      ensures Valid() && (link.streaming ==> old(link.streaming) && !leave(0))
      ensures Undisturbed(old(sent.log), old(pipe), sent.log, pipe)
      ensures var s := old(Scenery(sight, young, silent));
              if !old(link.streaming) || leave(0) || !p.hotplugRecovery then
                && outcome == (if old(link.streaming) && !leave(0) then Disabled else Detached)
                && link == old(link).(streaming := old(link.streaming) && !leave(0), armed := false, recovering := false)
                && pipe == old(pipe) && input == old(input)
              else
                && outcome == Decision(s, leave) && Judged(s, pipe, link, input, outcome)
                && (link.streaming <==> !outcome.Detached? && !leave(4)) && (link.streaming ==> link.armed)
      ensures !outcome.Detached? && !outcome.Started? && !outcome.StartFailed? ==> sent.log == old(sent.log)
    {
      if !link.streaming || leave(0) || !p.hotplugRecovery {
        link := link.(streaming := link.streaming && !leave(0), armed := false, recovering := false);
        outcome := if link.streaming then Disabled else Detached;
      } else {
        outcome := Attend(sight, young, silent, leave, Scenery(sight, young, silent));
      }
    }

    // ----- Whole runs -----

    // Choosing another delivery format asks a running pipeline to be replaced.
    method Renegotiated(w: nat, h: nat, rawChanged: bool)
      requires Settled() && !link.streaming
      modifies this`width, this`height, this`pipe
      ensures Settled() && pipe == old(pipe).(replace := old(pipe.replace) || (rawChanged && old(pipe.running)))
      ensures width == w && height == h
    {
      width, height := w, h;
      if rawChanged && pipe.running {
        pipe := pipe.(replace := true);
      }
    }

    // A pass during which STREAMOFF was published is followed by the rest of STREAMOFF.
    method Step(op: Op)
      requires Settled()
      modifies this
      ensures Settled()
      ensures sum.spawns <= old(sum.spawns) || old(link.streaming) || op.On?
      ensures sessionBase == if op.On? && !old(link.streaming) then old(sum.spawns) else old(sessionBase)
      ensures !op.On? ==> (link.streaming ==> old(link.streaming))
      ensures !op.On? && old(pipe.running) ==> pipe.running && sent.log == old(sent.log)
      ensures !op.On? && !old(pipe.running) && old(pipe.failed) ==> !pipe.running && pipe.failed && sent.log == old(sent.log)
    {
      match op
      case On(sight) =>
        if !link.streaming {
          var ret := StreamOn(sight);
        }
      case Off =>
        if link.streaming {
          StreamOff();
        }
      case Monitor(sight, young, silent, leave) =>
        if link.armed {
          var outcome := Pass(sight, young, silent, leave);
          if !link.streaming {
            StreamOff();
          }
        }
      case Negotiate(w, h, rawChanged) =>
        if !link.streaming {
          Renegotiated(w, h, rawChanged);
        }
    }

    /**
     The spawn budget over every run from power-up: no session spawns more than one encoder,
     so there are never more spawns than STREAMONs, and no two spawned encoders ever lack a
     STOP together.  Between STREAMONs a running pipeline, or one whose deferred start
     failed, hears nothing.
     */
    method Run(ops: seq<Op>)
      requires Settled() && !link.streaming && sent.log == [] && sessionBase == 0
      modifies this
      ensures Settled()
      ensures sum.spawns <= CountOn(ops) && sum.spawns <= sessionBase + 1
    {
      for i := 0 to |ops|
        invariant Settled()
        invariant sum.spawns <= CountOn(ops[..i])
        invariant if CountOn(ops[..i]) == 0 then !link.streaming else sessionBase < CountOn(ops[..i])
      {
        assert ops[..i + 1][..i] == ops[..i];
        Step(ops[i]);
      }
      assert ops[..|ops|] == ops;
    }

    /** Without a STREAMON the card is left to itself once it runs, and once it has failed. */
    method RunDetachedOrSettled(ops: seq<Op>)
      requires Settled() && (pipe.running || pipe.failed)
      requires forall i :: 0 <= i < |ops| ==> !ops[i].On?
      modifies this
      ensures Settled() && sent.log == old(sent.log) && pipe.running == old(pipe.running)
    {
      for i := 0 to |ops|
        invariant Settled() && sent.log == old(sent.log) && pipe.running == old(pipe.running)
        invariant pipe.running || pipe.failed
      {
        Step(ops[i]);
      }
    }
  }

  /** In every reachable state, of all SET_VICs ever sent at most one has no STOP after it. */
  lemma OneEncoderAtATime(d: Device, i: nat, j: nat, n: nat)
    requires d.LogValid() && Lingers(d.sent.log, i, n) && Lingers(d.sent.log, j, n)
    ensures i == j
  {
    SoundMeansOneAtATime(d.sent.log, i, j, n);
  }

  // No spawn and no stop in between.
  predicate SameButBuffers(before: Summary, after: Summary) {
    after == before.(registered := after.registered)
  }
}

/**
 One pass of the HDMI recovery worker: which situation leads to which outcome, and what each
 outcome leaves behind.
 */
module Recovery {
  import opened Basics

  // A video mode; `fps` is the rounded frame rate.
  datatype Mode = Mode(width: nat, height: nat, fps: nat, interlaced: bool)

  const NO_SIGNAL: Mode := Mode(0, 0, 0, false)

  // Nothing in it has to be filled in from elsewhere.
  predicate IsWhole(m: Mode) { m.width != 0 && m.height != 0 && m.fps != 0 }

  // What the receiver and the clock answer during one operation: the lock byte, the full
  // measurement (a stable mode or an error), and whether the two caches are still young.
  datatype Sight = Sight(
    lockRet: int, locked: bool, measured: Option<Mode>, error: int, queryFresh: bool, cacheFresh: bool)

  // How a recovery pass ended.
  datatype Outcome =
    | Detached | Disabled | Healthy | ReadFailed | Unlocked | Silent | Unmeasured
    | Renegotiate | GivenUp | Started(live: Mode) | StartFailed
    | Measured(live: Mode)    // a stable measurement taken with the pipeline running
    | Asking                  // not an end: a full measurement is called for

  // The persistent pipeline; `replace` asks for its replacement, `failed` forbids a deferred start.
  datatype Pipe = Pipe(
    running: bool, replace: bool, failed: bool, width: nat, height: nat, source: Mode, attachments: nat)

  // What the receiver last said.
  datatype Input = Input(locked: bool, detected: Mode, source: Mode, lastGood: Option<Mode>)

  // The user-space attachment: its flags, and whether the recovery worker is armed.
  datatype Link = Link(streaming: bool, recovering: bool, noSignal: bool, waiting: bool, armed: bool)

  // What a pass finds.  `young` and `silent` compare the last access unit's age with the stall
  // interval; `refused`: the measured geometry is not the negotiated one, and that matters;
  // `answered`: a start would succeed.
  datatype Scene = Scene(
    pipe: Pipe, link: Link, input: Input, sight: Sight, young: bool, silent: bool, refused: bool, answered: bool)

  function Forgotten(input: Input): Input { Input(false, NO_SIGNAL, NO_SIGNAL, input.lastGood) }

  // What a full measurement leaves.
  function Queried(input: Input, measured: Option<Mode>): Input {
    match measured
    case None => Forgotten(input)
    case Some(mode) => Input(true, mode, mode, measured)
  }

  // A query that may use the cache needs no measurement.
  predicate IsCached(input: Input, sight: Sight) {
    input.locked && input.lastGood.Some? && sight.queryFresh
  }

  // The mode remembered from a while ago may still be armed with.
  predicate IsRemembered(input: Input, sight: Sight) {
    input.lastGood.Some? && sight.cacheFresh
  }

  // There is a mode to start with.
  predicate IsLocated(input: Input, sight: Sight) {
    IsCached(input, sight) || sight.measured.Some? || IsRemembered(input, sight)
  }

  // What is then taken to be connected: in this order.
  function Located(input: Input, sight: Sight): Input {
    if IsCached(input, sight) then input
    else if sight.measured.Some? then Queried(input, sight.measured)
    else if IsRemembered(input, sight) then Input(true, input.lastGood.value, input.lastGood.value, input.lastGood)
    else Forgotten(input)
  }

  /** A mode to start with is the cached one, else the measured one, else the one remembered. */
  lemma LocatedMode(input: Input, sight: Sight)
    ensures var found := Located(input, sight);
            && found.locked == IsLocated(input, sight)
            && (IsCached(input, sight) ==> found == input)
            && (!IsCached(input, sight) && sight.measured.Some? ==>
                  Some(found.source) == sight.measured == found.lastGood && found.detected == found.source)
            && (!IsCached(input, sight) && sight.measured == None ==> found.lastGood == input.lastGood)
            && (!IsCached(input, sight) && sight.measured == None && IsRemembered(input, sight) ==>
                  Some(found.source) == input.lastGood && found.detected == found.source)
            && (!found.locked ==> found.source == found.detected == NO_SIGNAL)
            && (!sight.queryFresh && sight.measured.Some? ==> Some(found.source) == sight.measured)
            && (!sight.queryFresh && !sight.cacheFresh ==> found.locked == sight.measured.Some?)
  {
  }

  // A live access unit is evidence enough.
  predicate Hurried(s: Scene) {
    s.pipe.running && s.young && !s.link.recovering && !s.pipe.replace
  }

  predicate Locked(s: Scene) { s.sight.lockRet == 0 && s.sight.locked }

  // The encoder produces nothing although the receiver shows lock.
  predicate Starved(s: Scene) {
    s.pipe.running && s.silent && !s.link.recovering
  }

  // Nothing is in doubt, or nothing can be done before user space acts.
  predicate Content(s: Scene) {
    !s.link.recovering && (if s.pipe.running then !s.pipe.replace else s.pipe.failed || s.pipe.replace)
  }

  // What the first half of a pass makes of the scene.  `gone` says that STREAMOFF was published
  // before its look at `streaming`.
  function Seen(s: Scene, gone: bool): Outcome {
    if Hurried(s) then Healthy
    else if gone then Detached
    else if s.sight.lockRet != 0 then ReadFailed
    else if !s.sight.locked then Unlocked
    else if Starved(s) then Silent
    else if Content(s) then Healthy
    else Asking
  }

  // What a measurement then leads to.  `gone`: STREAMOFF before the look behind it; `left`:
  // before the one behind a start.
  function Acted(s: Scene, gone: bool, left: bool): Outcome {
    if gone then Detached
    else if s.sight.measured == None then Unmeasured
    else if s.pipe.running then Measured(s.sight.measured.value)
    else if s.refused then Renegotiate
    else if s.pipe.failed then GivenUp
    else if left then Detached
    else if s.answered then Started(s.sight.measured.value)
    else StartFailed
  }

  function Decision(s: Scene, leave: nat -> bool): Outcome {
    if Seen(s, leave(1)) == Asking then Acted(s, leave(2), leave(3)) else Seen(s, leave(1))
  }

  // `recovering` has been settled, and nothing else.
  predicate Settled(link0: Link, link: Link) {
    link.noSignal == link0.noSignal && link.waiting == link0.waiting && !link.recovering
  }

  predicate FlagsKept(link0: Link, link: Link) {
    link.noSignal == link0.noSignal && link.waiting == link0.waiting && link.recovering == link0.recovering
  }

  predicate Alarmed(link: Link) { link.noSignal && link.waiting && link.recovering }

  // What an outcome leaves behind.
  predicate Judged(s: Scene, pipe: Pipe, link: Link, input: Input, o: Outcome) {
    match o
    case Disabled => Settled(s.link, link) && pipe == s.pipe && input == s.input
    case Healthy => FlagsKept(s.link, link) && pipe == s.pipe && input == s.input
    case ReadFailed => FlagsKept(s.link, link) && pipe == s.pipe && input == s.input
    case Unlocked => Alarmed(link) && pipe == s.pipe && input == Forgotten(s.input)
    case Silent => Alarmed(link) && pipe == s.pipe && input == s.input
    case Unmeasured => FlagsKept(s.link, link) && pipe == s.pipe && input == Forgotten(s.input)
    case Renegotiate =>
      Settled(s.link, link) && pipe == s.pipe.(replace := true) && input == Queried(s.input, s.sight.measured)
    case GivenUp => Settled(s.link, link) && pipe == s.pipe && input == Queried(s.input, s.sight.measured)
    case Started(live) =>
      && Settled(s.link.(waiting := true), link) && input == Queried(s.input, Some(live))
      && pipe.running && !pipe.replace && !pipe.failed && pipe.attachments == s.pipe.attachments + 1
      && (IsWhole(live) ==> pipe.source == live)
    case StartFailed =>
      && Settled(s.link.(waiting := true), link) && pipe == s.pipe.(failed := true)
      && input == Queried(s.input, s.sight.measured)
    // A replacement is pending exactly when the live mode is not the running one.
    case Measured(live) =>
      && Settled(s.link.(waiting := s.link.waiting || s.pipe.source == live), link)
      && pipe == s.pipe.(replace := s.pipe.source != live) && input == Queried(s.input, Some(live))
    case Asking => FlagsKept(s.link, link) && pipe == s.pipe && input == s.input
    case Detached =>
      (s.pipe.running ==> pipe == s.pipe) && (input == s.input || input == Queried(s.input, s.sight.measured))
  }

  // Arming the worker and detaching make no difference to that.
  lemma JudgedAlike(s: Scene, pipe: Pipe, link: Link, link': Link, input: Input, o: Outcome)
    requires Judged(s, pipe, link, input, o) && FlagsKept(link, link')
    ensures Judged(s, pipe, link', input, o)
  {
  }

  // With a running pipeline: the pass goes on to a full measurement.
  predicate Asks(s: Scene) {
    (s.link.recovering || s.pipe.replace) && Locked(s) && (s.link.recovering || !s.silent)
  }

  /** With a running pipeline a measurement decides exactly when it is asked for and succeeds. */
  lemma MeasuredWhenAsked(s: Scene, leave: nat -> bool)
    requires s.pipe.running
    ensures Decision(s, leave).Measured? <==> !leave(1) && !leave(2) && Asks(s) && s.sight.measured.Some?
  {
  }

  /**
   A lost lock is always noticed, and so is an encoder gone silent, unless a picture has just
   come; and it is only what has been found that is reported.
   */
  lemma ALostLockIsNoticed(s: Scene, leave: nat -> bool)
    requires !Hurried(s) && !leave(1)
    ensures Decision(s, leave) == ReadFailed <==> s.sight.lockRet != 0
    ensures Decision(s, leave) == Unlocked <==> s.sight.lockRet == 0 && !s.sight.locked
    ensures Decision(s, leave) == Silent <==> Locked(s) && s.pipe.running && s.silent && !s.link.recovering
    ensures Decision(s, leave) == Healthy <==>
              Locked(s) && !s.link.recovering &&
              if s.pipe.running then !s.silent && !s.pipe.replace else s.pipe.failed || s.pipe.replace
  {
  }

  // The first half has found a lock and no reason to stop.
  predicate GoesOn(s: Scene, leave: nat -> bool) {
    !Hurried(s) && !leave(1) && !leave(2) && Locked(s) && !Starved(s) && !Content(s)
  }

  /** Without a pipeline, a start is tried exactly when a fitting mode is measured and none has failed. */
  lemma StartedWhenItCan(s: Scene, leave: nat -> bool)
    requires !s.pipe.running
    ensures var o, fits := Decision(s, leave), GoesOn(s, leave) && s.sight.measured.Some? && !s.refused;
            && (o.Started? <==> fits && !s.pipe.failed && !leave(3) && s.answered)
            && (o == StartFailed <==> fits && !s.pipe.failed && !leave(3) && !s.answered)
            && (o == GivenUp <==> fits && s.pipe.failed)
            && (o == Renegotiate <==> GoesOn(s, leave) && s.sight.measured.Some? && s.refused)
            && (o == Unmeasured <==> GoesOn(s, leave) && s.sight.measured == None)
  {
  }
}

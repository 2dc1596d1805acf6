/**
 Delivery as interleaved atomic steps: who may hand a buffer to the application, and what.

 Five actors share the session's flags and the list of queued buffers: the application's
 STREAMON and STREAMOFF calls, the format ioctls, the drain that delivers live access units
 or raw frames, the placeholder replay, and the HDMI recovery worker.  Every step is one read
 or one write of a shared flag, or one critical section on the list.  What the receiver and
 the clock say arrives as arguments of the steps, and so may be anything.

 The format ioctls exclude each other but nothing else: they run under `lock`, STREAMON and
 QBUF under `queue_lock`, and the drain and the replay read the live flag under neither.
 */
module Delivery {

  // A live access unit by what it holds (an IDR, a dependent picture, no picture), or a raw frame.
  datatype Unit = Idr | Dependent | Bare | Raw

  datatype Kind = Live(u: Unit) | Placeholder

  // What the application is doing: detached, attaching in one of three ways, streaming, leaving.
  datatype App =
    | Closed | Opening | Replacing
    | Failed                               // a STREAMON that did not succeed
    | Attach1 | Attach2 | Attach3          // to a running pipeline
    | Fresh1 | Fresh2 | Fresh3 | FreshFail  // starting the pipeline
    | Solo1 | Solo2                        // with the placeholder only
    | Starting | On
    | Off1 | Off2 | Off3 | Off4 | Off5     // detaching

  // TRY_FMT overwrites the live flag and puts it back; S_FMT tests, commits and latches.
  datatype Ioctl = NoIoctl | Trying(saved: bool) | Committing | Latching

  // The delivery format: the flag the workers read, and what was last negotiated.
  datatype Node = Node(raw: bool, format: bool, ioctl: Ioctl)

  // Names say what has been done: `Checked` is past the first look at `streaming`.
  datatype Drain =
    | Resting
    | Picked(u: Unit) | Checked(u: Unit) | Locked(u: Unit)
    | Gate(u: Unit) | Stamping(u: Unit) | Deciding(u: Unit) | Accepted(u: Unit) | Taking(u: Unit)
    | Holding(u: Unit, b: nat) | Copied(u: Unit, b: nat) | Synced(u: Unit, b: nat)
    | Deactivating(u: Unit, b: nat) | Finishing(u: Unit, b: nat)

  datatype Replay = Quiet | Entered | SawStreaming | SawActive | Carrying(b: nat)

  datatype Worker = Asleep | Awake | Activating | Launching | Launched

  datatype Flags = Flags(
    streaming: bool, active: bool, waiting: bool,
    drainOn: bool,         // completions are accepted, so the drain may run
    monitorOn: bool,       // the recovery worker may run
    replaceOwed: bool)     // an S_FMT has asked for the running pipeline to be replaced

  // Buffers: `list` in the driver's hands, `returned` given back, tickets numbered from 0.
  datatype Buffers = Buffers(list: seq<nat>, returned: seq<nat>, next: nat)

  // History of a look at the live flag: it fell into a TRY_FMT window that asks for the other
  // format; S_FMTs have committed since, an odd number of times.
  datatype Look = Look(window: bool, stale: bool)

  // History of a hand-over: the format then negotiated, the look that chose what to deliver,
  // and whether the decoder had been cut off.
  datatype Entry = Entry(kind: Kind, format: bool, look: Look, severed: bool)

  // History of a session.
  datatype Session = Session(
    delivered: seq<Entry>,
    live: bool,         // the latest random-access point delivered is a live IDR
    straddled: bool,    // an S_FMT was between test and commit, or latch, when STREAMON decided
    misread: bool,      // a drain look that fell into a window led to a delivery attempt
    crossed: bool,      // a raw frame fitted a buffer and was copied into it
    severed: bool)      // no live reference, and a raw delivery has ended the placeholder mode

  datatype State = State(
    f: Flags, node: Node,
    app: App, drain: Drain, replay: Replay, worker: Worker,
    bufs: Buffers,
    // History.
    drainLook: Look, replayLook: Look,
    undercut: bool,     // STREAMOFF cleared the flag that was holding back the drain's picture
    session: Session)

  datatype IoctlOp = TryFmt(want: bool) | TryDone | FormatTest | Commit | Latch
  datatype OpenOp = Open | Refuse | Replace | Replaced | Attach | Fresh | Solo
  datatype OnOp = FreshFails | Monitor(enabled: bool) | StreamOff
  datatype QueueOp = Queue | CloseApp(stopCard: bool)
  datatype EntryOp = Pick(u: Unit) | Check | Lock | Recheck
  datatype GateOp = ReadActive(proven: bool) | Stamp(gap: bool) | Decide | Confirm
  datatype CopyOp = Take | Fit(fits: bool, torn: bool) | Finish
  datatype SettleOp = Sync | Prove(proven: bool) | Deactivate
  datatype ReplayOp = ReplayEnter | ReplayLook | ReplayActive
  datatype ReplayCopyOp = ReplayTake | ReplayDone(fits: bool)
  datatype WorkerOp = Wake | Activate | Activated | Await | SettleMode | Sleep
  datatype LaunchOp = Launch | Launching2 | LaunchFails | LaunchDone

  // `Advance` is the next straight-line step of STREAMON or STREAMOFF.
  datatype Step =
    | Advance
    | ByIoctl(IoctlOp)    // TRY_FMT and S_FMT
    | ByOpen(OpenOp)    // STREAMON up to its choice of a way to attach
    | ByOn(OnOp)    // STREAMON's end and STREAMOFF's beginning
    | ByQueue(QueueOp)    // QBUF, and giving the list back
    | ByEntry(EntryOp)    // the drain up to the delivery lock
    | ByGate(GateOp)    // the drain under the lock, up to the buffer
    | ByCopy(CopyOp)    // the drain with the list
    | BySettle(SettleOp)    // the drain between copy and hand-over
    | ByReplay(ReplayOp)    // the placeholder replay up to the buffer
    | ByReplayCopy(ReplayCopyOp)    // the replay with the list
    | ByWorker(WorkerOp)    // the recovery worker
    | ByLaunch(LaunchOp)    // the deferred start

  const NO_LOOK: Look := Look(false, false)

  const INIT: State :=
    State(Flags(false, false, false, false, false, false), Node(false, false, NoIoctl),
          Closed, Resting, Quiet, Asleep, Buffers([], [], 0),
          NO_LOOK, NO_LOOK, false, NewSession(false))

  function NewSession(straddled: bool): Session {
    Session([], false, straddled, false, false, false)
  }

  // ----- Who stands where -----

  predicate Outside(app: App) {
    app.Closed? || app.Opening? || app.Replacing? || app.Failed?
  }

  predicate InSession(app: App) {
    !Outside(app) && !app.Attach1? && !app.Fresh1?
  }

  predicate IsLeaving(app: App) {
    app.Off1? || app.Off2? || app.Off3? || app.Off4? || app.Off5?
  }

  // Past its first look at `streaming`.
  predicate Past(d: Drain) {
    !d.Resting? && !d.Picked?
  }

  predicate HasBuffer(d: Drain) {
    d.Holding? || d.Copied? || d.Synced? || d.Deactivating? || d.Finishing?
  }

  predicate DrainLocks(d: Drain) {
    Past(d) && !d.Checked? && d.u != Raw
  }

  predicate LockHeld(s: State) {
    !s.replay.Quiet? || DrainLocks(s.drain)
  }

  predicate Advancing(s: State) {
    match s.app
    case Attach1 => true
    case Attach2 => true
    case Attach3 => true
    case Fresh1 => true
    case Fresh2 => true
    case Fresh3 => true
    case FreshFail => true
    case Solo1 => true
    case Solo2 => true
    case Off1 => s.worker.Asleep?     // cancel the monitor and wait for it
    case Off2 => true
    case Off3 => s.replay.Quiet?      // cancel the replay and wait for it
    case Off4 => true
    case _ => false
  }

  predicate IoctlEnabled(s: State, op: IoctlOp) {
    match op
    case TryFmt(_) => s.node.ioctl.NoIoctl?
    case TryDone => s.node.ioctl.Trying?
    case FormatTest => s.node.ioctl.NoIoctl? && s.app.Closed?
    case Commit => s.node.ioctl.Committing?
    case Latch => s.node.ioctl.Latching?
  }

  predicate OpenEnabled(s: State, op: OpenOp) {
    match op
    case Open => s.app.Closed?
    case Refuse => s.app.Opening?
    case Replace => s.app.Opening? && s.f.drainOn
    case Replaced => s.app.Replacing? && s.drain.Resting?
    case Attach => s.app.Opening? && s.f.drainOn && !s.f.replaceOwed
    case Fresh => s.app.Opening? && !s.f.drainOn
    case Solo => s.app.Opening? && !s.f.drainOn
  }

  predicate OnEnabled(s: State, op: OnOp) {
    match op
    case FreshFails => s.app.Fresh2? || (s.app.Fresh3? && s.drain.Resting?)
    case Monitor(_) => s.app.Starting?
    case StreamOff => s.app.On?
  }

  predicate QueueEnabled(s: State, op: QueueOp) {
    match op
    case Queue => s.app.Opening? || s.app.On?
    case CloseApp(_) => s.app.Failed? || (s.app.Off5? && s.drain.Resting?)
  }

  predicate EntryEnabled(s: State, op: EntryOp) {
    match op
    case Pick(u) => s.f.drainOn && s.drain.Resting? && (u == Raw <==> s.node.raw)
    case Check => s.drain.Picked?
    case Lock => s.drain.Checked? && !LockHeld(s)
    case Recheck => s.drain.Locked?
  }

  predicate GateEnabled(s: State, op: GateOp) {
    match op
    case ReadActive(_) => s.drain.Gate?
    case Stamp(_) => s.drain.Stamping?
    case Decide => s.drain.Deciding?
    case Confirm => s.drain.Accepted?
  }

  predicate CopyEnabled(s: State, op: CopyOp) {
    match op
    case Take => s.drain.Taking?
    case Fit(_, torn) => s.drain.Holding? && (torn ==> s.drain.u == Raw)
    case Finish => s.drain.Finishing?
  }

  predicate SettleEnabled(s: State, op: SettleOp) {
    match op
    case Sync => s.drain.Copied?
    case Prove(_) => s.drain.Synced?
    case Deactivate => s.drain.Deactivating?
  }

  predicate ReplayEnabled(s: State, op: ReplayOp) {
    match op
    case ReplayEnter => s.replay.Quiet? && !LockHeld(s)
    case ReplayLook => s.replay.Entered?
    case ReplayActive => s.replay.SawStreaming?
  }

  predicate ReplayCopyEnabled(s: State, op: ReplayCopyOp) {
    match op
    case ReplayTake => s.replay.SawActive?
    case ReplayDone(_) => s.replay.Carrying?
  }

  predicate WorkerEnabled(s: State, op: WorkerOp) {
    match op
    case Wake => s.f.monitorOn && s.worker.Asleep?
    case Activate => s.worker.Awake?
    case Activated => s.worker.Activating?
    case Await => s.worker.Awake?
    case SettleMode => s.worker.Awake?
    case Sleep => s.worker.Awake?
  }

  predicate LaunchEnabled(s: State, op: LaunchOp) {
    match op
    case Launch => s.worker.Awake? && !s.f.drainOn
    case Launching2 => s.worker.Launching?
    case LaunchFails => s.worker.Launching? || (s.worker.Launched? && s.drain.Resting?)
    case LaunchDone => s.worker.Launched?
  }

  predicate Enabled(s: State, step: Step) {
    match step
    case Advance => Advancing(s)
    case ByIoctl(op) => IoctlEnabled(s, op)
    case ByOpen(op) => OpenEnabled(s, op)
    case ByOn(op) => OnEnabled(s, op)
    case ByQueue(op) => QueueEnabled(s, op)
    case ByEntry(op) => EntryEnabled(s, op)
    case ByGate(op) => GateEnabled(s, op)
    case ByCopy(op) => CopyEnabled(s, op)
    case BySettle(op) => SettleEnabled(s, op)
    case ByReplay(op) => ReplayEnabled(s, op)
    case ByReplayCopy(op) => ReplayCopyEnabled(s, op)
    case ByWorker(op) => WorkerEnabled(s, op)
    case ByLaunch(op) => LaunchEnabled(s, op)
  }

  // ----- Buffers -----

  function First(b: Buffers): nat
    requires |b.list| > 0
  {
    b.list[0]
  }

  function Queued(b: Buffers): Buffers { b.(list := b.list + [b.next], next := b.next + 1) }

  function Taken(b: Buffers): Buffers
    requires |b.list| > 0
  {
    b.(list := b.list[1..])
  }

  function PutBack(b: Buffers, t: nat): Buffers { b.(list := [t] + b.list) }

  function GivenBack(b: Buffers, t: nat): Buffers { b.(returned := b.returned + [t]) }

  function AllGivenBack(b: Buffers): Buffers { b.(list := [], returned := b.returned + b.list) }

  // ----- The format ioctls -----

  // S_FMT comes this far only for a format other than the present one.
  function ApplyIoctl(s: State, op: IoctlOp): State
    requires IoctlEnabled(s, op)
  {
    match op
    case TryFmt(want) => s.(node := Node(want, s.node.format, Trying(s.node.raw)))
    case TryDone => s.(node := Node(s.node.ioctl.saved, s.node.format, NoIoctl))
    case FormatTest => s.(node := s.node.(ioctl := Committing))
    case Commit =>
      s.(node := Node(!s.node.format, !s.node.format, Latching),
         drainLook := s.drainLook.(stale := !s.drainLook.stale),
         replayLook := s.replayLook.(stale := !s.replayLook.stale))
    case Latch =>
      s.(node := s.node.(ioctl := NoIoctl), f := s.f.(replaceOwed := s.f.replaceOwed || s.f.drainOn))
  }

  // ----- STREAMON and STREAMOFF -----

  function ApplyOpen(s: State, op: OpenOp): State
    requires OpenEnabled(s, op)
  {
    match op
    case Open => s.(app := Opening)
    case Refuse => s.(app := Failed)
    case Replace => s.(app := Replacing, f := s.f.(streaming := false, active := false, waiting := false))
    case Replaced => s.(app := Opening, f := s.f.(drainOn := false))
    case Attach =>
      s.(app := Attach1, f := s.f.(waiting := true),
         session := NewSession(s.node.ioctl.Committing? || s.node.ioctl.Latching?))
    case Fresh =>
      s.(app := Fresh1, f := s.f.(waiting := true), session := NewSession(s.node.ioctl.Committing?))
    case Solo =>
      s.(app := Solo1, f := s.f.(streaming := true, replaceOwed := false),
         session := NewSession(s.node.ioctl.Committing?))
  }

  function ApplyOn(s: State, op: OnOp): State
    requires OnEnabled(s, op)
  {
    match op
    case FreshFails => s.(app := FreshFail, f := s.f.(drainOn := false))
    case Monitor(enabled) =>
      s.(app := On, f := s.f.(monitorOn := s.f.monitorOn || enabled, waiting := s.f.waiting || enabled))
    case StreamOff => s.(app := Off1, f := s.f.(streaming := false))
  }

  function ApplyQueue(s: State, op: QueueOp): State
    requires QueueEnabled(s, op)
  {
    match op
    case Queue => s.(bufs := Queued(s.bufs))
    case CloseApp(stopCard) =>
      s.(app := Closed, bufs := AllGivenBack(s.bufs),
         f := s.f.(drainOn := s.f.drainOn && !(stopCard && s.app.Off5?)))
  }

  function Following(app: App): App
    requires !app.Closed? && !app.Opening? && !app.Replacing? && !app.Starting? && !app.On?
    requires !app.Off5? && !app.Failed?
  {
    match app
    case Attach1 => Attach2
    case Attach2 => Attach3
    case Attach3 => Starting
    case Fresh1 => Fresh2
    case Fresh2 => Fresh3
    case Fresh3 => Starting
    case FreshFail => Failed
    case Solo1 => Solo2
    case Solo2 => Starting
    case Off1 => Off2
    case Off2 => Off3
    case Off3 => Off4
    case Off4 => Off5
  }

  // Which flag each straight-line step of STREAMON and STREAMOFF writes.
  function AdvanceFlags(a: App, f: Flags): Flags {
    Flags(
      if a.Attach1? || a.Fresh1? then true else if a.FreshFail? then false else f.streaming,
      if a.Attach2? || a.Solo1? then true else if a.Off2? then false else f.active,
      if a.Attach3? || a.Solo2? then true else if a.Off4? then false else f.waiting,
      f.drainOn || a.Fresh2?,
      f.monitorOn && !a.Off1?,
      f.replaceOwed && !a.Fresh3?)
  }

  // STREAMOFF is about to clear what keeps the drain from accepting its picture.
  predicate Undercuts(s: State) {
    !s.session.live &&
    ((s.app.Off2? && s.f.active && s.drain.Gate?) ||
     (s.app.Off4? && s.f.waiting && (s.drain.Gate? || s.drain.Stamping? || s.drain.Deciding?)))
  }

  function ApplyAdvance(s: State): State
    requires Advancing(s)
  {
    s.(app := Following(s.app), f := AdvanceFlags(s.app, s.f), undercut := s.undercut || Undercuts(s))
  }

  // ----- The drain -----

  function ApplyEntry(s: State, op: EntryOp): State
    requires EntryEnabled(s, op)
  {
    match op
    case Pick(u) =>
      s.(drain := Picked(u), drainLook := Look(s.node.raw != s.node.format, false), undercut := false)
    case Check =>
      if !s.f.streaming then s.(drain := Resting)
      else
        s.(drain := if s.drain.u == Raw then Taking(Raw) else Checked(s.drain.u),
           session := s.session.(misread := s.session.misread || s.drainLook.window))
    case Lock => s.(drain := Locked(s.drain.u))
    case Recheck => s.(drain := if s.f.streaming then Gate(s.drain.u) else Resting)
  }

  function ApplyGate(s: State, op: GateOp): State
    requires GateEnabled(s, op)
  {
    match op
    case ReadActive(proven) =>
      s.(drain := if s.f.active && !(proven && s.drain.u == Idr) then Resting
                  else if s.drain.u == Bare then Accepted(Bare)
                  else Stamping(s.drain.u))
    case Stamp(gap) => s.(drain := Deciding(s.drain.u), f := s.f.(waiting := s.f.waiting || gap))
    case Decide => s.(drain := if s.f.waiting && s.drain.u != Idr then Resting else Accepted(s.drain.u))
    case Confirm => s.(drain := if s.f.streaming then Taking(s.drain.u) else Resting)
  }

  // The steps between the copy and the hand-over.  The raw path takes no lock.
  function ApplySettle(s: State, op: SettleOp): State
    requires SettleEnabled(s, op)
  {
    match op
    case Sync => s.(drain := Synced(s.drain.u, s.drain.b), f := s.f.(waiting := s.f.waiting && s.drain.u != Idr))
    case Prove(proven) =>
      s.(drain := if s.f.active && proven && (s.drain.u == Idr || s.drain.u == Raw)
                  then Deactivating(s.drain.u, s.drain.b) else Finishing(s.drain.u, s.drain.b))
    case Deactivate =>
      s.(drain := Finishing(s.drain.u, s.drain.b), f := s.f.(active := false),
         session := s.session.(severed := s.session.severed || (s.drain.u == Raw && !s.session.live)))
  }

  // An IDR gives the decoder a live reference.  A placeholder takes it away, and cuts the
  // decoder off if a raw delivery has meanwhile ended the mode that holds dependent pictures back.
  function Logged(s: State, kind: Kind, look: Look): Session {
    var h := s.session;
    h.(delivered := h.delivered + [Entry(kind, s.node.format, look, h.severed)],
       live := kind == Live(Idr) || (h.live && kind != Placeholder),
       severed := if kind == Live(Idr) then false else h.severed || (kind == Placeholder && !s.f.active))
  }

  function ApplyCopy(s: State, op: CopyOp): State
    requires CopyEnabled(s, op)
  {
    match op
    case Take =>
      if |s.bufs.list| == 0 then s.(drain := Resting)
      else s.(drain := Holding(s.drain.u, First(s.bufs)), bufs := Taken(s.bufs))
    case Fit(fits, torn) =>
      if !fits then s.(drain := Resting, bufs := GivenBack(s.bufs, s.drain.b))
      else if torn then s.(drain := Resting, bufs := PutBack(s.bufs, s.drain.b))
      else s.(drain := Copied(s.drain.u, s.drain.b),
              session := s.session.(crossed := s.session.crossed || s.drain.u == Raw))
    case Finish =>
      s.(drain := Resting, bufs := GivenBack(s.bufs, s.drain.b),
         session := Logged(s, Live(s.drain.u), s.drainLook))
  }

  // ----- The placeholder replay and the recovery worker -----

  function ApplyReplay(s: State, op: ReplayOp): State
    requires ReplayEnabled(s, op)
  {
    match op
    case ReplayEnter => s.(replay := Entered)
    case ReplayLook => s.(replay := if s.f.streaming then SawStreaming else Quiet)
    case ReplayActive =>
      s.(replay := if s.f.active && !s.node.raw then SawActive else Quiet,
         replayLook := Look(s.node.raw != s.node.format, false))
  }

  function ApplyReplayCopy(s: State, op: ReplayCopyOp): State
    requires ReplayCopyEnabled(s, op)
  {
    match op
    case ReplayTake =>
      if |s.bufs.list| == 0 then s.(replay := Quiet)
      else s.(replay := Carrying(First(s.bufs)), bufs := Taken(s.bufs))
    case ReplayDone(fits) =>
      s.(replay := Quiet, bufs := GivenBack(s.bufs, s.replay.b),
         session := if fits then Logged(s, Placeholder, s.replayLook) else s.session)
  }

  function ApplyWorker(s: State, op: WorkerOp): State
    requires WorkerEnabled(s, op)
  {
    match op
    case Wake => s.(worker := Awake)
    case Activate => s.(worker := Activating, f := s.f.(active := true))
    case Activated => s.(worker := Awake, f := s.f.(waiting := true))
    case Await => s.(f := s.f.(waiting := true))
    case SettleMode => s.(f := s.f.(replaceOwed := false))     // the mode is the running one again
    case Sleep => s.(worker := Asleep)
  }

  // The deferred start.
  function ApplyLaunch(s: State, op: LaunchOp): State
    requires LaunchEnabled(s, op)
  {
    match op
    case Launch => s.(worker := Launching, f := s.f.(waiting := true))
    case Launching2 => s.(worker := Launched, f := s.f.(drainOn := true))
    case LaunchFails => s.(worker := Awake, f := s.f.(drainOn := false))
    case LaunchDone => s.(worker := Awake, f := s.f.(replaceOwed := false))
  }

  function Apply(s: State, step: Step): State
    requires Enabled(s, step)
  {
    match step
    case Advance => ApplyAdvance(s)
    case ByIoctl(op) => ApplyIoctl(s, op)
    case ByOpen(op) => ApplyOpen(s, op)
    case ByOn(op) => ApplyOn(s, op)
    case ByQueue(op) => ApplyQueue(s, op)
    case ByEntry(op) => ApplyEntry(s, op)
    case ByGate(op) => ApplyGate(s, op)
    case ByCopy(op) => ApplyCopy(s, op)
    case BySettle(op) => ApplySettle(s, op)
    case ByReplay(op) => ApplyReplay(s, op)
    case ByReplayCopy(op) => ApplyReplayCopy(s, op)
    case ByWorker(op) => ApplyWorker(s, op)
    case ByLaunch(op) => ApplyLaunch(s, op)
  }

  // ----- What a decoder makes of a session -----

  // The latest random-access point delivered is a live IDR, not the placeholder.
  predicate OnLiveReference(log: seq<Entry>) {
    log != [] &&
    (log[|log| - 1].kind == Live(Idr) ||
     (log[|log| - 1].kind != Placeholder && OnLiveReference(log[..|log| - 1])))
  }

  // A dependent picture has its reference exactly when the decoder was not cut off before it.
  predicate Accounted(log: seq<Entry>) {
    log == [] ||
    (Accounted(log[..|log| - 1]) &&
     (log[|log| - 1].kind == Live(Dependent) ==> OnLiveReference(log[..|log| - 1]) == !log[|log| - 1].severed))
  }

  lemma LogGrows(log: seq<Entry>, e: Entry)
    ensures OnLiveReference(log + [e]) == (e.kind == Live(Idr) || (e.kind != Placeholder && OnLiveReference(log)))
    ensures Accounted(log + [e]) ==
            (Accounted(log) && (e.kind == Live(Dependent) ==> OnLiveReference(log) == !e.severed))
  {
    assert (log + [e])[..|log|] == log;
  }

  predicate IsReference(log: seq<Entry>, i: nat) {
    i < |log| && log[i].kind == Live(Idr) && forall j :: i < j < |log| ==> log[j].kind != Placeholder
  }

  lemma {:induction false} LatestReference(log: seq<Entry>)
    ensures OnLiveReference(log) <==> exists i :: IsReference(log, i)
  {
    if log != [] {
      var n := |log| - 1;
      LatestReference(log[..n]);
      if i: nat :| IsReference(log[..n], i) && log[n].kind != Placeholder {
        assert IsReference(log, i);
      }
      if i: nat :| IsReference(log, i) && i < n {
        assert IsReference(log[..n], i);
      }
      if log[n].kind == Live(Idr) {
        assert IsReference(log, n);
      }
    }
  }

  lemma {:induction false} AccountedAt(log: seq<Entry>, k: nat)
    requires Accounted(log) && k < |log| && log[k].kind == Live(Dependent)
    ensures OnLiveReference(log[..k]) == !log[k].severed
  {
    if k < |log| - 1 {
      AccountedAt(log[..|log| - 1], k);
      assert log[..|log| - 1][..k] == log[..k];
    }
  }

  // ----- The invariant, one concern at a time -----

  predicate Replaying(r: Replay) {
    r.SawActive? || r.Carrying?
  }

  predicate Showing(app: App) {
    app.Attach3? || app.Solo2? || app.Starting? || app.On? || app.Off1? || app.Off2?
  }

  predicate Phases(s: State) {
    && s.f.streaming == (InSession(s.app) && !IsLeaving(s.app))
    && (!s.worker.Asleep? ==> s.f.monitorOn)
    && (s.worker.Launching? ==> !s.f.drainOn)
    && (s.f.active ==> Showing(s.app))
    && (s.f.monitorOn ==> s.app.On? || s.app.Off1?)
    && (!s.drain.Resting? ==> s.f.drainOn)
    && (s.app.Fresh1? || s.app.Fresh2? || s.app.FreshFail? || s.app.Solo1? || s.app.Solo2? ==> !s.f.drainOn)
    && (s.app.Attach1? || s.app.Fresh1? ==> s.f.waiting)
  }

  // Who is where, and who holds the delivery lock.
  predicate Places(s: State) {
    && (Past(s.drain) ==> InSession(s.app))
    && (s.drain.Deactivating? ==> s.drain.u == Idr || s.drain.u == Raw)
    && (DrainLocks(s.drain) ==> s.replay.Quiet?)
    && (Replaying(s.replay) ==> Showing(s.app) || s.app.Off3?)
    && (s.undercut && !s.drain.Resting? ==> !s.session.live && IsLeaving(s.app))
  }

  // What the looks at the live flag were worth.
  predicate Formats(s: State) {
    var n := s.node;
    && (if n.ioctl.Trying? then n.ioctl.saved == n.format else n.raw == n.format)
    && (!Outside(s.app) && !s.session.straddled ==> !n.ioctl.Committing?)
    && (!s.drain.Resting? ==> ((s.drain.u == Raw) != n.format <==> s.drainLook.window != s.drainLook.stale))
    && (!s.drain.Resting? && s.drainLook.stale && (Outside(s.app) || !s.session.straddled) ==>
          Outside(s.app) && (n.ioctl.Latching? || s.f.replaceOwed))
    && (Replaying(s.replay) ==> (n.format <==> s.replayLook.window != s.replayLook.stale))
    && (Replaying(s.replay) && !s.session.straddled ==> !s.replayLook.stale)
  }

  // How raw deliveries come about.
  predicate Crossings(s: State) {
    var h := s.session;
    && (Past(s.drain) && s.drainLook.window ==> h.misread)
    && (HasBuffer(s.drain) && !s.drain.Holding? && s.drain.u == Raw ==> h.crossed)
    && (h.crossed && !h.straddled && !Outside(s.app) && !s.node.format ==> h.misread)
  }

  // Between the moment an IDR clears `waiting` and the moment it is delivered.
  predicate DeliveringIdr(d: Drain) {
    (d.Synced? || d.Deactivating? || d.Finishing?) && d.u == Idr
  }

  // What holds dependent pictures back while the decoder has no live reference.
  predicate Guarded(s: State) {
    var h := s.session;
    var d := s.drain;
    && (h.severed ==> !h.live && !s.app.Attach1? && !s.app.Fresh1?)
    && (s.f.streaming && !s.app.Solo1? && !DeliveringIdr(d) ==> h.live || s.f.waiting || s.f.active || h.severed)
    && (Replaying(s.replay) && s.f.streaming ==> s.f.active || h.crossed)
    && (h.severed && (s.f.streaming || (HasBuffer(d) && d.u == Dependent)) ==> h.crossed)
    && (d.Taking? && d.u == Dependent && h.severed ==> h.crossed)
    && (d.Gate? ==> h.live || s.f.waiting || s.f.active || h.severed || s.undercut)
    && ((d.Stamping? || d.Deciding?) && d.u == Dependent ==> h.live || s.f.waiting || h.severed || s.undercut)
    && (d.Accepted? && d.u == Dependent ==> h.live || h.severed || s.undercut)
    && ((d.Taking? || HasBuffer(d)) && d.u == Dependent ==> h.live || h.severed)
  }

  predicate Placed(s: State) {
    Phases(s) && Places(s)
  }

  predicate Sound(s: State) {
    Formats(s) && Crossings(s) && Guarded(s)
  }

  // What is known of the units delivered; `settled` sessions have one negotiated format.
  predicate Entries(log: seq<Entry>, settled: bool, format: bool, crossed: bool) {
    forall i :: 0 <= i < |log| ==>
      && (log[i].kind == Live(Dependent) && log[i].severed ==> crossed)
      && ((log[i].kind == Live(Raw)) != log[i].format <==> log[i].look.window != log[i].look.stale)
      && (settled ==> !log[i].look.stale && log[i].format == format)
  }

  predicate Logs(log: seq<Entry>, live: bool, settled: bool, format: bool, crossed: bool) {
    live == OnLiveReference(log) && Accounted(log) && Entries(log, settled, format, crossed)
  }

  predicate IsSettled(s: State) {
    !s.session.straddled && !Outside(s.app)
  }

  predicate Recorded(s: State) {
    Logs(s.session.delivered, s.session.live, IsSettled(s), s.node.format, s.session.crossed)
  }

  lemma EntryAdded(log: seq<Entry>, live: bool, settled: bool, format: bool, crossed: bool, e: Entry)
    requires Logs(log, live, settled, format, crossed)
    requires Entries([e], settled, format, crossed)
    requires e.kind == Live(Dependent) ==> live == !e.severed
    ensures Logs(log + [e], e.kind == Live(Idr) || (live && e.kind != Placeholder), settled, format, crossed)
  {
    LogGrows(log, e);
    assert [e][0] == e;
  }

  function One(c: bool): nat { if c then 1 else 0 }

  function Kept(b: Buffers, t: nat): nat { multiset(b.list)[t] + multiset(b.returned)[t] }

  // In how many places buffer `t` is.
  function Count(b: Buffers, d: Drain, r: Replay, t: nat): nat {
    Kept(b, t) + One(HasBuffer(d) && d.b == t) + One(r.Carrying? && r.b == t)
  }

  /** Every buffer ever queued is in exactly one place. */
  ghost predicate Conserved(b: Buffers, d: Drain, r: Replay) {
    forall t: nat :: Count(b, d, r, t) == One(t < b.next)
  }

  // In queue order, and all below `next`.
  predicate Ascending(list: seq<nat>, next: nat) {
    && (forall i, j :: 0 <= i < j < |list| ==> list[i] < list[j])
    && (forall i :: 0 <= i < |list| ==> list[i] < next)
  }

  predicate Before(t: nat, b: Buffers) {
    t < b.next && forall i :: 0 <= i < |b.list| ==> t < b.list[i]
  }

  // A raw copy holds a buffer that was queued before all those on the list.
  predicate Ordered(b: Buffers, d: Drain) {
    Ascending(b.list, b.next) && (HasBuffer(d) && d.u == Raw ==> Before(d.b, b))
  }

  ghost predicate Stocked(s: State) {
    && Conserved(s.bufs, s.drain, s.replay) && Ordered(s.bufs, s.drain)
    && (s.app.Closed? ==> |s.bufs.list| == 0)
  }

  predicate Flows(s: State) {
    Placed(s) && Sound(s)
  }

  ghost predicate Accounts(s: State) {
    Stocked(s) && Recorded(s)
  }

  ghost predicate Inv(s: State) {
    Flows(s) && Accounts(s)
  }

  // ----- Buffers changing hands -----

  lemma QueuedStays(b: Buffers, d: Drain, r: Replay)
    requires Conserved(b, d, r) && Ordered(b, d)
    ensures Conserved(Queued(b), d, r) && Ordered(Queued(b), d)
  {
    forall t: nat ensures Count(Queued(b), d, r, t) == One(t < b.next + 1) {
      assert Count(b, d, r, t) == One(t < b.next);
    }
  }

  lemma ClosedStays(b: Buffers, d: Drain, r: Replay)
    requires Conserved(b, d, r) && Ordered(b, d)
    ensures Conserved(AllGivenBack(b), d, r) && Ordered(AllGivenBack(b), d)
  {
    forall t: nat ensures Count(AllGivenBack(b), d, r, t) == One(t < b.next) {
      assert Count(b, d, r, t) == One(t < b.next);
    }
  }

  lemma TakenCount(b: Buffers, t: nat)
    requires |b.list| > 0
    ensures Kept(b, t) == Kept(Taken(b), t) + One(t == First(b))
  {
    assert b.list == [First(b)] + Taken(b).list;
  }

  lemma DrainTook(b: Buffers, d: Drain, d': Drain, r: Replay)
    requires Conserved(b, d, r) && Ordered(b, d) && |b.list| > 0
    requires !HasBuffer(d) && HasBuffer(d') && d'.b == First(b)
    ensures Conserved(Taken(b), d', r) && Ordered(Taken(b), d')
  {
    forall t: nat ensures Count(Taken(b), d', r, t) == One(t < b.next) {
      assert Count(b, d, r, t) == One(t < b.next);
      TakenCount(b, t);
    }
  }

  lemma ReplayTook(b: Buffers, d: Drain, r: Replay, r': Replay)
    requires Conserved(b, d, r) && Ordered(b, d) && |b.list| > 0
    requires !r.Carrying? && r'.Carrying? && r'.b == First(b)
    ensures Conserved(Taken(b), d, r') && Ordered(Taken(b), d)
  {
    forall t: nat ensures Count(Taken(b), d, r', t) == One(t < b.next) {
      assert Count(b, d, r, t) == One(t < b.next);
      TakenCount(b, t);
    }
  }

  lemma DrainGave(b: Buffers, d: Drain, d': Drain, r: Replay)
    requires Conserved(b, d, r) && Ordered(b, d) && HasBuffer(d) && !HasBuffer(d')
    ensures Conserved(GivenBack(b, d.b), d', r) && Ordered(GivenBack(b, d.b), d')
  {
    forall t: nat ensures Count(GivenBack(b, d.b), d', r, t) == One(t < b.next) {
      assert Count(b, d, r, t) == One(t < b.next);
    }
  }

  lemma DrainPutBack(b: Buffers, d: Drain, d': Drain, r: Replay)
    requires Conserved(b, d, r) && Ordered(b, d) && HasBuffer(d) && d.u == Raw && !HasBuffer(d')
    ensures Conserved(PutBack(b, d.b), d', r) && Ordered(PutBack(b, d.b), d')
  {
    forall t: nat ensures Count(PutBack(b, d.b), d', r, t) == One(t < b.next) {
      assert Count(b, d, r, t) == One(t < b.next);
    }
  }

  lemma ReplayGave(b: Buffers, d: Drain, r: Replay, r': Replay)
    requires Conserved(b, d, r) && Ordered(b, d) && r.Carrying? && !r'.Carrying?
    ensures Conserved(GivenBack(b, r.b), d, r') && Ordered(GivenBack(b, r.b), d)
  {
    forall t: nat ensures Count(GivenBack(b, r.b), d, r', t) == One(t < b.next) {
      assert Count(b, d, r, t) == One(t < b.next);
    }
  }

  // Nobody's buffer changes.
  lemma NobodyMoves(b: Buffers, d: Drain, d': Drain, r: Replay, r': Replay)
    requires Conserved(b, d, r) && Ordered(b, d)
    requires HasBuffer(d') == HasBuffer(d) && (HasBuffer(d) ==> d'.b == d.b && d'.u == d.u)
    requires r'.Carrying? == r.Carrying? && (r.Carrying? ==> r'.b == r.b)
    ensures Conserved(b, d', r') && Ordered(b, d')
  {
    forall t: nat ensures Count(b, d', r', t) == One(t < b.next) {
      assert Count(b, d, r, t) == One(t < b.next);
    }
  }

  lemma IoctlFlows(s: State, op: IoctlOp)
    requires Flows(s) && IoctlEnabled(s, op)
    ensures Flows(ApplyIoctl(s, op))
  {
  }

  lemma IoctlKeeps(s: State, op: IoctlOp)
    requires Inv(s) && IoctlEnabled(s, op)
    ensures Inv(ApplyIoctl(s, op))
  {
    var t := ApplyIoctl(s, op);
    IoctlFlows(s, op);
    NobodyMoves(s.bufs, s.drain, t.drain, s.replay, t.replay);
  }

  lemma OpenFlows(s: State, op: OpenOp)
    requires Flows(s) && OpenEnabled(s, op)
    ensures Flows(ApplyOpen(s, op))
  {
  }

  lemma OpenKeeps(s: State, op: OpenOp)
    requires Inv(s) && OpenEnabled(s, op)
    ensures Inv(ApplyOpen(s, op))
  {
    var t := ApplyOpen(s, op);
    OpenFlows(s, op);
    NobodyMoves(s.bufs, s.drain, t.drain, s.replay, t.replay);
  }

  lemma OnFlows(s: State, op: OnOp)
    requires Flows(s) && OnEnabled(s, op)
    ensures Flows(ApplyOn(s, op))
  {
  }

  lemma OnKeeps(s: State, op: OnOp)
    requires Inv(s) && OnEnabled(s, op)
    ensures Inv(ApplyOn(s, op))
  {
    var t := ApplyOn(s, op);
    OnFlows(s, op);
    NobodyMoves(s.bufs, s.drain, t.drain, s.replay, t.replay);
  }

  lemma EntryFlows(s: State, op: EntryOp)
    requires Flows(s) && EntryEnabled(s, op)
    ensures Flows(ApplyEntry(s, op))
  {
  }

  lemma EntryKeeps(s: State, op: EntryOp)
    requires Inv(s) && EntryEnabled(s, op)
    ensures Inv(ApplyEntry(s, op))
  {
    var t := ApplyEntry(s, op);
    EntryFlows(s, op);
    NobodyMoves(s.bufs, s.drain, t.drain, s.replay, t.replay);
  }

  lemma GateFlows(s: State, op: GateOp)
    requires Flows(s) && GateEnabled(s, op)
    ensures Flows(ApplyGate(s, op))
  {
  }

  lemma GateKeeps(s: State, op: GateOp)
    requires Inv(s) && GateEnabled(s, op)
    ensures Inv(ApplyGate(s, op))
  {
    var t := ApplyGate(s, op);
    GateFlows(s, op);
    NobodyMoves(s.bufs, s.drain, t.drain, s.replay, t.replay);
  }

  lemma SettleFlows(s: State, op: SettleOp)
    requires Flows(s) && SettleEnabled(s, op)
    ensures Flows(ApplySettle(s, op))
  {
  }

  lemma SettleKeeps(s: State, op: SettleOp)
    requires Inv(s) && SettleEnabled(s, op)
    ensures Inv(ApplySettle(s, op))
  {
    var t := ApplySettle(s, op);
    SettleFlows(s, op);
    NobodyMoves(s.bufs, s.drain, t.drain, s.replay, t.replay);
  }

  lemma ReplayFlows(s: State, op: ReplayOp)
    requires Flows(s) && ReplayEnabled(s, op)
    ensures Flows(ApplyReplay(s, op))
  {
  }

  lemma ReplayKeeps(s: State, op: ReplayOp)
    requires Inv(s) && ReplayEnabled(s, op)
    ensures Inv(ApplyReplay(s, op))
  {
    var t := ApplyReplay(s, op);
    ReplayFlows(s, op);
    NobodyMoves(s.bufs, s.drain, t.drain, s.replay, t.replay);
  }

  lemma WorkerFlows(s: State, op: WorkerOp)
    requires Flows(s) && WorkerEnabled(s, op)
    ensures Flows(ApplyWorker(s, op))
  {
  }

  lemma WorkerKeeps(s: State, op: WorkerOp)
    requires Inv(s) && WorkerEnabled(s, op)
    ensures Inv(ApplyWorker(s, op))
  {
    var t := ApplyWorker(s, op);
    WorkerFlows(s, op);
    NobodyMoves(s.bufs, s.drain, t.drain, s.replay, t.replay);
  }

  lemma LaunchFlows(s: State, op: LaunchOp)
    requires Flows(s) && LaunchEnabled(s, op)
    ensures Flows(ApplyLaunch(s, op))
  {
  }

  lemma LaunchKeeps(s: State, op: LaunchOp)
    requires Inv(s) && LaunchEnabled(s, op)
    ensures Inv(ApplyLaunch(s, op))
  {
    var t := ApplyLaunch(s, op);
    LaunchFlows(s, op);
    NobodyMoves(s.bufs, s.drain, t.drain, s.replay, t.replay);
  }

  lemma AdvanceFlows(s: State)
    requires Flows(s) && Advancing(s)
    ensures Flows(ApplyAdvance(s))
  {
  }

  lemma AdvanceKeeps(s: State)
    requires Inv(s) && Advancing(s)
    ensures Inv(ApplyAdvance(s))
  {
    var t := ApplyAdvance(s);
    AdvanceFlows(s);
    NobodyMoves(s.bufs, s.drain, t.drain, s.replay, t.replay);
  }

  lemma QueueFlows(s: State, op: QueueOp)
    requires Flows(s) && QueueEnabled(s, op)
    ensures Flows(ApplyQueue(s, op))
  {
  }

  lemma QueueKeeps(s: State, op: QueueOp)
    requires Inv(s) && QueueEnabled(s, op)
    ensures Inv(ApplyQueue(s, op))
  {
    QueueFlows(s, op);
    if op.Queue? {
      QueuedStays(s.bufs, s.drain, s.replay);
    } else {
      ClosedStays(s.bufs, s.drain, s.replay);
    }
  }

  // Taking a buffer, and giving one up.
  lemma HandFlows(s: State, d: Drain, b: Buffers)
    requires Flows(s)
    requires s.drain.Taking? || s.drain.Holding?
    requires d.Resting? || (s.drain.Taking? && d.Holding? && d.u == s.drain.u)
    ensures Flows(s.(drain := d, bufs := b))
  {
  }

  lemma ReplayHandFlows(s: State, r: Replay, b: Buffers)
    requires Flows(s) && (r.Quiet? || (s.replay.SawActive? && r.Carrying?))
    ensures Flows(s.(replay := r, bufs := b))
  {
  }

  lemma TakeKeeps(s: State)
    requires Inv(s) && CopyEnabled(s, Take)
    ensures Inv(ApplyCopy(s, Take))
  {
    if |s.bufs.list| == 0 {
      HandFlows(s, Resting, s.bufs);
      NobodyMoves(s.bufs, s.drain, Resting, s.replay, s.replay);
    } else {
      var d := Holding(s.drain.u, First(s.bufs));
      HandFlows(s, d, Taken(s.bufs));
      DrainTook(s.bufs, s.drain, d, s.replay);
    }
  }

  lemma FitKeeps(s: State, fits: bool, torn: bool)
    requires Inv(s) && CopyEnabled(s, Fit(fits, torn))
    ensures Inv(ApplyCopy(s, Fit(fits, torn)))
  {
    var t := ApplyCopy(s, Fit(fits, torn));
    if !fits {
      HandFlows(s, t.drain, t.bufs);
      DrainGave(s.bufs, s.drain, t.drain, s.replay);
    } else if torn {
      HandFlows(s, t.drain, t.bufs);
      DrainPutBack(s.bufs, s.drain, t.drain, s.replay);
    } else {
      CopiedFlows(s);
      NobodyMoves(s.bufs, s.drain, t.drain, s.replay, s.replay);
    }
  }

  lemma CopiedFlows(s: State)
    requires Flows(s) && s.drain.Holding?
    ensures Flows(ApplyCopy(s, Fit(true, false)))
  {
  }

  lemma FinishFlows(s: State)
    requires Flows(s) && CopyEnabled(s, Finish)
    ensures Flows(ApplyCopy(s, Finish))
  {
  }

  lemma FinishKeeps(s: State)
    requires Inv(s) && CopyEnabled(s, Finish)
    ensures Inv(ApplyCopy(s, Finish))
  {
    var h := s.session;
    FinishFlows(s);
    DrainGave(s.bufs, s.drain, Resting, s.replay);
    EntryAdded(h.delivered, h.live, IsSettled(s), s.node.format, h.crossed,
               Entry(Live(s.drain.u), s.node.format, s.drainLook, h.severed));
  }

  lemma ReplayTakeKeeps(s: State)
    requires Inv(s) && ReplayCopyEnabled(s, ReplayTake)
    ensures Inv(ApplyReplayCopy(s, ReplayTake))
  {
    if |s.bufs.list| == 0 {
      ReplayHandFlows(s, Quiet, s.bufs);
      NobodyMoves(s.bufs, s.drain, s.drain, s.replay, Quiet);
    } else {
      var r := Carrying(First(s.bufs));
      ReplayHandFlows(s, r, Taken(s.bufs));
      ReplayTook(s.bufs, s.drain, s.replay, r);
    }
  }

  lemma ReplayDoneFlows(s: State, fits: bool)
    requires Flows(s) && ReplayCopyEnabled(s, ReplayDone(fits))
    ensures Flows(ApplyReplayCopy(s, ReplayDone(fits)))
  {
  }

  lemma ReplayDoneKeeps(s: State, fits: bool)
    requires Inv(s) && ReplayCopyEnabled(s, ReplayDone(fits))
    ensures Inv(ApplyReplayCopy(s, ReplayDone(fits)))
  {
    var h := s.session;
    ReplayDoneFlows(s, fits);
    ReplayGave(s.bufs, s.drain, s.replay, Quiet);
    EntryAdded(h.delivered, h.live, IsSettled(s), s.node.format, h.crossed,
               Entry(Placeholder, s.node.format, s.replayLook, h.severed));
  }

  lemma StepKeeps(s: State, step: Step)
    requires Inv(s) && Enabled(s, step)
    ensures Inv(Apply(s, step))
  {
    match step
    case Advance => AdvanceKeeps(s);
    case ByIoctl(op) => IoctlKeeps(s, op);
    case ByOpen(op) => OpenKeeps(s, op);
    case ByOn(op) => OnKeeps(s, op);
    case ByQueue(op) => QueueKeeps(s, op);
    case ByEntry(op) => EntryKeeps(s, op);
    case ByGate(op) => GateKeeps(s, op);
    case ByCopy(Take) => TakeKeeps(s);
    case ByCopy(Fit(fits, torn)) => FitKeeps(s, fits, torn);
    case ByCopy(Finish) => FinishKeeps(s);
    case BySettle(op) => SettleKeeps(s, op);
    case ByReplay(op) => ReplayKeeps(s, op);
    case ByReplayCopy(ReplayTake) => ReplayTakeKeeps(s);
    case ByReplayCopy(ReplayDone(fits)) => ReplayDoneKeeps(s, fits);
    case ByWorker(op) => WorkerKeeps(s, op);
    case ByLaunch(op) => LaunchKeeps(s, op);
  }

  // ----- Runs -----

  predicate Possible(s: State, run: seq<Step>)
    decreases |run|
  {
    run == [] || (Enabled(s, run[0]) && Possible(Apply(s, run[0]), run[1..]))
  }

  function After(s: State, run: seq<Step>): State
    requires Possible(s, run)
    decreases |run|
  {
    if run == [] then s else After(Apply(s, run[0]), run[1..])
  }

  ghost predicate IsReachable(s: State) {
    exists run :: Possible(INIT, run) && s == After(INIT, run)
  }

  lemma {:induction false} InvAfter(s: State, run: seq<Step>)
    requires Inv(s) && Possible(s, run)
    ensures Inv(After(s, run))
    decreases |run|
  {
    if run != [] {
      StepKeeps(s, run[0]);
      InvAfter(Apply(s, run[0]), run[1..]);
    }
  }

  lemma InitHolds()
    ensures Inv(INIT)
  {
  }

  lemma Reachable(s: State)
    requires IsReachable(s)
    ensures Inv(s)
  {
    InitHolds();
    var run :| Possible(INIT, run) && s == After(INIT, run);
    InvAfter(INIT, run);
  }

  lemma {:induction false} Snoc(s: State, run: seq<Step>, step: Step)
    requires Possible(s, run) && Enabled(After(s, run), step)
    ensures Possible(s, run + [step]) && After(s, run + [step]) == Apply(After(s, run), step)
    decreases |run|
  {
    if run == [] {
      assert [step][1..] == [];
    } else {
      Snoc(Apply(s, run[0]), run[1..], step);
      assert (run + [step])[1..] == run[1..] + [step];
    }
  }

  lemma Go(s: State, step: Step) returns (t: State)
    requires IsReachable(s) && Enabled(s, step)
    ensures t == Apply(s, step) && IsReachable(t)
  {
    var run :| Possible(INIT, run) && s == After(INIT, run);
    Snoc(INIT, run, step);
    t := Apply(s, step);
  }

  lemma Start() returns (s: State)
    ensures s == INIT && IsReachable(s)
  {
    s := INIT;
    assert Possible(INIT, []) && s == After(INIT, []);
  }

  // ----- Delivery formats -----

  /**
   Whatever is handed over has the format then negotiated, unless exactly one of two things
   happened: the look at the live flag that chose it fell into a TRY_FMT window, or S_FMTs
   committed an odd number of times between that look and the hand-over.
   */
  lemma EveryNodeGetsItsFormat(s: State, k: nat)
    requires IsReachable(s) && k < |s.session.delivered|
    ensures var e := s.session.delivered[k];
            (e.kind == Live(Raw)) != e.format <==> e.look.window != e.look.stale
  {
    Reachable(s);
  }

  /**
   In a session whose STREAMON found no S_FMT under way the format stays what it was, so a
   unit of the other format is handed over exactly when its look fell into a window.
   */
  lemma SettledSessionsKeepTheirFormat(s: State, k: nat)
    requires IsReachable(s) && IsSettled(s) && k < |s.session.delivered|
    ensures var e := s.session.delivered[k];
            e.format == s.node.format && ((e.kind == Live(Raw)) != s.node.format <==> e.look.window)
  {
    Reachable(s);
  }

  /** A look is misled exactly while a TRY_FMT that asks for the other format is under way. */
  lemma AWindowIsATryFmt(s: State, u: Unit)
    requires IsReachable(s)
    ensures var asked := s.node.ioctl.Trying? && s.node.raw != s.node.ioctl.saved;
            && (EntryEnabled(s, Pick(u)) ==> ApplyEntry(s, Pick(u)).drainLook == Look(asked, false))
            && (ReplayEnabled(s, ReplayActive) ==> ApplyReplay(s, ReplayActive).replayLook == Look(asked, false))
  {
    Reachable(s);
  }

  // ----- Decoder safety -----

  /**
   However the actors interleave, a dependent picture that is delivered comes after a live
   IDR with no placeholder in between, unless and only unless the decoder had been cut off:
   a raw delivery had ended the placeholder mode while the placeholder was what the decoder
   showed, or had ended it just before a placeholder already under way was handed over.
   */
  lemma EveryPictureIsDecodable(s: State, k: nat)
    requires IsReachable(s) && k < |s.session.delivered| && s.session.delivered[k].kind == Live(Dependent)
    ensures (exists i :: IsReference(s.session.delivered[..k], i)) <==> !s.session.delivered[k].severed
  {
    Reachable(s);
    AccountedAt(s.session.delivered, k);
    LatestReference(s.session.delivered[..k]);
  }

  /**
   A session in which no raw frame was copied into a buffer, be it that none was met or that
   none fitted, has only decodable pictures, whatever the format ioctls do.
   */
  lemma WithoutARawCopyAllIsDecodable(s: State, k: nat)
    requires IsReachable(s) && !s.session.crossed
    requires k < |s.session.delivered| && s.session.delivered[k].kind == Live(Dependent)
    ensures exists i :: IsReference(s.session.delivered[..k], i)
  {
    Reachable(s);
    EveryPictureIsDecodable(s, k);
  }

  /** The copy is the only step that marks a session so, and only for a raw frame that fits. */
  lemma OnlyARawFrameThatFitsCrosses(s: State, step: Step)
    requires Enabled(s, step) && Apply(s, step).session.crossed && !s.session.crossed
    ensures step == ByCopy(Fit(true, false)) && s.drain.u == Raw
  {
  }

  /**
   In an encoded session that is settled and in which no look of the drain fell into a
   TRY_FMT window, every dependent picture is decodable.
   */
  lemma UndisturbedSessionsAreDecodable(s: State, k: nat)
    requires IsReachable(s) && IsSettled(s) && !s.node.format && !s.session.misread
    requires k < |s.session.delivered| && s.session.delivered[k].kind == Live(Dependent)
    ensures exists i :: IsReference(s.session.delivered[..k], i)
  {
    Reachable(s);
    EveryPictureIsDecodable(s, k);
  }

  /**
   What the gate accepts is undecodable exactly when the decoder was cut off, or when
   STREAMOFF cleared under the gate the flag that was holding the picture back; and the
   latter only when `streaming` has fallen, so that the look behind the gate stops it.
   */
  lemma TheGateIsExact(s: State)
    requires IsReachable(s) && s.drain == Accepted(Dependent)
    ensures !OnLiveReference(s.session.delivered) <==> s.session.severed || s.undercut
    ensures s.undercut ==> !s.f.streaming
  {
    Reachable(s);
  }

  /** While the session streams, only a cut-off lets the gate accept an undecodable picture. */
  lemma TheGateHoldsWhileStreaming(s: State)
    requires IsReachable(s) && s.f.streaming && s.drain == Accepted(Dependent)
    ensures OnLiveReference(s.session.delivered) <==> !s.session.severed
    ensures s.session.severed ==> s.session.crossed
    ensures IsSettled(s) && !s.node.format && !s.session.misread ==> OnLiveReference(s.session.delivered)
  {
    Reachable(s);
  }

  // ----- Buffer custody -----

  /** A queued buffer is in exactly one place, and so is given back at most once. */
  lemma EveryBufferIsInOnePlace(s: State, t: nat)
    requires IsReachable(s)
    ensures Count(s.bufs, s.drain, s.replay, t) == One(t < s.bufs.next)
  {
    Reachable(s);
  }

  /** Once STREAMOFF, or a STREAMON that failed, has returned, every buffer has been given back. */
  lemma DetachedMeansAllReturned(s: State, t: nat)
    requires IsReachable(s) && s.app.Closed?
    ensures s.bufs.list == [] && !HasBuffer(s.drain) && !s.replay.Carrying?
    ensures multiset(s.bufs.returned)[t] == One(t < s.bufs.next)
  {
    Reachable(s);
    assert Count(s.bufs, s.drain, s.replay, t) == One(t < s.bufs.next);
  }

  /** The list stays in queue order, even when a torn raw copy puts its buffer back. */
  lemma BuffersKeepTheirOrder(s: State)
    requires IsReachable(s)
    ensures Ascending(s.bufs.list, s.bufs.next)
    ensures s.drain.Holding? && s.drain.u == Raw ==> Ascending(PutBack(s.bufs, s.drain.b).list, s.bufs.next)
  {
    Reachable(s);
  }

  // ----- Each call by itself -----

  // Nobody but the application is at work.
  predicate Calm(s: State) {
    s.drain.Resting? && s.replay.Quiet? && s.worker.Asleep? && s.node.ioctl.NoIoctl?
  }

  lemma BeginOff(s: State) returns (t: State)
    requires IsReachable(s) && s.app.On? && Calm(s)
    ensures IsReachable(t)
    ensures t == s.(app := Off3, f := s.f.(streaming := false, active := false, monitorOn := false))
  {
    t := Go(s, ByOn(StreamOff));
    t := Go(t, Advance);
    t := Go(t, Advance);
  }

  /** STREAMOFF, left alone, clears every flag of the session and gives all queued buffers back. */
  lemma StreamOffAlone(s: State, stopCard: bool) returns (t: State)
    requires IsReachable(s) && s.app.On? && Calm(s)
    ensures IsReachable(t)
    ensures t == s.(app := Closed, bufs := AllGivenBack(s.bufs),
                    f := Flags(false, false, false, s.f.drainOn && !stopCard, false, s.f.replaceOwed))
  {
    t := BeginOff(s);
    t := Go(t, Advance);
    t := Go(t, Advance);
    t := Go(t, ByQueue(CloseApp(stopCard)));
  }

  // Up to the choice of a way to attach; a pipeline that owes a replacement is stopped first.
  lemma OpenAlone(s: State) returns (t: State)
    requires IsReachable(s) && s.app.Closed? && Calm(s)
    ensures IsReachable(t)
    ensures t == s.(app := Opening, f := t.f)
    ensures t.f == if s.f.replaceOwed && s.f.drainOn then Flags(false, false, false, false, s.f.monitorOn, true) else s.f
  {
    t := Go(s, ByOpen(Open));
    if s.f.replaceOwed && s.f.drainOn {
      t := Go(t, ByOpen(Replace));
      t := Go(t, ByOpen(Replaced));
    }
  }

  lemma AttachAlone(s: State) returns (t: State)
    requires IsReachable(s) && s.app.Opening? && Calm(s) && s.f.drainOn && !s.f.replaceOwed
    ensures IsReachable(t)
    ensures t == s.(app := Starting, session := NewSession(false),
                    f := s.f.(streaming := true, active := true, waiting := true))
  {
    t := Go(s, ByOpen(Attach));
    t := Go(t, Advance);
    t := Go(t, Advance);
    t := Go(t, Advance);
  }

  lemma FreshAlone(s: State) returns (t: State)
    requires IsReachable(s) && s.app.Opening? && Calm(s) && !s.f.drainOn
    ensures IsReachable(t)
    ensures t == s.(app := Starting, session := NewSession(false),
                    f := s.f.(streaming := true, waiting := true, drainOn := true, replaceOwed := false))
  {
    t := Go(s, ByOpen(Fresh));
    t := Go(t, Advance);
    t := Go(t, Advance);
    t := Go(t, Advance);
  }

  /**
   STREAMON, left alone, ends streaming, with an IDR awaited: behind the placeholder on a
   pipeline that runs, on a new pipeline otherwise, which any pending replacement is owed no more.
   */
  lemma StreamOnAlone(s: State, enabled: bool) returns (t: State)
    requires IsReachable(s) && s.app.Closed? && Calm(s)
    ensures IsReachable(t) && t.app.On? && t.session == NewSession(false) && t.bufs == s.bufs && t.node == s.node
    ensures t.f == Flags(true, s.f.drainOn && !s.f.replaceOwed, true, true, enabled, false)
  {
    Reachable(s);
    t := OpenAlone(s);
    if s.f.drainOn && !s.f.replaceOwed {
      t := AttachAlone(t);
    } else {
      t := FreshAlone(t);
    }
    t := Go(t, ByOn(Monitor(enabled)));
  }

  // A start that has failed, and the rest of STREAMON.
  lemma FailAlone(s: State) returns (t: State)
    requires IsReachable(s) && OnEnabled(s, FreshFails)
    ensures IsReachable(t)
    ensures t == s.(app := Closed, bufs := AllGivenBack(s.bufs), f := s.f.(streaming := false, drainOn := false))
  {
    t := Go(s, ByOn(FreshFails));
    t := Go(t, Advance);
    t := Go(t, ByQueue(CloseApp(false)));
  }

  /** A start that fails, early or late, leaves no pipeline and no stream, and gives the buffers back. */
  lemma FailedStartAlone(s: State, late: bool) returns (t: State)
    requires IsReachable(s) && s.app.Closed? && Calm(s) && !s.f.drainOn
    ensures IsReachable(t)
    ensures t == s.(bufs := AllGivenBack(s.bufs), session := NewSession(false),
                    f := s.f.(streaming := false, waiting := true))
  {
    t := OpenAlone(s);
    t := Go(t, ByOpen(Fresh));
    t := Go(t, Advance);
    if late {
      t := Go(t, Advance);
    }
    t := FailAlone(t);
  }

  /** The recovery worker's deferred start, left alone: a pipeline with an IDR awaited, or none. */
  lemma DeferredStartAlone(s: State, late: bool, fails: bool) returns (t: State)
    requires IsReachable(s) && s.app.On? && Calm(s) && s.f.monitorOn && !s.f.drainOn
    ensures IsReachable(t)
    ensures t == s.(f := s.f.(waiting := true, drainOn := !fails, replaceOwed := s.f.replaceOwed && fails))
  {
    t := Go(s, ByWorker(Wake));
    t := Go(t, ByLaunch(Launch));
    if late || !fails {
      t := Go(t, ByLaunch(Launching2));
    }
    t := EndLaunch(t, fails);
  }

  /** A lost lock, left alone, puts the placeholder up with an IDR awaited ... */
  lemma LostLockAlone(s: State) returns (t: State)
    requires IsReachable(s) && s.app.On? && Calm(s) && s.f.monitorOn
    ensures IsReachable(t) && t == s.(f := s.f.(active := true, waiting := true))
  {
    t := Go(s, ByWorker(Wake));
    t := Go(t, ByWorker(Activate));
    t := Go(t, ByWorker(Activated));
    t := Go(t, ByWorker(Sleep));
  }

  /** ... and a mode that has come back leaves an IDR awaited and no replacement owed. */
  lemma ReturnedModeAlone(s: State) returns (t: State)
    requires IsReachable(s) && s.app.On? && Calm(s) && s.f.monitorOn
    ensures IsReachable(t) && t == s.(f := s.f.(waiting := true, replaceOwed := false))
  {
    t := Go(s, ByWorker(Wake));
    t := Go(t, ByWorker(SettleMode));
    t := Go(t, ByWorker(Await));
    t := Go(t, ByWorker(Sleep));
  }

  /** Without a buffer neither the drain nor the replay delivers anything, and both are done. */
  lemma NothingWithoutABuffer(s: State)
    requires s.bufs.list == []
    ensures CopyEnabled(s, Take) ==> ApplyCopy(s, Take) == s.(drain := Resting)
    ensures ReplayCopyEnabled(s, ReplayTake) ==> ApplyReplayCopy(s, ReplayTake) == s.(replay := Quiet)
  {
  }

  lemma EndLaunch(s: State, fails: bool) returns (t: State)
    requires IsReachable(s) && s.drain.Resting? && (s.worker.Launched? || (fails && s.worker.Launching?))
    ensures IsReachable(t)
    ensures t == s.(worker := Asleep, f := s.f.(drainOn := s.f.drainOn && !fails, replaceOwed := s.f.replaceOwed && fails))
  {
    t := Go(s, ByLaunch(if fails then LaunchFails else LaunchDone));
    t := Go(t, ByWorker(Sleep));
  }

  // ----- Runs that show what can go wrong -----

  // From power-up, attached with the placeholder only and one buffer queued.
  lemma ReachSolo(s0: State) returns (s: State)
    requires IsReachable(s0)
    requires s0 == INIT.(node := s0.node, drainLook := s0.drainLook, replayLook := s0.replayLook)
    ensures IsReachable(s)
    ensures s == s0.(app := On, f := Flags(true, true, true, false, true, false), bufs := Buffers([0], [], 1),
                     session := NewSession(s0.node.ioctl.Committing?))
  {
    s := Go(s0, ByOpen(Open));
    s := Go(s, ByQueue(Queue));
    s := StartSolo(s);
  }

  lemma StartSolo(s0: State) returns (s: State)
    requires IsReachable(s0) && s0.app.Opening? && s0.f == INIT.f && !s0.undercut
    ensures IsReachable(s)
    ensures s == s0.(app := On, f := Flags(true, true, true, false, true, false),
                     session := NewSession(s0.node.ioctl.Committing?))
  {
    s := Go(s0, ByOpen(Solo));
    s := Go(s, Advance);
    s := Go(s, Advance);
    s := Go(s, ByOn(Monitor(true)));
  }

  lemma ReplayOnce(s0: State) returns (s: State)
    requires IsReachable(s0) && s0.f.streaming && s0.f.active && !s0.node.raw
    requires s0.replay.Quiet? && !DrainLocks(s0.drain)
    ensures IsReachable(s) && s == s0.(replay := SawActive, replayLook := Look(s0.node.format, false))
  {
    s := s0;
    s := Go(s, ByReplay(ReplayEnter));
    s := Go(s, ByReplay(ReplayLook));
    s := Go(s, ByReplay(ReplayActive));
  }

  lemma ReplayHandsOver(s0: State) returns (s: State)
    requires IsReachable(s0) && s0.replay.SawActive? && |s0.bufs.list| > 0
    ensures IsReachable(s)
    ensures s == s0.(replay := Quiet, bufs := GivenBack(Taken(s0.bufs), First(s0.bufs)),
                     session := Logged(s0, Placeholder, s0.replayLook))
  {
    s := s0;
    s := Go(s, ByReplayCopy(ReplayTake));
    s := Go(s, ByReplayCopy(ReplayDone(true)));
  }

  // S_FMT to the other format, with nothing attached.
  lemma ReachRawNode() returns (s: State)
    ensures IsReachable(s)
    ensures s == INIT.(node := Node(true, true, NoIoctl), drainLook := Look(false, true), replayLook := Look(false, true))
  {
    s := Start();
    s := Go(s, ByIoctl(FormatTest));
    s := Go(s, ByIoctl(Commit));
    s := Go(s, ByIoctl(Latch));
  }

  /** TRY_FMT for the other format, at the wrong moment, hands a placeholder to a raw node. */
  lemma APlaceholderCanReachARawNode() returns (s: State)
    ensures IsReachable(s) && IsSettled(s) && s.app.On? && s.node == Node(true, true, NoIoctl)
    ensures s.session.delivered == [Entry(Placeholder, true, Look(true, false), false)]
  {
    s := ReachRawNode();
    s := ReachSolo(s);
    s := Go(s, ByIoctl(TryFmt(false)));
    s := ReplayOnce(s);
    s := Go(s, ByIoctl(TryDone));
    s := ReplayHandsOver(s);
  }

  /** So does an S_FMT that passed its busy test before the session and commits inside it. */
  lemma ALateCommitCanReachTheWrongNode() returns (s: State)
    ensures IsReachable(s) && s.session.straddled && s.app.On? && s.node.format
    ensures s.session.delivered == [Entry(Placeholder, true, Look(false, true), false)]
  {
    s := Start();
    s := Go(s, ByIoctl(FormatTest));
    s := ReachSolo(s);
    s := ReplayOnce(s);
    s := Go(s, ByIoctl(Commit));
    s := ReplayHandsOver(s);
  }

  // An encoded session on a pipeline started for it, with four buffers queued.
  const FRESH_SESSION: State :=
    INIT.(app := On, f := Flags(true, false, true, true, true, false), bufs := Buffers([0, 1, 2, 3], [], 4))

  lemma QueueTwo(s0: State) returns (s: State)
    requires IsReachable(s0) && s0.app.Opening?
    ensures IsReachable(s) && s == s0.(bufs := Queued(Queued(s0.bufs)))
  {
    s := Go(s0, ByQueue(Queue));
    s := Go(s, ByQueue(Queue));
  }

  lemma ReachFreshSession() returns (s: State)
    ensures IsReachable(s) && s == FRESH_SESSION
  {
    s := Start();
    s := Go(s, ByOpen(Open));
    s := QueueTwo(s);
    s := QueueTwo(s);
    s := StartFresh(s);
  }

  lemma StartFresh(s0: State) returns (s: State)
    requires IsReachable(s0) && s0 == INIT.(app := Opening, bufs := s0.bufs)
    ensures IsReachable(s) && s == s0.(app := On, f := Flags(true, false, true, true, true, false))
  {
    s := s0;
    s := Go(s, ByOpen(Fresh));
    s := Go(s, Advance);
    s := Go(s, Advance);
    s := Go(s, Advance);
    s := Go(s, ByOn(Monitor(true)));
  }

  predicate Encoding(s: State) {
    s.f.streaming && s.f.drainOn && s.drain.Resting? && s.replay.Quiet? && s.node == Node(false, false, NoIoctl)
  }

  lemma ReachTheGate(s0: State, u: Unit) returns (s: State)
    requires IsReachable(s0) && Encoding(s0) && u != Raw
    ensures IsReachable(s) && s == s0.(drain := Gate(u), drainLook := NO_LOOK, undercut := false)
  {
    s := s0;
    s := Go(s, ByEntry(Pick(u)));
    s := Go(s, ByEntry(Check));
    s := Go(s, ByEntry(Lock));
    s := Go(s, ByEntry(Recheck));
  }

  lemma PassTheGate(s0: State) returns (s: State)
    requires IsReachable(s0) && s0.drain.Gate? && !s0.f.active && s0.f.streaming
    requires s0.drain.u == Idr || (s0.drain.u == Dependent && !s0.f.waiting)
    ensures IsReachable(s) && s == s0.(drain := Taking(s0.drain.u))
  {
    s := s0;
    s := Go(s, ByGate(ReadActive(false)));
    s := Go(s, ByGate(Stamp(false)));
    s := Go(s, ByGate(Decide));
    s := Go(s, ByGate(Confirm));
  }

  lemma CopyOver(s0: State) returns (s: State)
    requires IsReachable(s0) && s0.drain.Taking? && |s0.bufs.list| > 0
    ensures IsReachable(s)
    ensures s == s0.(drain := Copied(s0.drain.u, First(s0.bufs)), bufs := Taken(s0.bufs),
                     session := s0.session.(crossed := s0.session.crossed || s0.drain.u == Raw))
  {
    s := s0;
    s := Go(s, ByCopy(Take));
    s := Go(s, ByCopy(Fit(true, false)));
  }

  lemma HandOver(s0: State) returns (s: State)
    requires IsReachable(s0) && s0.drain.Copied?
    ensures IsReachable(s)
    ensures s == s0.(drain := Resting, f := s0.f.(waiting := s0.f.waiting && s0.drain.u != Idr),
                     bufs := GivenBack(s0.bufs, s0.drain.b), session := Logged(s0, Live(s0.drain.u), s0.drainLook))
  {
    s := s0;
    s := Go(s, BySettle(Sync));
    s := Go(s, BySettle(Prove(false)));
    s := Go(s, ByCopy(Finish));
  }

  lemma Deliver(s0: State, u: Unit) returns (s: State)
    requires IsReachable(s0) && Encoding(s0) && !s0.f.active && |s0.bufs.list| > 0
    requires u == Idr || (u == Dependent && !s0.f.waiting)
    ensures IsReachable(s)
    ensures s == s0.(f := s0.f.(waiting := s0.f.waiting && u != Idr), drainLook := NO_LOOK, undercut := false,
                     bufs := GivenBack(Taken(s0.bufs), First(s0.bufs)), session := Logged(s0, Live(u), NO_LOOK))
  {
    s := ReachTheGate(s0, u);
    s := PassTheGate(s);
    s := CopyOver(s);
    s := HandOver(s);
  }

  // TRY_FMT sends the drain down the raw path, whose delivery ends the placeholder.
  lemma CutOff(s0: State) returns (s: State)
    requires IsReachable(s0) && Encoding(s0) && s0.f.active && |s0.bufs.list| > 0
    requires !s0.session.live
    ensures IsReachable(s) && Encoding(s) && s.app == s0.app && s.f == s0.f.(active := false)
    ensures s.bufs == GivenBack(Taken(s0.bufs), First(s0.bufs)) && s.session.severed && !s.session.live
    ensures s.session.straddled == s0.session.straddled && |s.session.delivered| == |s0.session.delivered| + 1
  {
    s := s0;
    s := Go(s, ByIoctl(TryFmt(true)));
    s := Go(s, ByEntry(Pick(Raw)));
    s := Go(s, ByIoctl(TryDone));
    s := Go(s, ByEntry(Check));
    s := CopyOver(s);
    s := Go(s, BySettle(Sync));
    s := Go(s, BySettle(Prove(true)));
    s := Go(s, BySettle(Deactivate));
    s := Go(s, ByCopy(Finish));
  }

  // A recovery pass that loses the lock and one that finds it again, during the copy of an IDR.
  lemma RecoverMeanwhile(s0: State) returns (s: State)
    requires IsReachable(s0) && s0.f.streaming && s0.f.monitorOn && s0.worker.Asleep?
    ensures IsReachable(s) && s == s0.(worker := Awake, f := s0.f.(active := true, waiting := true))
  {
    s := s0;
    s := Go(s, ByWorker(Wake));
    s := Go(s, ByWorker(Activate));
    s := Go(s, ByWorker(Activated));
    s := Go(s, ByWorker(Await));
  }

  // The IDR then clears `waiting`, and the replay, which was queued behind it, still runs.
  lemma ShowPlaceholder(s0: State) returns (s: State)
    requires IsReachable(s0) && s0.drain.Copied? && s0.drain.u == Idr && |s0.bufs.list| > 0
    requires s0.f.streaming && s0.f.active && !s0.node.raw && s0.replay.Quiet?
    ensures IsReachable(s) && s.drain.Resting? && s.replay.Quiet? && s.node == s0.node && s.app == s0.app
    ensures s.f == s0.f.(waiting := false) && |s.bufs.list| == |s0.bufs.list| - 1 && !s.session.live
    ensures s.session.straddled == s0.session.straddled && |s.session.delivered| == |s0.session.delivered| + 2
  {
    s := HandOver(s0);
    s := ReplayOnce(s);
    s := ReplayHandsOver(s);
  }

  lemma ReachPlaceholder() returns (s: State)
    ensures IsReachable(s) && Encoding(s) && s.app.On? && !s.session.straddled && !s.session.live
    ensures s.f.active && !s.f.waiting && |s.bufs.list| == 2 && |s.session.delivered| == 2
  {
    s := ReachFreshSession();
    s := ReachTheGate(s, Idr);
    s := PassTheGate(s);
    s := CopyOver(s);
    s := RecoverMeanwhile(s);
    s := ShowPlaceholder(s);
  }

  /**
   Decoder safety does depend on the windows: an IDR copied while recovery came and went, a
   placeholder, a raw frame that a TRY_FMT let in and that fits the buffer, and then a
   dependent picture without a reference.
   */
  lemma AWindowCanBreakTheDecoder() returns (s: State)
    ensures IsReachable(s) && IsSettled(s) && s.app.On? && !s.node.format && |s.session.delivered| == 4
    ensures s.session.delivered[3].kind == Live(Dependent)
    ensures !exists i :: IsReference(s.session.delivered[..3], i)
  {
    s := ReachPlaceholder();
    s := CutOff(s);
    s := Deliver(s, Dependent);
    assert s.session.delivered[3] == Entry(Live(Dependent), false, NO_LOOK, true);
    EveryPictureIsDecodable(s, 3);
  }

  lemma LeaveAtTheGate(s0: State) returns (s: State)
    requires IsReachable(s0) && s0.app.On? && s0.drain.Gate? && s0.worker.Asleep? && s0.replay.Quiet?
    requires !s0.f.active && s0.f.waiting && !s0.session.live && !s0.undercut
    ensures IsReachable(s)
    ensures s == s0.(app := Off5, undercut := true,
                     f := s0.f.(streaming := false, monitorOn := false, active := false, waiting := false))
  {
    s := s0;
    s := Go(s, ByOn(StreamOff));
    s := Go(s, Advance);
    s := Go(s, Advance);
    s := Go(s, Advance);
    s := Go(s, Advance);
  }

  /**
   The gate alone would deliver an undecodable picture: STREAMOFF clears `waiting` under it.
   Only the look at `streaming` after the gate stops that picture, with a buffer at hand.
   */
  lemma TheGateAloneIsNotEnough() returns (s: State)
    ensures IsReachable(s) && s.drain == Accepted(Dependent) && s.bufs.list != []
    ensures !OnLiveReference(s.session.delivered) && !s.session.severed && !s.f.streaming
  {
    s := ReachFreshSession();
    s := ReachTheGate(s, Dependent);
    s := LeaveAtTheGate(s);
    s := Go(s, ByGate(ReadActive(false)));
    s := Go(s, ByGate(Stamp(false)));
    s := Go(s, ByGate(Decide));
  }
}

/**
 The completion handshake as interleaved atomic steps.

 Four parties share the queue: the card, which posts one report at a time and may post
 again only after being re-armed; the event acknowledger, which holds `event_lock` from
 reading the report to clearing it; the drain worker; and the thread that starts and stops
 the stream.  A stop flushes; a start sends the card at least one command, then flushes and
 restarts.  One step is one critical section (or one buffer re-poison, or one write of the
 ownership ACK).  Memory is sequentially consistent.
 */
module EventProtocol {
  import opened Basics
  import opened EventQueue

  // What the card's EVENT register shows; only video reports are snapshotted.
  datatype Report = Report(e: Event, video: bool)

  // The holder of event_lock.
  datatype Acker =
    | Unlocked
    | Holding(e: Event)                  // report read, completions were being accepted
    | AckingNow(e: Event)                // report dropped, ownership ACK decided but not written
    | Clearing(snapped: Option<Event>)   // about to clear EVENT and re-arm the card

  datatype Worker =
    | Idle
    | Draining(handled: bool)
    | Copying(e: Event)
    | Taking(handled: bool)
    | Repoisoning(handled: bool, todo: set<nat>)
    | Finishing(handled: bool)

  datatype Flusher =
    | NoFlush
    | Commanding                         // a start, about to send its command
    | Commanded                          // a start, the command's look at EVENT behind it
    | Cancelling(restart: bool)
    | Collecting(restart: bool)
    | Restoring(restart: bool, owes: bool, todo: set<nat>)
    | Settling(restart: bool, owes: bool)
    | Restarting

  datatype Logged = Logged(e: Event, kept: bool)

  datatype State = State(
    q: Queue,
    live: Option<Report>, armed: bool, nextId: nat,
    acker: Acker,
    workPending: bool, worker: Worker,
    flusher: Flusher,
    // History.
    arrivals: seq<Logged>,    // every report snapshotted, in order
    base: nat,                // how many of them precede the latest restart
    popped: seq<Event>,       // reports the worker took since then
    discarded: seq<Event>,    // reports a flush threw away since then
    observed: set<Event>,     // video reports an ACK read while completions were accepted
    cleared: set<Event>,      // snapshotted reports whose EVENT word has been cleared
    owed: set<nat>,           // slots of deferred or discarded reports not re-poisoned since
    acks: nat)                // ownership ACKs written

  datatype Step =
    | CardPost(token: nat, video: bool)
    | AckBegin | Snapshot | AckNow | AckClear
    | WorkBegin | WorkPop | WorkCopied | WorkTake | WorkRepoison(slot: nat) | WorkRepoisoned | WorkFinish
    | StartBegin | StartCommand | FlushBegin(restart: bool) | FlushCancelled | FlushCollect | FlushRepoison(target: nat)
    | FlushRepoisoned | FlushAck | DoRestart

  function Init(size: nat): State
    requires 2 <= size
  {
    State(Queue(size - 1, [], false, false, false, {}, 0), None, true, 0, Unlocked,
          false, Idle, NoFlush, [], 0, [], [], {}, {}, {}, 0)
  }

  predicate Enabled(s: State, step: Step) {
    match step
    case CardPost(_, _) => s.live == None && s.armed
    case AckBegin => s.acker == Unlocked
    case Snapshot => s.acker.Holding?
    case AckNow => s.acker.AckingNow?
    case AckClear => s.acker.Clearing?
    case WorkBegin => s.workPending && s.worker == Idle
    case WorkPop => s.worker.Draining?
    case WorkCopied => s.worker.Copying?
    case WorkTake => s.worker.Taking?
    case WorkRepoison(t) => s.worker.Repoisoning? && t in s.worker.todo
    case WorkRepoisoned => s.worker.Repoisoning? && s.worker.todo == {}
    case WorkFinish => s.worker.Finishing? && s.acker == Unlocked
    // Only a stopped stream is started.
    case StartBegin => s.flusher == NoFlush && !s.q.accepting
    // A command that finds a live EVENT waits for event_lock before it goes on.
    case StartCommand => s.flusher == Commanding && (s.live == None || s.acker == Unlocked)
    // The flush of a start that succeeds so far; any other may also be that of a start that failed.
    case FlushBegin(restart) =>
      s.flusher == Commanded || (!restart && (s.flusher == NoFlush || s.flusher == Commanding))
    case FlushCancelled => s.flusher.Cancelling? && s.worker == Idle
    case FlushCollect => s.flusher.Collecting?
    case FlushRepoison(t) => s.flusher.Restoring? && t in s.flusher.todo
    case FlushRepoisoned => s.flusher.Restoring? && s.flusher.todo == {}
    case FlushAck => s.flusher.Settling?
    case DoRestart => s.flusher == Restarting
  }

  predicate ByAcker(step: Step) {
    step.CardPost? || step.AckBegin? || step.Snapshot? || step.AckNow? || step.AckClear?
  }

  predicate ByWorker(step: Step) {
    step.WorkBegin? || step.WorkPop? || step.WorkCopied? || step.WorkTake? ||
    step.WorkRepoison? || step.WorkRepoisoned? || step.WorkFinish?
  }

  predicate ByFlusher(step: Step) {
    !ByAcker(step) && !ByWorker(step)
  }

  function ApplyAcker(s: State, step: Step): State
    requires Enabled(s, step)
    requires ByAcker(step)
  {
    match step
    case CardPost(token, video) =>
      s.(live := Some(Report(Event(s.nextId, token), video)), armed := false, nextId := s.nextId + 1)
    case AckBegin =>
      if s.live.Some? && s.live.value.video && s.q.accepting then
        s.(acker := Holding(s.live.value.e), observed := s.observed + {s.live.value.e})
      else s.(acker := Clearing(None))
    case Snapshot =>
      var e := s.acker.e;
      var (q, r) := Arrive(s.q, e);
      s.(q := q, workPending := s.workPending || r.kick,
         acker := if r.ackNow then AckingNow(e) else Clearing(Some(e)),
         arrivals := s.arrivals + [Logged(e, r.kept)],
         owed := if r.kept || r.ackNow then s.owed else s.owed + Backed(e))
    case AckNow => s.(acker := Clearing(Some(s.acker.e)), acks := s.acks + 1)
    case AckClear =>
      s.(acker := Unlocked, live := None, armed := true,
         cleared := if s.acker.snapped.Some? then s.cleared + {s.acker.snapped.value} else s.cleared)
  }

  function ApplyWorker(s: State, step: Step): State
    requires Enabled(s, step)
    requires ByWorker(step)
  {
    match step
    case WorkBegin => s.(workPending := false, worker := Draining(false))
    case WorkPop =>
      if s.q.pending == [] then s.(worker := Taking(s.worker.handled))
      else s.(q := Pop(s.q), worker := Copying(s.q.pending[0]), popped := s.popped + [s.q.pending[0]])
    case WorkCopied => s.(worker := Draining(true))
    case WorkTake =>
      s.(q := TakeDeferred(s.q),
         worker := Repoisoning(s.worker.handled || s.q.ackDeferred || s.q.dropTokens != {}, s.q.dropTokens))
    case WorkRepoison(t) => s.(worker := s.worker.(todo := s.worker.todo - {t}), owed := s.owed - {t})
    case WorkRepoisoned => s.(worker := Finishing(s.worker.handled))
    case WorkFinish =>
      if !Settled(s.q) then s.(worker := Draining(s.worker.handled))
      else s.(q := TryFinish(s.q), worker := Idle, acks := if s.worker.handled then s.acks + 1 else s.acks)
  }

  function ApplyFlusher(s: State, step: Step): State
    requires Enabled(s, step)
    requires ByFlusher(step)
  {
    match step
    case StartBegin => s.(flusher := Commanding)
    case StartCommand => s.(flusher := Commanded)
    case FlushBegin(restart) => s.(q := s.q.(accepting := false), flusher := Cancelling(restart))
    case FlushCancelled => s.(workPending := false, flusher := Collecting(s.flusher.restart))
    case FlushCollect =>
      var tokens := FlushTokens(s.q);
      s.(q := TakeAll(s.q),
         flusher := Restoring(s.flusher.restart, s.q.pending != [] || s.q.ackDeferred || tokens != {}, tokens),
         discarded := s.discarded + s.q.pending,
         owed := s.owed + BackedAll(s.q.pending))
    case FlushRepoison(t) => s.(flusher := s.flusher.(todo := s.flusher.todo - {t}), owed := s.owed - {t})
    case FlushRepoisoned => s.(flusher := Settling(s.flusher.restart, s.flusher.owes))
    case FlushAck =>
      s.(flusher := if s.flusher.restart then Restarting else NoFlush,
         acks := if s.flusher.owes then s.acks + 1 else s.acks)
    case DoRestart =>
      s.(q := Restart(s.q), flusher := NoFlush, base := |s.arrivals|, popped := [], discarded := [])
  }

  function Apply(s: State, step: Step): State
    requires Enabled(s, step)
  {
    match step
    case CardPost(_, _) => ApplyAcker(s, step)
    case AckBegin => ApplyAcker(s, step)
    case Snapshot => ApplyAcker(s, step)
    case AckNow => ApplyAcker(s, step)
    case AckClear => ApplyAcker(s, step)
    case WorkBegin => ApplyWorker(s, step)
    case WorkPop => ApplyWorker(s, step)
    case WorkCopied => ApplyWorker(s, step)
    case WorkTake => ApplyWorker(s, step)
    case WorkRepoison(_) => ApplyWorker(s, step)
    case WorkRepoisoned => ApplyWorker(s, step)
    case WorkFinish => ApplyWorker(s, step)
    case StartBegin => ApplyFlusher(s, step)
    case StartCommand => ApplyFlusher(s, step)
    case FlushBegin(_) => ApplyFlusher(s, step)
    case FlushCancelled => ApplyFlusher(s, step)
    case FlushCollect => ApplyFlusher(s, step)
    case FlushRepoison(_) => ApplyFlusher(s, step)
    case FlushRepoisoned => ApplyFlusher(s, step)
    case FlushAck => ApplyFlusher(s, step)
    case DoRestart => ApplyFlusher(s, step)
  }

  // Every step is enabled when its turn comes.
  predicate Possible(s: State, run: seq<Step>)
    decreases |run|
  {
    run == [] || (Enabled(s, run[0]) && Possible(Apply(s, run[0]), run[1..]))
  }

  function After(s: State, run: seq<Step>): State
    requires Possible(s, run)
    decreases |run|
  {
    if run == [] then s else After(Apply(s, run[0]), run[1..])
  }

  // ----- Histories -----

  function Kept(log: seq<Logged>): seq<Event> {
    if log == [] then []
    else Kept(log[..|log| - 1]) + (if log[|log| - 1].kept then [log[|log| - 1].e] else [])
  }

  function Missed(log: seq<Logged>): nat {
    if log == [] then 0 else Missed(log[..|log| - 1]) + (if log[|log| - 1].kept then 0 else 1)
  }

  lemma {:induction false} KeptAndMissedAreAll(log: seq<Logged>)
    ensures |Kept(log)| + Missed(log) == |log|
  {
    if log != [] {
      KeptAndMissedAreAll(log[..|log| - 1]);
    }
  }

  predicate Increasing(log: seq<Logged>) {
    forall i, j :: 0 <= i < j < |log| ==> log[i].e.id < log[j].e.id
  }

  predicate Below(log: seq<Logged>, id: nat) {
    forall i :: 0 <= i < |log| ==> log[i].e.id < id
  }

  function Since(s: State): seq<Logged>
    requires s.base <= |s.arrivals|
  {
    s.arrivals[s.base..]
  }

  function Seen(log: seq<Logged>): set<Event> {
    set i | 0 <= i < |log| :: log[i].e
  }

  // ----- The invariant, one concern at a time -----

  function WorkerTodo(s: State): set<nat> {
    if s.worker.Repoisoning? then s.worker.todo else {}
  }

  function FlusherTodo(s: State): set<nat> {
    if s.flusher.Restoring? then s.flusher.todo else {}
  }

  predicate AtWork(s: State) { s.workPending || s.worker != Idle }

  // Past the point where the flush has collected everything, and until the next restart.
  predicate Quiet(s: State) {
    !s.q.accepting && !s.flusher.Cancelling? && !s.flusher.Collecting?
  }

  predicate Scheduling(s: State) {
    && 1 <= s.q.capacity && |s.q.pending| <= s.q.capacity
    && (s.q.accepting ==> s.flusher == NoFlush)
    && (!Settled(s.q) ==> s.q.drainScheduled)
    && !(s.workPending && s.worker != Idle)
    && (if s.flusher.Collecting? then !AtWork(s) else s.q.drainScheduled == AtWork(s))
    && (Quiet(s) ==> Settled(s.q) && !AtWork(s))
    && (s.acker.AckingNow? ==> Settled(s.q) && !s.q.drainScheduled && !AtWork(s))
  }

  // A start whose command has been sent and which has not restarted the queue yet.
  predicate PastCommand(f: Flusher) {
    || f == Commanded || f == Restarting
    || ((f.Cancelling? || f.Collecting? || f.Restoring? || f.Settling?) && f.restart)
  }

  // The start's command has waited for whoever might still snapshot or acknowledge.
  predicate Serialised(s: State) {
    && (s.acker.AckingNow? ==> !s.q.accepting)
    && (PastCommand(s.flusher) ==> !s.q.accepting && !s.acker.Holding? && !s.acker.AckingNow?)
  }

  predicate Owing(s: State) {
    s.owed <= s.q.dropTokens + WorkerTodo(s) + FlusherTodo(s)
  }

  // The report under event_lock has been snapshotted but not yet cleared.
  predicate InFlight(acker: Acker) {
    acker.AckingNow? || (acker.Clearing? && acker.snapped.Some?)
  }

  function Current(acker: Acker): set<Event> {
    match acker
    case AckingNow(e) => {e}
    case Clearing(Some(e)) => {e}
    case _ => {}
  }

  predicate Snapshots(arrivals: seq<Logged>, nextId: nat, live: Option<Report>, acker: Acker,
                      cleared: set<Event>, observed: set<Event>)
  {
    && Increasing(arrivals) && Below(arrivals, nextId)
    && (live.Some? ==> live.value.e.id < nextId)
    && (acker.Holding? ==> live == Some(Report(acker.e, true)))
    && (InFlight(acker) ==> arrivals != [] && Current(acker) == {arrivals[|arrivals| - 1].e})
    && (InFlight(acker) ==> live == Some(Report(arrivals[|arrivals| - 1].e, true)))
    && (live.Some? && !InFlight(acker) ==> Below(arrivals, live.value.e.id))
    && Seen(arrivals) == cleared + Current(acker)
    && observed == Seen(arrivals) + (if acker.Holding? then {acker.e} else {})
  }

  predicate Snapshotting(s: State) {
    Snapshots(s.arrivals, s.nextId, s.live, s.acker, s.cleared, s.observed)
  }

  predicate Counts(since: seq<Logged>, popped: seq<Event>, discarded: seq<Event>, pending: seq<Event>, drops: nat) {
    popped + discarded + pending == Kept(since) && drops == Missed(since) + |discarded|
  }

  predicate Counting(s: State) {
    && s.base <= |s.arrivals|
    && (s.discarded != [] ==> !s.q.accepting && s.q.pending == [])
    && Counts(s.arrivals[s.base..], s.popped, s.discarded, s.q.pending, s.q.drops)
  }

  predicate Inv(s: State) {
    Scheduling(s) && Serialised(s) && Owing(s) && Snapshotting(s) && Counting(s)
  }

  lemma AckerSchedules(s: State, step: Step)
    requires Scheduling(s) && Enabled(s, step) && ByAcker(step)
    ensures Scheduling(ApplyAcker(s, step))
  {
  }

  lemma WorkerSchedules(s: State, step: Step)
    requires Scheduling(s) && Enabled(s, step) && ByWorker(step)
    ensures Scheduling(ApplyWorker(s, step))
  {
  }

  lemma FlusherSchedules(s: State, step: Step)
    requires Scheduling(s) && Enabled(s, step) && ByFlusher(step)
    ensures Scheduling(ApplyFlusher(s, step))
  {
  }

  lemma SchedulingKept(s: State, step: Step)
    requires Scheduling(s) && Enabled(s, step)
    ensures Scheduling(Apply(s, step))
  {
    if ByAcker(step) {
      assert Apply(s, step) == ApplyAcker(s, step);
      AckerSchedules(s, step);
    } else if ByWorker(step) {
      assert Apply(s, step) == ApplyWorker(s, step);
      WorkerSchedules(s, step);
    } else {
      assert Apply(s, step) == ApplyFlusher(s, step);
      FlusherSchedules(s, step);
    }
  }

  lemma AckerSerialises(s: State, step: Step)
    requires Scheduling(s) && Serialised(s) && Enabled(s, step) && ByAcker(step)
    ensures Serialised(ApplyAcker(s, step))
  {
  }

  lemma FlusherSerialises(s: State, step: Step)
    requires Scheduling(s) && Snapshotting(s) && Serialised(s) && Enabled(s, step) && ByFlusher(step)
    ensures Serialised(ApplyFlusher(s, step))
  {
  }

  lemma SerialisedKept(s: State, step: Step)
    requires Scheduling(s) && Snapshotting(s) && Serialised(s) && Enabled(s, step)
    ensures Serialised(Apply(s, step))
  {
    if ByAcker(step) {
      assert Apply(s, step) == ApplyAcker(s, step);
      AckerSerialises(s, step);
    } else if ByWorker(step) {
      assert Apply(s, step) == ApplyWorker(s, step);
    } else {
      assert Apply(s, step) == ApplyFlusher(s, step);
      FlusherSerialises(s, step);
    }
  }

  lemma OwingKept(s: State, step: Step)
    requires Scheduling(s) && Owing(s) && Enabled(s, step)
    ensures Owing(Apply(s, step))
  {
    if ByAcker(step) {
      assert Apply(s, step) == ApplyAcker(s, step);
    } else if ByWorker(step) {
      assert Apply(s, step) == ApplyWorker(s, step);
    } else {
      assert Apply(s, step) == ApplyFlusher(s, step);
    }
  }

  lemma SnapshotKept(s: State)
    requires Snapshotting(s) && s.acker.Holding?
    ensures Snapshotting(Apply(s, Snapshot))
  {
    var t := Apply(s, Snapshot);
    var n := |s.arrivals|;
    assert t.arrivals[..n] == s.arrivals && t.arrivals[n].e == s.acker.e;
    assert Current(s.acker) == {} && Current(t.acker) == {s.acker.e};
    assert Seen(t.arrivals) == Seen(s.arrivals) + {s.acker.e} by {
      assert forall i :: 0 <= i < n ==> t.arrivals[i] == s.arrivals[i];
    }
  }

  lemma PostKept(s: State, token: nat, video: bool)
    requires Snapshotting(s) && Enabled(s, CardPost(token, video))
    ensures Snapshotting(ApplyAcker(s, CardPost(token, video)))
  {
  }

  lemma BeginKept(s: State)
    requires Snapshotting(s) && Enabled(s, AckBegin)
    ensures Snapshotting(ApplyAcker(s, AckBegin))
  {
    if s.live.Some? && s.live.value.video && s.q.accepting {
      ReadKept(s.arrivals, s.nextId, s.live.value.e, s.cleared, s.observed);
    }
  }

  lemma ReadKept(arrivals: seq<Logged>, nextId: nat, e: Event, cleared: set<Event>, observed: set<Event>)
    requires Snapshots(arrivals, nextId, Some(Report(e, true)), Unlocked, cleared, observed)
    ensures Snapshots(arrivals, nextId, Some(Report(e, true)), Holding(e), cleared, observed + {e})
  {
  }

  lemma NowKept(s: State)
    requires Snapshotting(s) && Enabled(s, AckNow)
    ensures Snapshotting(ApplyAcker(s, AckNow))
  {
  }

  lemma ClearKept(s: State)
    requires Snapshotting(s) && Enabled(s, AckClear)
    ensures Snapshotting(ApplyAcker(s, AckClear))
  {
  }

  lemma WorkerSnapshots(s: State, step: Step)
    requires Snapshotting(s) && Enabled(s, step) && ByWorker(step)
    ensures Snapshotting(ApplyWorker(s, step))
  {
  }

  lemma FlusherSnapshots(s: State, step: Step)
    requires Snapshotting(s) && Enabled(s, step) && ByFlusher(step)
    ensures Snapshotting(ApplyFlusher(s, step))
  {
  }

  lemma SnapshottingKept(s: State, step: Step)
    requires Snapshotting(s) && Enabled(s, step)
    ensures Snapshotting(Apply(s, step))
  {
    if ByAcker(step) {
      match step
      case CardPost(token, video) => PostKept(s, token, video);
      case AckBegin => BeginKept(s);
      case Snapshot => SnapshotKept(s);
      case AckNow => NowKept(s);
      case AckClear => ClearKept(s);
    } else if ByWorker(step) {
      assert Apply(s, step) == ApplyWorker(s, step);
      WorkerSnapshots(s, step);
    } else {
      assert Apply(s, step) == ApplyFlusher(s, step);
      FlusherSnapshots(s, step);
    }
  }

  lemma CountingKept(s: State, step: Step)
    requires Scheduling(s) && Counting(s) && Enabled(s, step)
    ensures Counting(Apply(s, step))
  {
    if step.Snapshot? {
      ArrivalCounted(s);
    } else if step.WorkPop? {
      PopCounted(s);
    } else if step.FlushCollect? {
      CollectCounted(s);
    } else if step.DoRestart? {
      assert Since(Apply(s, step)) == [];
    } else {
      OthersCounted(s, step);
    }
  }

  lemma OthersCounted(s: State, step: Step)
    requires Scheduling(s) && Counting(s) && Enabled(s, step)
    requires !step.Snapshot? && !step.WorkPop? && !step.FlushCollect? && !step.DoRestart?
    ensures Counting(Apply(s, step))
  {
    var t := Apply(s, step);
    assert (t.arrivals, t.base, t.popped, t.discarded, t.q.pending, t.q.drops) ==
           (s.arrivals, s.base, s.popped, s.discarded, s.q.pending, s.q.drops);
  }

  // A report that arrives is queued behind the others, or counted.
  lemma OneMoreCounted(since: seq<Logged>, popped: seq<Event>, discarded: seq<Event>, pending: seq<Event>,
                       drops: nat, l: Logged)
    requires Counts(since, popped, discarded, pending, drops)
    ensures l.kept ==> Counts(since + [l], popped, discarded, pending + [l.e], drops)
    ensures !l.kept ==> Counts(since + [l], popped, discarded, pending, drops + 1)
  {
    assert (since + [l])[..|since|] == since;
    assert popped + discarded + (pending + [l.e]) == popped + discarded + pending + [l.e];
  }

  lemma TailGrows(log: seq<Logged>, base: nat, l: Logged)
    requires base <= |log|
    ensures (log + [l])[base..] == log[base..] + [l]
  {
  }

  lemma ArrivalCounted(s: State)
    requires Counting(s) && s.acker.Holding?
    ensures Counting(Apply(s, Snapshot))
  {
    var l := Logged(s.acker.e, Arrive(s.q, s.acker.e).1.kept);
    TailGrows(s.arrivals, s.base, l);
    OneMoreCounted(s.arrivals[s.base..], s.popped, s.discarded, s.q.pending, s.q.drops, l);
  }

  lemma PopCounted(s: State)
    requires Counting(s) && s.worker.Draining?
    ensures Counting(Apply(s, WorkPop))
  {
    if s.q.pending != [] {
      var t := Apply(s, WorkPop);
      assert s.q.pending == [s.q.pending[0]] + t.q.pending;
      assert t.popped + t.discarded + t.q.pending == s.popped + s.discarded + s.q.pending;
    }
  }

  lemma CollectCounted(s: State)
    requires Scheduling(s) && Counting(s) && s.flusher.Collecting?
    ensures Counting(Apply(s, FlushCollect))
  {
    assert s.popped + s.discarded + s.q.pending == s.popped + (s.discarded + s.q.pending) + [];
  }

  lemma {:induction false} InvAfter(s: State, run: seq<Step>)
    requires Inv(s) && Possible(s, run)
    ensures Inv(After(s, run))
    decreases |run|
  {
    if run != [] {
      SchedulingKept(s, run[0]);
      SerialisedKept(s, run[0]);
      OwingKept(s, run[0]);
      SnapshottingKept(s, run[0]);
      CountingKept(s, run[0]);
      InvAfter(Apply(s, run[0]), run[1..]);
    }
  }

  lemma Reachable(size: nat, run: seq<Step>)
    requires 2 <= size && Possible(Init(size), run)
    ensures Inv(After(Init(size), run))
  {
    assert Since(Init(size)) == [];
    InvAfter(Init(size), run);
  }

  // ----- Ownership -----

  // What an ACK finds, in any state that keeps the invariant.
  lemma AckFinds(s: State, step: Step)
    requires Scheduling(s) && Serialised(s) && Owing(s) && Enabled(s, step) && Apply(s, step).acks != s.acks
    ensures Settled(s.q) && !s.worker.Copying? && WorkerTodo(s) == {}
    ensures s.owed != {} ==> step == AckNow && s.flusher.Restoring? && !s.flusher.restart && s.owed <= s.flusher.todo
    ensures s.q.accepting ==> s.owed == {} && step == WorkFinish
    ensures step.FlushAck? ==> s.owed == {} && !AtWork(s)
  {
  }

  /**
   Whoever writes the ownership ACK, and however the parties interleave, at that moment
   nothing is queued, nothing is being copied and nothing is deferred.  The slot of a report
   that was deferred or discarded can still await its re-poison only for an immediate ACK
   written while a stop's flush is at just that; never while completions are accepted, and
   never for the flush's own ACK.
   */
  lemma AckFindsNothingOutstanding(size: nat, run: seq<Step>, step: Step)
    requires 2 <= size && Possible(Init(size), run)
    requires Enabled(After(Init(size), run), step)
    requires Apply(After(Init(size), run), step).acks != After(Init(size), run).acks
    ensures var s := After(Init(size), run);
            && Settled(s.q) && !s.worker.Copying? && WorkerTodo(s) == {}
            && (s.owed != {} ==>
                  step == AckNow && s.flusher.Restoring? && !s.flusher.restart && s.owed <= s.flusher.todo)
            && (s.q.accepting ==> s.owed == {})
            && (step.FlushAck? ==> s.owed == {} && !AtWork(s))
  {
    Reachable(size, run);
    AckFinds(After(Init(size), run), step);
  }

  /**
   A dropped report is acknowledged at once exactly when completions are refused and nothing
   is queued or scheduled.  Nothing is being copied then, and its slot does not join `owed`.
   */
  lemma AtOnceOnlyWhenRefused(size: nat, run: seq<Step>)
    requires 2 <= size && Possible(Init(size), run)
    requires After(Init(size), run).acker.Holding?
    ensures var s := After(Init(size), run);
            Apply(s, Snapshot).acker.AckingNow? <==> !s.q.accepting && Settled(s.q) && !s.q.drainScheduled
    ensures var s := After(Init(size), run);
            Apply(s, Snapshot).acker.AckingNow? ==> !s.worker.Copying? && Apply(s, Snapshot).owed == s.owed
  {
    Reachable(size, run);
    CapacityFixed(Init(size), run);
  }

  /** A report read while completions are accepted is queued as long as there is room, and a drain with it. */
  lemma KeptWhileThereIsRoom(size: nat, run: seq<Step>)
    requires 2 <= size && Possible(Init(size), run)
    requires After(Init(size), run).acker.Holding? && After(Init(size), run).q.accepting
    requires |After(Init(size), run).q.pending| < size - 1
    ensures var s := After(Init(size), run);
            var t := Apply(s, Snapshot);
            && t.q == s.q.(pending := s.q.pending + [s.acker.e], drainScheduled := true) && AtWork(t)
            && t.acker == Clearing(Some(s.acker.e)) && t.owed == s.owed && t.acks == s.acks
  {
    Reachable(size, run);
    CapacityFixed(Init(size), run);
  }

  /** Overflow never acknowledges at once: the drop is deferred to a drain already scheduled. */
  lemma OverflowDefersItsAck(size: nat, run: seq<Step>)
    requires 2 <= size && Possible(Init(size), run)
    requires After(Init(size), run).acker.Holding?
    requires |After(Init(size), run).q.pending| == After(Init(size), run).q.capacity
    ensures var s := After(Init(size), run);
            var t := Apply(s, Snapshot);
            && t.acks == s.acks && !t.acker.AckingNow?
            && t.q.ackDeferred && Backed(s.acker.e) <= t.q.dropTokens * t.owed
            && t.q.drainScheduled && t.q.pending == s.q.pending && t.q.drops == s.q.drops + 1
  {
    Reachable(size, run);
  }

  /**
   While completions are accepted the only ownership ACK is the drain's final transaction.
   An ACK decided at once never lands there: before a start accepts completions again, its
   command has waited for the lock under which that ACK is written.
   */
  lemma OnlyTheDrainAcksWhileAccepting(size: nat, run: seq<Step>, step: Step)
    requires 2 <= size && Possible(Init(size), run)
    requires Enabled(After(Init(size), run), step)
    ensures var s := After(Init(size), run);
            s.q.accepting && Apply(s, step).acks != s.acks ==> step == WorkFinish
    ensures After(Init(size), run).acker.AckingNow? ==> !After(Init(size), run).q.accepting
  {
    var s := After(Init(size), run);
    Reachable(size, run);
    if Apply(s, step).acks != s.acks {
      AckFinds(s, step);
    }
  }

  ghost predicate IsReachable(size: nat, s: State)
    requires 2 <= size
  {
    exists run :: Possible(Init(size), run) && s == After(Init(size), run)
  }

  lemma {:induction false} Snoc(s: State, run: seq<Step>, step: Step)
    requires Possible(s, run) && Enabled(After(s, run), step)
    ensures Possible(s, run + [step]) && After(s, run + [step]) == Apply(After(s, run), step)
    decreases |run|
  {
    if run == [] {
      assert [step][1..] == [];
    } else {
      Snoc(Apply(s, run[0]), run[1..], step);
      assert (run + [step])[1..] == run[1..] + [step];
    }
  }

  lemma Go(size: nat, s: State, step: Step) returns (t: State)
    requires 2 <= size && IsReachable(size, s) && Enabled(s, step)
    ensures t == Apply(s, step) && IsReachable(size, t)
  {
    var run :| Possible(Init(size), run) && s == After(Init(size), run);
    Snoc(Init(size), run, step);
    t := Apply(s, step);
  }

  lemma FirstCommand(size: nat) returns (s: State)
    requires 2 <= size
    ensures IsReachable(size, s) && s == Init(size).(flusher := Commanded)
  {
    s := Init(size);
    assert Possible(s, []) && After(s, []) == s;
    s := Go(size, s, StartBegin);
    s := Go(size, s, StartCommand);
  }

  // The stream started for the first time.
  lemma FirstStart(size: nat) returns (s: State)
    requires 2 <= size
    ensures IsReachable(size, s) && s == Init(size).(q := Restart(Init(size).q))
  {
    s := FirstCommand(size);
    s := Go(size, s, FlushBegin(true));
    s := Go(size, s, FlushCancelled);
    s := Go(size, s, FlushCollect);
    s := Go(size, s, FlushRepoisoned);
    s := Go(size, s, FlushAck);
    s := Go(size, s, DoRestart);
  }

  // One report queued, and the next one read but not yet snapshotted.
  lemma OneQueuedOneRead(size: nat) returns (s: State)
    requires 2 <= size
    ensures IsReachable(size, s) && s.acker.Holding? && s.flusher == NoFlush && s.worker == Idle
    ensures s.q == Restart(s.q).(pending := [Event(0, 0)], drainScheduled := true) && s.owed == {}
  {
    s := FirstStart(size);
    s := Go(size, s, CardPost(0, true));
    s := Go(size, s, AckBegin);
    s := Go(size, s, Snapshot);
    s := Go(size, s, AckClear);
    s := Go(size, s, CardPost(1, true));
    s := Go(size, s, AckBegin);
  }

  /** A stop's flush can find one report queued and the next one just read, then ACK the latter first. */
  lemma AnAckCanPrecedeARepoison(size: nat) returns (s: State)
    requires 2 <= size
    ensures IsReachable(size, s) && Enabled(s, AckNow) && Apply(s, AckNow).acks == s.acks + 1
    ensures s.flusher.Restoring? && s.owed == {0}
  {
    s := OneQueuedOneRead(size);
    var queued := s.q.pending;
    assert BackedAll(queued) == {0} by { assert queued[1..] == []; }
    s := Go(size, s, FlushBegin(false));
    s := Go(size, s, FlushCancelled);
    s := Go(size, s, FlushCollect);
    s := Go(size, s, Snapshot);
  }

  // ----- No stranded work -----

  /**
   Anything queued, deferred or dropped has a drain scheduled for it, a scheduled drain is
   queued or running while completions are accepted, and after a flush all is clear.
   */
  lemma NothingIsStranded(size: nat, run: seq<Step>)
    requires 2 <= size && Possible(Init(size), run)
    ensures var s := After(Init(size), run);
            && (!Settled(s.q) ==> s.q.drainScheduled)
            && (s.q.accepting ==> s.q.drainScheduled == AtWork(s))
            && (Quiet(s) ==> Settled(s.q) && !s.q.drainScheduled && !AtWork(s))
  {
    Reachable(size, run);
  }

  // Something this drain pass will have to acknowledge.
  predicate OwesAck(s: State) {
    || !Settled(s.q) || s.worker.Copying?
    || (s.worker.Draining? && s.worker.handled) || (s.worker.Taking? && s.worker.handled)
    || (s.worker.Repoisoning? && s.worker.handled) || (s.worker.Finishing? && s.worker.handled)
  }

  // The worker has gone past work that arrived later, and must loop once more.
  predicate Behind(s: State) {
    || ((s.worker.Taking? || s.worker.Repoisoning? || s.worker.Finishing?) && s.q.pending != [])
    || ((s.worker.Repoisoning? || s.worker.Finishing?) && !Settled(s.q))
  }

  function Distance(s: State): nat {
    match s.worker
    case Idle => if s.workPending then 6 + 2 * |s.q.pending| + |s.q.dropTokens| else 0
    case Draining(_) => 5 + 2 * |s.q.pending| + |s.q.dropTokens|
    case Copying(_) => 6 + 2 * |s.q.pending| + |s.q.dropTokens|
    case Taking(_) => 4 + |s.q.dropTokens|
    case Repoisoning(_, todo) => 2 + |todo|
    case Finishing(_) => 1
  }

  // The worker's next step.
  ghost function NextWork(s: State): Step
    requires AtWork(s)
  {
    match s.worker
    case Idle => WorkBegin
    case Draining(_) => WorkPop
    case Copying(_) => WorkCopied
    case Taking(_) => WorkTake
    case Repoisoning(_, todo) =>
      if todo == {} then WorkRepoisoned else (var t :| t in todo; WorkRepoison(t))
    case Finishing(_) => WorkFinish
  }

  // One worker step comes closer to the end ...
  lemma WorkProgress(s: State)
    requires Scheduling(s) && AtWork(s) && !s.worker.Repoisoning? && s.acker == Unlocked
    ensures Enabled(s, NextWork(s))
    ensures var t := ApplyWorker(s, NextWork(s));
            && (Behind(t) ==> Behind(s))
            && (Behind(s) == Behind(t) ==> Distance(t) < Distance(s))
  {
  }

  lemma RepoisonProgress(s: State)
    requires s.worker.Repoisoning?
    ensures Enabled(s, NextWork(s))
    ensures var t := ApplyWorker(s, NextWork(s));
            Behind(s) == Behind(t) && Distance(t) < Distance(s)
  {
    if s.worker.todo != {} {
      var t := NextWork(s).slot;
      assert |s.worker.todo - {t}| < |s.worker.todo|;
    }
  }

  // ... and keeps what is owed.
  lemma WorkConserves(s: State)
    requires Scheduling(s) && AtWork(s) && s.acker == Unlocked && Enabled(s, NextWork(s))
    ensures var t := ApplyWorker(s, NextWork(s));
            && t.popped + t.q.pending == s.popped + s.q.pending
            && t.acks + (if OwesAck(t) then 1 else 0) == s.acks + (if OwesAck(s) then 1 else 0)
            && t.arrivals == s.arrivals && t.q.drops == s.q.drops
            && t.acker == s.acker && t.flusher == s.flusher
  {
    if s.worker.Draining? && s.q.pending != [] {
      assert s.q.pending == [s.q.pending[0]] + s.q.pending[1..];
    }
  }

  /**
   Left to itself the worker always completes: it pops everything queued, in order, loops
   for what arrived while it copied, and ends idle with one ACK if there was anything to
   acknowledge.
   */
  lemma {:induction false} DrainCompletes(s: State) returns (run: seq<Step>)
    requires Scheduling(s) && s.acker == Unlocked && !s.flusher.Collecting?
    ensures Possible(s, run)
    ensures var t := After(s, run);
            && !AtWork(t) && Settled(t.q) && !t.q.drainScheduled
            && t.popped == s.popped + s.q.pending
            && t.acks == s.acks + (if OwesAck(s) then 1 else 0)
            && t.arrivals == s.arrivals && t.q.drops == s.q.drops
    decreases Behind(s), Distance(s)
  {
    if !AtWork(s) {
      run := [];
      assert s.popped + s.q.pending == s.popped;
    } else {
      var step := NextWork(s);
      if s.worker.Repoisoning? { RepoisonProgress(s); } else { WorkProgress(s); }
      WorkConserves(s);
      SchedulingKept(s, step);
      var t := ApplyWorker(s, step);
      assert Apply(s, step) == t;
      var rest := DrainCompletes(t);
      run := [step] + rest;
      assert run[1..] == rest && run[0] == step;
    }
  }

  lemma {:induction false} RestoringCompletes(s: State) returns (run: seq<Step>)
    requires s.flusher.Restoring?
    ensures Possible(s, run)
    ensures After(s, run) == s.(flusher := Settling(s.flusher.restart, s.flusher.owes), owed := s.owed - s.flusher.todo)
    decreases |s.flusher.todo|
  {
    if s.flusher.todo == {} {
      run := [FlushRepoisoned];
      assert run[1..] == [] && s.owed - {} == s.owed;
    } else {
      var t :| t in s.flusher.todo;
      var next := Apply(s, FlushRepoison(t));
      assert |next.flusher.todo| < |s.flusher.todo|;
      assert s.owed - {t} - next.flusher.todo == s.owed - s.flusher.todo;
      var rest := RestoringCompletes(next);
      run := [FlushRepoison(t)] + rest;
      assert run[1..] == rest && run[0] == FlushRepoison(t);
    }
  }

  /**
   A flush that has waited for the worker always completes: it discards what is queued,
   re-poisons every slot a discarded or dropped report names, and acknowledges once, exactly if
   there was anything to acknowledge.
   */
  lemma FlushCompletes(s: State) returns (run: seq<Step>)
    requires s.flusher.Collecting?
    ensures Possible(s, run)
    ensures var t := After(s, run);
            && t.flusher == (if s.flusher.restart then Restarting else NoFlush) && t.q == TakeAll(s.q)
            && t.acks == s.acks + (if Settled(s.q) then 0 else 1)
            && t.discarded == s.discarded + s.q.pending
            && t.owed == s.owed - (s.q.dropTokens + BackedAll(s.q.pending))
  {
    var restoring := Apply(s, FlushCollect);
    var middle := RestoringCompletes(restoring);
    var settling := After(restoring, middle);
    Snoc(restoring, middle, FlushAck);
    run := [FlushCollect] + (middle + [FlushAck]);
    assert run[1..] == middle + [FlushAck] && run[0] == FlushCollect;
    assert restoring.owed - restoring.flusher.todo == s.owed - (s.q.dropTokens + BackedAll(s.q.pending));
  }

  // ----- First in, first out; nothing lost, nothing twice -----

  /** Since the last restart: reports leave in the order they came, and every one is accounted for. */
  lemma FirstInFirstOut(size: nat, run: seq<Step>)
    requires 2 <= size && Possible(Init(size), run)
    ensures var s := After(Init(size), run);
            && s.base <= |s.arrivals|
            && s.popped + s.discarded + s.q.pending == Kept(Since(s))
            && |Since(s)| == |s.popped| + |s.q.pending| + s.q.drops
            && |s.q.pending| <= size - 1
  {
    Reachable(size, run);
    KeptAndMissedAreAll(Since(After(Init(size), run)));
    CapacityFixed(Init(size), run);
  }

  lemma {:induction false} CapacityFixed(s: State, run: seq<Step>)
    requires Possible(s, run)
    ensures After(s, run).q.capacity == s.q.capacity
    decreases |run|
  {
    if run != [] {
      CapacityFixed(Apply(s, run[0]), run[1..]);
    }
  }

  /**
   A video report that an ACK reads while completions are accepted is snapshotted exactly
   once before it is cleared: between two ACKs the reports read, the reports snapshotted
   and the reports cleared are the same set, and no report occurs twice in the history.
   */
  lemma SnapshottedExactlyOnce(size: nat, run: seq<Step>)
    requires 2 <= size && Possible(Init(size), run)
    ensures var s := After(Init(size), run);
            && s.cleared <= Seen(s.arrivals) <= s.observed
            && (s.acker == Unlocked ==> s.observed == Seen(s.arrivals) == s.cleared)
            && (forall i, j :: 0 <= i < j < |s.arrivals| ==> s.arrivals[i].e.id < s.arrivals[j].e.id)
            && (s.acker.Clearing? && s.live.Some? && s.live.value.e in s.observed ==>
                  s.live.value.e in Seen(s.arrivals))
  {
    Reachable(size, run);
  }
}

/** The commands sent to the card, and what a record of them says. */
module CardLog {

  datatype Command = SetBuf | SetVic | SetEnc | SetAic(on: bool) | PostProc | StartStreaming | StopStreaming

  type Log = seq<Command>

  // spawns: SET_VICs sent, answered or not.  stops: STOPs sent.  unstopped: SET_VICs with no
  // STOP after them.  registered: buffers have been registered since the latest SET_VIC.
  // sound: at no moment were two spawned encoders without a STOP, and every kick found
  // buffers registered since the latest spawn.
  datatype Summary = Summary(spawns: nat, stops: nat, unstopped: nat, registered: bool, sound: bool)

  function Next(s: Summary, c: Command): Summary {
    match c
    case SetVic => Summary(s.spawns + 1, s.stops, s.unstopped + 1, false, s.sound && s.unstopped == 0)
    case StopStreaming => Summary(s.spawns, s.stops + 1, 0, s.registered, s.sound)
    case SetBuf => s.(registered := true)
    case StartStreaming => s.(sound := s.sound && s.registered)
    case _ => s
  }

  function Summarize(log: Log): Summary {
    if log == [] then Summary(0, 0, 0, false, true)
    else Next(Summarize(log[..|log| - 1]), log[|log| - 1])
  }

  lemma Appended(log: Log, c: Command)
    ensures Summarize(log + [c]) == Next(Summarize(log), c)
  {
    assert (log + [c])[..|log|] == log;
  }

  // ----- Sequences of commands -----

  // Behind `before` the commands of `script` were sent in order, up to the first that was not
  // answered with 0; that answer is the result.
  predicate Played(answers: nat -> int, before: Log, script: Log, after: Log, ret: int) {
    var n := |after| - |before|;
    && 0 <= n <= |script| && after == before + script[..n]
    && (ret == 0 ==> n == |script| && AllZero(answers, |before|, |after|))
    && (ret != 0 ==> 0 < n && AllZero(answers, |before|, |after| - 1) && ret == answers(|after| - 1))
  }

  predicate AllZero(answers: nat -> int, from: nat, to: nat) {
    forall k :: from <= k < to ==> answers(k) == 0
  }

  lemma PlayedOne(answers: nat -> int, before: Log, c: Command)
    ensures Played(answers, before, [c], before + [c], answers(|before|))
  {
  }

  lemma PlayedNone(answers: nat -> int, before: Log)
    ensures Played(answers, before, [], before, 0)
  {
  }

  // Such a sequence succeeds exactly when every one of its commands is answered with 0.
  lemma PlayedWell(answers: nat -> int, before: Log, script: Log, after: Log, ret: int)
    requires Played(answers, before, script, after, ret)
    ensures ret == 0 <==> AllZero(answers, |before|, |before| + |script|)
  {
  }

  lemma PlayedOn(answers: nat -> int, before: Log, first: Log, middle: Log, second: Log, after: Log, ret: int)
    requires Played(answers, before, first, middle, 0) && Played(answers, middle, second, after, ret)
    ensures Played(answers, before, first + second, after, ret)
  {
    var n := |after| - |middle|;
    assert (first + second)[..|first| + n] == first + second[..n];
  }

  lemma Halted(answers: nat -> int, before: Log, first: Log, second: Log, after: Log, ret: int)
    requires Played(answers, before, first, after, ret) && ret != 0
    ensures Played(answers, before, first + second, after, ret)
  {
    var n := |after| - |before|;
    assert (first + second)[..n] == first[..n];
  }

  // ----- What a sound summary means for the record itself -----

  // A spawn at `i` with no STOP before `n`.
  predicate Lingers(log: Log, i: nat, n: nat) {
    i < n <= |log| && log[i] == SetVic && forall k :: i < k < n ==> log[k] != StopStreaming
  }

  lemma {:induction false} LingeringIsUnstopped(log: Log, i: nat)
    requires Lingers(log, i, |log|)
    ensures Summarize(log).unstopped >= 1
  {
    if i < |log| - 1 {
      LingeringIsUnstopped(log[..|log| - 1], i);
    }
  }

  /** In a sound record two spawned encoders never lack a STOP at the same moment. */
  lemma {:induction false} SoundMeansOneAtATime(log: Log, i: nat, j: nat, n: nat)
    requires Summarize(log).sound && Lingers(log, i, n) && Lingers(log, j, n)
    ensures i == j
  {
    if n < |log| {
      SoundMeansOneAtATime(log[..|log| - 1], i, j, n);
    } else if i < |log| - 1 && j < |log| - 1 {
      SoundMeansOneAtATime(log[..|log| - 1], i, j, n - 1);
    } else if i < j {
      LingeringIsUnstopped(log[..|log| - 1], i);
    } else if j < i {
      LingeringIsUnstopped(log[..|log| - 1], j);
    }
  }

  /** In a sound record every kick comes after a buffer registration that follows the spawn. */
  lemma {:induction false} SoundMeansKickedWithBuffers(log: Log, n: nat)
    requires Summarize(log).sound && n < |log| && log[n] == StartStreaming
    ensures exists b :: 0 <= b < n && log[b] == SetBuf && forall k :: b < k < n ==> log[k] != SetVic
  {
    if n < |log| - 1 {
      var before := log[..|log| - 1];
      SoundMeansKickedWithBuffers(before, n);
      var b :| 0 <= b < n && before[b] == SetBuf && forall k :: b < k < n ==> before[k] != SetVic;
      assert log[b] == SetBuf;
    } else {
      assert log[..n] == log[..|log| - 1];
      var b := FreshSince(log[..n]);
      assert log[b] == SetBuf;
    }
  }

  lemma {:induction false} FreshSince(log: Log) returns (b: nat)
    requires Summarize(log).registered
    ensures b < |log| && log[b] == SetBuf && forall k :: b < k < |log| ==> log[k] != SetVic
  {
    if log[|log| - 1] == SetBuf {
      b := |log| - 1;
    } else {
      b := FreshSince(log[..|log| - 1]);
    }
  }
}

/**
 The commands that starting the pipeline consists of, and what a start leaves in the record
 of commands, whatever the card answers.
 */
module StartScript {
  import opened CardLog

  // Module parameters that select a path; the persistent H.264 path is fixed.  `postProc`
  // stands for either knob that asks for the preview command outside the Windows order.
  datatype Params = Params(
    winSeq: bool, winBufsFirst: bool, winStartOp6: bool, setvicOnce: bool,
    aicOn: bool, aicEveryFrame: bool, encSub: bool, postProc: bool,
    hotplugRecovery: bool, streamWithoutSignal: bool, strictGeometry: bool)

  // Ahead of everything else, whatever the card answers.
  function PreStop(p: Params): Log { if p.winSeq then [StopStreaming] else [] }

  function PrepareScript(p: Params): Log { if p.winSeq && p.winBufsFirst then [SetBuf] else [] }

  function EncoderScript(p: Params): Log { if p.encSub then [SetEnc, SetEnc] else [SetEnc] }

  function RegisterScript(p: Params): Log {
    if p.winSeq then [SetBuf] else EncoderScript(p) + [SetBuf]
  }

  function TailScript(p: Params): Log {
    if p.winSeq then EncoderScript(p) + [PostProc] else if p.postProc then [PostProc] else []
  }

  function KickScript(p: Params): Log {
    TailScript(p) + (if !p.winSeq || p.winStartOp6 then [StartStreaming] else [])
  }

  function SpawnScript(due: bool): Log { if due then [SetVic] else [] }

  function AicScript(due: bool): Log { if due then [SetAic(true)] else [] }

  function LaunchScript(p: Params, aic: bool): Log { RegisterScript(p) + AicScript(aic) + KickScript(p) }

  // All a start depends on; `spawn` and `aic` say whether an encoder and the audio gate are due.
  function Script(p: Params, spawn: bool, aic: bool): Log {
    PrepareScript(p) + SpawnScript(spawn) + LaunchScript(p, aic)
  }

  // How many commands come before the audio gate.
  function GateAt(p: Params, spawn: bool): nat { |PrepareScript(p)| + |SpawnScript(spawn)| + |RegisterScript(p)| }

  function Once(c: bool): nat { if c then 1 else 0 }

  // How many commands that is.
  function DueCount(p: Params, spawn: bool, aic: bool): nat {
    Once(p.winSeq && p.winBufsFirst) + Once(spawn) + 2 + Once(p.encSub) + Once(aic) + Once(p.winSeq || p.postProc) +
    Once(!p.winSeq || p.winStartOp6)
  }

  lemma DueCounted(p: Params, spawn: bool, aic: bool)
    ensures |Script(p, spawn, aic)| == DueCount(p, spawn, aic)
  {
  }

  // The stage a command belongs to; the Windows order configures the encoder behind the audio gate.
  function Stage(c: Command, winSeq: bool): nat {
    match c
    case SetVic => 0
    case SetEnc => if winSeq then 3 else 1
    case SetBuf => if winSeq then 1 else 2
    case SetAic(_) => if winSeq then 2 else 3
    case PostProc => 4
    case StartStreaming => 5
    case StopStreaming => 6
  }

  predicate InStages(s: Log, winSeq: bool, from: nat, to: nat) {
    && (forall i :: 0 <= i < |s| ==> from <= Stage(s[i], winSeq) <= to)
    && (forall i, j :: 0 <= i < j < |s| ==> Stage(s[i], winSeq) <= Stage(s[j], winSeq))
  }

  // How often each command occurs.
  datatype Tally = Tally(vic: nat, buf: nat, enc: nat, aic: nat, post: nat, start: nat, others: nat)

  function TallyOf(s: Log): Tally {
    var m := multiset(s);
    Tally(m[SetVic], m[SetBuf], m[SetEnc], m[SetAic(true)], m[PostProc], m[StartStreaming],
          m[StopStreaming] + m[SetAic(false)])
  }

  function Plus(x: Tally, y: Tally): Tally {
    Tally(x.vic + y.vic, x.buf + y.buf, x.enc + y.enc, x.aic + y.aic, x.post + y.post, x.start + y.start,
          x.others + y.others)
  }

  // Sorted by stage, between two stages, and with these commands in it.
  predicate Staged(s: Log, winSeq: bool, from: nat, to: nat, t: Tally) {
    InStages(s, winSeq, from, to) && TallyOf(s) == t
  }

  lemma StagesFollow(a: Log, b: Log, whole: Log, winSeq: bool, from: nat, mid: nat, mid': nat, to: nat, x: Tally, y: Tally)
    requires Staged(a, winSeq, from, mid, x) && Staged(b, winSeq, mid', to, y) && whole == a + b
    requires from <= mid <= mid' <= to
    ensures Staged(whole, winSeq, from, to, Plus(x, y))
  {
    InStagesFollow(a, b, winSeq, from, mid, mid', to);
    assert multiset(a + b) == multiset(a) + multiset(b);
  }

  lemma InStagesFollow(a: Log, b: Log, winSeq: bool, from: nat, mid: nat, mid': nat, to: nat)
    requires from <= mid <= mid' <= to && InStages(a, winSeq, from, mid) && InStages(b, winSeq, mid', to)
    ensures InStages(a + b, winSeq, from, to)
  {
  }

  const NOTHING: Tally := Tally(0, 0, 0, 0, 0, 0, 0)

  lemma TallyOfOne(c: Command)
    ensures TallyOf([c]) ==
            match c
            case SetVic => NOTHING.(vic := 1)
            case SetBuf => NOTHING.(buf := 1)
            case SetEnc => NOTHING.(enc := 1)
            case SetAic(on) => if on then NOTHING.(aic := 1) else NOTHING.(others := 1)
            case PostProc => NOTHING.(post := 1)
            case StartStreaming => NOTHING.(start := 1)
            case StopStreaming => NOTHING.(others := 1)
  {
  }

  lemma EncoderStaged(p: Params)
    ensures var at := Stage(SetEnc, p.winSeq);
            Staged(EncoderScript(p), p.winSeq, at, at, Tally(0, 0, 1 + Once(p.encSub), 0, 0, 0, 0))
  {
    assert multiset(EncoderScript(p)) == multiset{SetEnc}[SetEnc := 1 + Once(p.encSub)];
  }

  lemma OneStaged(c: Command, winSeq: bool)
    requires c in {SetVic, SetBuf, SetAic(true), PostProc, StartStreaming}
    ensures Staged([c], winSeq, Stage(c, winSeq), Stage(c, winSeq), TallyOf([c]))
    ensures Staged([], winSeq, Stage(c, winSeq), Stage(c, winSeq), NOTHING)
  {
  }

  // The last stage reached by the registration.
  function Registered(p: Params): nat { if p.winSeq then 1 else 2 }

  lemma RegisterStaged(p: Params)
    ensures Staged(RegisterScript(p), p.winSeq, 1, Registered(p),
                   Tally(0, 1, if p.winSeq then 0 else 1 + Once(p.encSub), 0, 0, 0, 0))
  {
    TallyOfOne(SetBuf);
    OneStaged(SetBuf, p.winSeq);
    EncoderStaged(p);
    if !p.winSeq {
      StagesFollow(EncoderScript(p), [SetBuf], RegisterScript(p), p.winSeq, 1, 1, 2, 2,
                   Tally(0, 0, 1 + Once(p.encSub), 0, 0, 0, 0), TallyOf([SetBuf]));
    }
  }

  lemma TailStaged(p: Params)
    ensures Staged(TailScript(p), p.winSeq, Registered(p) + 2, 4,
                   Tally(0, 0, if p.winSeq then 1 + Once(p.encSub) else 0, 0, Once(p.winSeq || p.postProc), 0, 0))
  {
    TallyOfOne(PostProc);
    OneStaged(PostProc, p.winSeq);
    EncoderStaged(p);
    if p.winSeq {
      StagesFollow(EncoderScript(p), [PostProc], TailScript(p), p.winSeq, 3, 3, 4, 4,
                   Tally(0, 0, 1 + Once(p.encSub), 0, 0, 0, 0), TallyOf([PostProc]));
    }
  }

  lemma KickStaged(p: Params)
    ensures Staged(KickScript(p), p.winSeq, Registered(p) + 2, 5,
                   Tally(0, 0, if p.winSeq then 1 + Once(p.encSub) else 0, 0, Once(p.winSeq || p.postProc),
                         Once(!p.winSeq || p.winStartOp6), 0))
  {
    TailStaged(p);
    TallyOfOne(StartStreaming);
    OneStaged(StartStreaming, p.winSeq);
    var kick := if !p.winSeq || p.winStartOp6 then [StartStreaming] else [];
    StagesFollow(TailScript(p), kick, KickScript(p), p.winSeq, Registered(p) + 2, 4, 5, 5,
                 Tally(0, 0, if p.winSeq then 1 + Once(p.encSub) else 0, 0, Once(p.winSeq || p.postProc), 0, 0),
                 Tally(0, 0, 0, 0, 0, Once(!p.winSeq || p.winStartOp6), 0));
  }

  lemma Assembled(v: Log, x: Log, a: Log, y: Log, winSeq: bool, m: nat, tv: Tally, tx: Tally, ta: Tally, ty: Tally)
    requires 1 <= m <= 3 && Staged(v, winSeq, 0, 0, tv) && Staged(x, winSeq, 1, m, tx)
    requires Staged(a, winSeq, m + 1, m + 1, ta) && Staged(y, winSeq, m + 2, 5, ty)
    ensures Staged(v + (x + a + y), winSeq, 0, 5, Plus(tv, Plus(Plus(tx, ta), ty)))
  {
    StagesFollow(x, a, x + a, winSeq, 1, m, m + 1, m + 1, tx, ta);
    StagesFollow(x + a, y, x + a + y, winSeq, 1, m + 1, m + 2, 5, Plus(tx, ta), ty);
    StagesFollow(v, x + a + y, v + (x + a + y), winSeq, 0, 0, 1, 5, tv, Plus(Plus(tx, ta), ty));
  }

  lemma SpawnStaged(p: Params, spawn: bool)
    ensures Staged(SpawnScript(spawn), p.winSeq, 0, 0, Tally(Once(spawn), 0, 0, 0, 0, 0, 0))
  {
    TallyOfOne(SetVic);
    OneStaged(SetVic, p.winSeq);
  }

  lemma AicStaged(p: Params, aic: bool)
    ensures Staged(AicScript(aic), p.winSeq, Registered(p) + 1, Registered(p) + 1, Tally(0, 0, 0, Once(aic), 0, 0, 0))
  {
    TallyOfOne(SetAic(true));
    OneStaged(SetAic(true), p.winSeq);
  }

  lemma Added(vic: nat, early: nat, aic: nat, late: nat, post: nat, start: nat)
    ensures Plus(Tally(vic, 0, 0, 0, 0, 0, 0),
                 Plus(Plus(Tally(0, 1, early, 0, 0, 0, 0), Tally(0, 0, 0, aic, 0, 0, 0)),
                      Tally(0, 0, late, 0, post, start, 0))) ==
            Tally(vic, 1, early + late, aic, post, start, 0)
  {
  }

  lemma AllTallied(v: Log, x: Log, a: Log, y: Log, winSeq: bool, m: nat,
                    vic: nat, early: nat, aic: nat, late: nat, post: nat, start: nat)
    requires 1 <= m <= 3 && Staged(v, winSeq, 0, 0, Tally(vic, 0, 0, 0, 0, 0, 0))
    requires Staged(x, winSeq, 1, m, Tally(0, 1, early, 0, 0, 0, 0))
    requires Staged(a, winSeq, m + 1, m + 1, Tally(0, 0, 0, aic, 0, 0, 0))
    requires Staged(y, winSeq, m + 2, 5, Tally(0, 0, late, 0, post, start, 0))
    ensures Staged(v + (x + a + y), winSeq, 0, 5, Tally(vic, 1, early + late, aic, post, start, 0))
  {
    Added(vic, early, aic, late, post, start);
    Assembled(v, x, a, y, winSeq, m, Tally(vic, 0, 0, 0, 0, 0, 0), Tally(0, 1, early, 0, 0, 0, 0),
              Tally(0, 0, 0, aic, 0, 0, 0), Tally(0, 0, late, 0, post, start, 0));
  }

  lemma AllStaged(p: Params, spawn: bool, aic: bool, v: Log, x: Log, a: Log, y: Log)
    requires v == SpawnScript(spawn) && x == RegisterScript(p) && a == AicScript(aic) && y == KickScript(p)
    ensures Staged(v + (x + a + y), p.winSeq, 0, 5,
                   Tally(Once(spawn), 1, 1 + Once(p.encSub), Once(aic), Once(p.winSeq || p.postProc),
                         Once(!p.winSeq || p.winStartOp6), 0))
  {
    var enc := 1 + Once(p.encSub);
    SpawnStaged(p, spawn);
    RegisterStaged(p);
    AicStaged(p, aic);
    KickStaged(p);
    AllTallied(v, x, a, y, p.winSeq, Registered(p), Once(spawn), if p.winSeq then 0 else enc, Once(aic),
                if p.winSeq then enc else 0, Once(p.winSeq || p.postProc), Once(!p.winSeq || p.winStartOp6));
  }

  /**
   What a start sends: behind the early SET_BUF of the Windows order the commands go by stages,
   at most one SET_VIC and that first, buffers registered behind it in every case, one SET_ENC
   per stream, and the kick last unless the Windows order does without.
   */
  lemma WhatAStartSends(p: Params, spawn: bool, aic: bool, early: Log, staged: Log)
    requires Script(p, spawn, aic) == early + staged && |early| == Once(p.winSeq && p.winBufsFirst)
    ensures early == if p.winSeq && p.winBufsFirst then [SetBuf] else []
    ensures Staged(staged, p.winSeq, 0, 5,
                   Tally(Once(spawn), 1, 1 + Once(p.encSub), Once(aic), Once(p.winSeq || p.postProc),
                         Once(!p.winSeq || p.winStartOp6), 0))
  {
    AllStaged(p, spawn, aic, SpawnScript(spawn), RegisterScript(p), AicScript(aic), KickScript(p));
    SplitAlike(PrepareScript(p), SpawnScript(spawn), LaunchScript(p, aic), early, staged);
  }

  lemma SplitAlike(a: Log, b: Log, c: Log, early: Log, rest: Log)
    requires a + b + c == early + rest && |a| == |early|
    ensures a == early && rest == b + c
  {
    assert (a + b + c)[..|a|] == a && (early + rest)[..|a|] == early;
    assert (a + b + c)[|a|..] == b + c && (early + rest)[|a|..] == rest;
  }

  function LastDue(p: Params): Command { if !p.winSeq || p.winStartOp6 then StartStreaming else PostProc }

  predicate EndsIn(log: Log, c: Command) { log != [] && log[|log| - 1] == c }

  lemma EndsInLast(p: Params, before: Log, spawn: bool, aic: bool, after: Log)
    requires after == before + Script(p, spawn, aic)
    ensures EndsIn(after, LastDue(p))
  {
    EndsInBehind(RegisterScript(p) + AicScript(aic), KickScript(p), LastDue(p));
    EndsInBehind(PrepareScript(p) + SpawnScript(spawn), LaunchScript(p, aic), LastDue(p));
    EndsInBehind(before, Script(p, spawn, aic), LastDue(p));
  }

  lemma EndsInBehind(front: Log, back: Log, c: Command)
    requires EndsIn(back, c)
    ensures EndsIn(front + back, c)
  {
  }

  function UnwindScript(fired: bool, newlyArmed: bool): Log {
    (if fired then [StopStreaming] else []) + (if newlyArmed then [SetAic(false)] else [])
  }

  // What a start that fails leaves in the record: the commands up to the first not answered
  // with 0, and then what takes back the encoder sent for and the audio gate opened.
  ghost predicate Undone(answers: nat -> int, before: Log, due: Log, armed: bool, after: Log, ret: int) {
    exists n: nat :: StopsAt(answers, |before|, n, ret) && TookBack(before, due, n, armed, after)
  }

  // What a start leaves in the record: all that was due, or what `Undone` says.
  ghost predicate Recorded(answers: nat -> int, before: Log, due: Log, armed: bool, after: Log, ret: int) {
    if ret == 0 then after == before + due else Undone(answers, before, due, armed, after, ret)
  }

  predicate TookBack(before: Log, due: Log, n: nat, armed: bool, after: Log) {
    && 0 < n <= |due|
    && after == before + due[..n] + UnwindScript(SetVic in due[..n], !armed && SetAic(true) in due[..n - 1])
  }

  // Of the commands from `from` on, the n-th is the first that is not answered with 0.
  predicate StopsAt(answers: nat -> int, from: nat, n: nat, ret: int) {
    n > 0 && AllZero(answers, from, from + n - 1) && 0 != ret == answers(from + n - 1)
  }

  // A command that occurs nowhere else.
  lemma OnceIn(c: Command, front: Log, due: bool, back: Log, whole: Log, n: nat)
    requires whole == front + (if due then [c] else []) + back && c !in front && c !in back && n <= |whole|
    ensures c in whole[..n] <==> due && n > |front|
  {
    if due && n > |front| {
      assert whole[..n][|front|] == c;
    }
  }

  lemma VicIn(p: Params, spawn: bool, aic: bool, n: nat)
    requires n <= |Script(p, spawn, aic)|
    ensures SetVic in Script(p, spawn, aic)[..n] <==> spawn && n > |PrepareScript(p)|
  {
    OnceIn(SetVic, PrepareScript(p), spawn, LaunchScript(p, aic), Script(p, spawn, aic), n);
  }

  lemma AicIn(p: Params, spawn: bool, aic: bool, n: nat)
    requires n <= |Script(p, spawn, aic)|
    ensures SetAic(true) in Script(p, spawn, aic)[..n] <==>
            aic && n > GateAt(p, spawn)
  {
    OnceIn(SetAic(true), PrepareScript(p) + SpawnScript(spawn) + RegisterScript(p), aic, KickScript(p),
           Script(p, spawn, aic), n);
  }

  lemma FailureRecorded(answers: nat -> int, p: Params, spawn: bool, aic: bool, armed: bool,
                        before: Log, reached: Log, ret: int, fired: bool, newlyArmed: bool)
    requires ret != 0 && Played(answers, before, Script(p, spawn, aic), reached, ret)
    requires fired == (spawn && |reached| > |before| + |PrepareScript(p)|)
    requires newlyArmed == (!armed && aic && |reached| - 1 > |before| + GateAt(p, spawn))
    ensures Undone(answers, before, Script(p, spawn, aic), armed, reached + UnwindScript(fired, newlyArmed), ret)
  {
    var n := |reached| - |before|;
    VicIn(p, spawn, aic, n);
    AicIn(p, spawn, aic, n - 1);
    assert StopsAt(answers, |before|, n, ret);
  }

  lemma StartRecorded(answers: nat -> int, p: Params, spawn: bool, aic: bool, armed: bool, before: Log, due: Log,
                      reached: Log, ret: int, fired: bool, newlyArmed: bool, after: Log)
    requires due == Script(p, spawn, aic) && Played(answers, before, due, reached, ret)
    requires fired == (spawn && |reached| > |before| + |PrepareScript(p)|)
    requires newlyArmed == (!armed && aic && |reached| - Once(ret != 0) > |before| + GateAt(p, spawn))
    requires after == if ret == 0 then reached else reached + UnwindScript(fired, newlyArmed)
    ensures Recorded(answers, before, due, armed, after, ret)
    ensures ret == 0 <==> AllZero(answers, |before|, |before| + DueCount(p, spawn, aic))
    ensures ret == 0 ==> EndsIn(after, LastDue(p))
  {
    PlayedWell(answers, before, due, reached, ret);
    DueCounted(p, spawn, aic);
    if ret == 0 {
      EndsInLast(p, before, spawn, aic, after);
    } else {
      FailureRecorded(answers, p, spawn, aic, armed, before, reached, ret, fired, newlyArmed);
    }
  }
}

/**
 The completion-event queue of the capture driver.

 `Queue` is what the queue means: an unbounded-index FIFO with a capacity, two
 flags, a set of dropped slot tokens and a drop counter.  `Arrive`, `Pop`,
 `TakeDeferred`, `TryFinish`, `TakeAll` and `Restart` say what each critical
 section of `frame_event_lock` does to that meaning.  `Ring` is the driver's own
 representation: a fixed array with head and tail indices that leaves one cell
 unused.  Every method of `Ring` is proved to do exactly what the FIFO does.
 */
module EventQueue {

  // Four stream buffers are programmed per SET_BUF command.
  const NR_BUFS: nat := 4

  // A completion report read out of the mailbox.  `id` stands for the rest of the
  // report (time stamp, payload words): two reports differ exactly when their ids do.
  datatype Event = Event(id: nat, token: nat)

  // The slot named by the low three bits of the token.
  function Slot(e: Event): nat { e.token % 8 }

  // Only slots 0..3 are backed by memory; 4..7 have nothing to re-poison.
  function Backed(e: Event): set<nat> {
    if Slot(e) < NR_BUFS then {Slot(e)} else {}
  }

  /** Eight tokens, then the slots repeat; of each eight the first four have memory. */
  lemma SlotsRepeat(id: nat, token: nat, rounds: nat)
    requires token < 8
    ensures Slot(Event(id, token + 8 * rounds)) == token
    ensures Backed(Event(id, token + 8 * rounds)) == if token < 4 then {token} else {}
  {
  }

  function BackedAll(s: seq<Event>): set<nat> {
    if s == [] then {} else Backed(s[0]) + BackedAll(s[1..])
  }

  lemma {:induction false} BackedAllPrefix(s: seq<Event>, k: nat)
    requires k < |s|
    ensures BackedAll(s[..k + 1]) == BackedAll(s[..k]) + Backed(s[k])
  {
    if k == 0 {
      assert s[..1][1..] == [] && s[..0] == [];
    } else {
      BackedAllPrefix(s[1..], k - 1);
      assert s[..k + 1][1..] == s[1..][..k];
      assert s[..k][1..] == s[1..][..k - 1];
    }
  }

  datatype Queue = Queue(
    capacity: nat,
    pending: seq<Event>,
    accepting: bool,
    drainScheduled: bool,
    ackDeferred: bool,
    dropTokens: set<nat>,
    drops: nat)

  // What the interrupt-side critical section reports back.
  datatype Arrival = Arrival(kept: bool, kick: bool, ackNow: bool)

  // Nothing queued, nothing deferred, nothing to re-poison.
  predicate Settled(q: Queue) {
    q.pending == [] && !q.ackDeferred && q.dropTokens == {}
  }

  function Drop(q: Queue, e: Event): (Queue, Arrival) {
    var ackNow := !q.drainScheduled && q.pending == [];
    var q1 := q.(drops := q.drops + 1);
    (if ackNow then q1 else q1.(ackDeferred := true, dropTokens := q.dropTokens + Backed(e)),
     Arrival(false, false, ackNow))
  }

  function Arrive(q: Queue, e: Event): (Queue, Arrival) {
    if !q.accepting || |q.pending| == q.capacity then Drop(q, e)
    else (q.(pending := q.pending + [e], drainScheduled := true),
          Arrival(true, !q.drainScheduled, false))
  }

  function Pop(q: Queue): Queue
    requires q.pending != []
  {
    q.(pending := q.pending[1..])
  }

  function TakeDeferred(q: Queue): Queue {
    q.(ackDeferred := false, dropTokens := {})
  }

  // The drain's last critical section: give up unless nothing has arrived meanwhile.
  function TryFinish(q: Queue): Queue {
    if Settled(q) then q.(drainScheduled := false) else q
  }

  // The flush's second critical section: every queued report becomes a drop.
  function TakeAll(q: Queue): Queue {
    q.(pending := [], drainScheduled := false, ackDeferred := false, dropTokens := {},
       drops := q.drops + |q.pending|)
  }

  // The slots a flush must re-poison.
  function FlushTokens(q: Queue): set<nat> {
    q.dropTokens + BackedAll(q.pending)
  }

  function Restart(q: Queue): Queue {
    Queue(q.capacity, [], true, false, false, {}, 0)
  }

  // The cell after `i` in a ring of `n` cells.
  function Next(i: nat, n: nat): (j: nat)
    requires i < n
    ensures j == if i + 1 == n then 0 else i + 1
  {
    (i + 1) % n
  }

  // The cells from `tail` up to but excluding `head`, going round the end of the ring.
  ghost function Between(cells: seq<Event>, tail: nat, head: nat): (b: seq<Event>)
    requires tail < |cells| && head < |cells|
    ensures b == [] <==> tail == head
    ensures |b| == if tail <= head then head - tail else head + |cells| - tail
  {
    if tail <= head then cells[tail..head] else cells[tail..] + cells[..head]
  }

  lemma BetweenPush(cells: seq<Event>, tail: nat, head: nat, e: Event)
    requires tail < |cells| && head < |cells|
    ensures |Between(cells, tail, head)| == |cells| - 1 <==> Next(head, |cells|) == tail
    ensures Next(head, |cells|) != tail ==>
              Between(cells[head := e], tail, Next(head, |cells|)) == Between(cells, tail, head) + [e]
  {
  }

  lemma BetweenPop(cells: seq<Event>, tail: nat, head: nat)
    requires tail < |cells| && head < |cells| && tail != head
    ensures var b := Between(cells, tail, head);
            b != [] && b[0] == cells[tail] &&
            Between(cells, Next(tail, |cells|), head) == b[1..]
  {
    if tail + 1 == |cells| {
      assert cells[tail..] == [cells[tail]];
    }
  }

  class Ring {
    var cells: array<Event>
    var head: nat
    var tail: nat
    var accepting: bool
    var drainScheduled: bool
    var ackDeferred: bool
    var dropTokens: set<nat>
    var drops: nat

    ghost predicate Valid()
      reads this
    {
      2 <= cells.Length && head < cells.Length && tail < cells.Length
    }

    // The queued reports, oldest first.
    ghost function Contents(): seq<Event>
      requires Valid()
      reads this, cells
    {
      Between(cells[..], tail, head)
    }

    ghost function Meaning(): (q: Queue)
      requires Valid()
      reads this, cells
      ensures |q.pending| <= q.capacity
    {
      Queue(cells.Length - 1, Contents(), accepting, drainScheduled, ackDeferred, dropTokens, drops)
    }

    constructor (size: nat)
      requires 2 <= size
      ensures Valid() && fresh(cells)
      ensures Meaning() == Queue(size - 1, [], false, false, false, {}, 0)
    {
      cells := new Event[size](_ => Event(0, 0));
      head, tail := 0, 0;
      accepting, drainScheduled, ackDeferred := false, false, false;
      dropTokens, drops := {}, 0;
    }

    // Store a report, if there is room.
    method Store(e: Event) returns (stored: bool)
      requires Valid()
      modifies this`head, cells
      ensures Valid()
      ensures stored == (|old(Contents())| < cells.Length - 1)
      ensures Contents() == if stored then old(Contents()) + [e] else old(Contents())
    {
      BetweenPush(cells[..], tail, head, e);
      var next := Next(head, cells.Length);
      stored := next != tail;
      if stored {
        ghost var was := cells[..];
        cells[head] := e;
        assert cells[..] == was[head := e];
        head := next;
      }
    }

    /** The locked part of the event snapshot hook: enqueue, or drop and account. */
    method HandleEvent(e: Event) returns (r: Arrival)
      requires Valid()
      modifies this`head, this`drainScheduled, this`ackDeferred, this`dropTokens, this`drops, cells
      ensures Valid()
      ensures (Meaning(), r) == Arrive(old(Meaning()), e)
    {
      var dropped, kick, ackNow := true, false, false;
      if accepting {
        var stored := Store(e);
        dropped := !stored;
      }
      if dropped {
        drops := drops + 1;
        ackNow := Defer(e);
      } else if !drainScheduled {
        drainScheduled := true;
        kick := true;
      }
      r := Arrival(!dropped, kick, ackNow);
    }

    // A report was dropped: acknowledge at once if nothing is under way, or leave it to the drain.
    method Defer(e: Event) returns (ackNow: bool)
      requires Valid()
      modifies this`ackDeferred, this`dropTokens
      ensures ackNow == (!drainScheduled && Contents() == [])
      ensures ackNow ==> ackDeferred == old(ackDeferred) && dropTokens == old(dropTokens)
      ensures !ackNow ==> ackDeferred && dropTokens == old(dropTokens) + Backed(e)
    {
      ackNow := !drainScheduled && head == tail;
      if !ackNow {
        ackDeferred := true;
        if e.token % 8 < NR_BUFS {
          dropTokens := dropTokens + {e.token % 8};
        }
      }
    }

    /** Take the oldest report, if there is one. */
    method PopEvent() returns (have: bool, e: Event)
      requires Valid()
      modifies this
      ensures Valid() && cells == old(cells)
      ensures have == (old(Meaning()).pending != [])
      ensures have ==> e == old(Meaning()).pending[0] && Meaning() == Pop(old(Meaning()))
      ensures !have ==> Meaning() == old(Meaning())
    {
      have, e := false, Event(0, 0);
      if tail != head {
        BetweenPop(cells[..], tail, head);
        e := cells[tail];
        tail := Next(tail, cells.Length);
        have := true;
      }
    }

    /** Collect what was deferred while the batch was copied. */
    method Deferred() returns (deferred: bool, tokens: set<nat>)
      requires Valid()
      modifies this
      ensures Valid() && cells == old(cells)
      ensures deferred == old(ackDeferred) && tokens == old(dropTokens)
      ensures Meaning() == TakeDeferred(old(Meaning()))
    {
      deferred, tokens := ackDeferred, dropTokens;
      ackDeferred, dropTokens := false, {};
    }

    /** The drain's final check; `finished` tells the caller to send the ownership ACK. */
    method Finish() returns (finished: bool)
      requires Valid()
      modifies this
      ensures Valid() && cells == old(cells)
      ensures finished == Settled(old(Meaning()))
      ensures Meaning() == TryFinish(old(Meaning()))
    {
      if tail != head || ackDeferred || dropTokens != {} {
        finished := false;
      } else {
        drainScheduled := false;
        finished := true;
      }
    }

    method StopAccepting()
      requires Valid()
      modifies this
      ensures Valid() && cells == old(cells)
      ensures Meaning() == old(Meaning()).(accepting := false)
    {
      accepting := false;
    }

    /** Drop the oldest report and remember its slot. */
    method DiscardOldest()
      requires Valid() && tail != head
      modifies this`tail, this`dropTokens
      ensures Valid()
      ensures var was := old(Contents());
              was != [] && Contents() == was[1..] && dropTokens == old(dropTokens) + Backed(was[0])
    {
      BetweenPop(cells[..], tail, head);
      var token := cells[tail].token % 8;
      if token < NR_BUFS {
        dropTokens := dropTokens + {token};
      }
      tail := Next(tail, cells.Length);
    }

    /** Turn every queued report into a slot to re-poison. */
    method DiscardAll() returns (pending: nat)
      requires Valid()
      modifies this`tail, this`dropTokens
      ensures Valid() && tail == head
      ensures pending == |old(Contents())|
      ensures dropTokens == old(dropTokens) + BackedAll(old(Contents()))
    {
      ghost var was := Contents();
      pending := 0;
      assert was[..0] == [];
      while tail != head
        invariant Valid()
        invariant pending <= |was| && Contents() == was[pending..]
        invariant dropTokens == old(dropTokens) + BackedAll(was[..pending])
        decreases |Contents()|
      {
        BackedAllPrefix(was, pending);
        DiscardOldest();
        assert was[pending..][1..] == was[pending + 1..];
        pending := pending + 1;
      }
      assert was[..pending] == was;
    }

    /** Discard every queued report, turning each into a drop and a slot to re-poison. */
    method Flush() returns (pending: nat, deferred: bool, tokens: set<nat>)
      requires Valid()
      modifies this
      ensures Valid() && cells == old(cells)
      ensures pending == |old(Meaning()).pending| && deferred == old(ackDeferred)
      ensures tokens == FlushTokens(old(Meaning()))
      ensures Meaning() == TakeAll(old(Meaning()))
    {
      pending := DiscardAll();
      head, tail := 0, 0;
      drainScheduled := false;
      deferred := ackDeferred;
      ackDeferred := false;
      tokens := dropTokens;
      dropTokens := {};
      drops := drops + pending;
    }

    /** Begin a new stream with every counter at zero. */
    method Start()
      requires Valid()
      modifies this
      ensures Valid() && cells == old(cells)
      ensures Meaning() == Restart(old(Meaning()))
    {
      head, tail := 0, 0;
      drainScheduled, ackDeferred := false, false;
      dropTokens, drops := {}, 0;
      accepting := true;
    }
  }

  function PopMany(q: Queue, n: nat): Queue
    requires n <= |q.pending|
  {
    q.(pending := q.pending[n..])
  }

  lemma PopManyStep(q: Queue, n: nat)
    requires n <= |q.pending|
    ensures PopMany(q, n).pending == [] <==> n == |q.pending|
    ensures n < |q.pending| ==>
              && PopMany(q, n).pending[0] == q.pending[n] && Pop(PopMany(q, n)) == PopMany(q, n + 1)
              && q.pending[..n] + [q.pending[n]] == q.pending[..n + 1]
    ensures n == |q.pending| ==> PopMany(q, n) == q.(pending := []) && q.pending[..n] == q.pending
  {
  }

  /** Copy every queued report, oldest first. */
  method CopyBatch(r: Ring) returns (copied: seq<Event>)
    requires r.Valid()
    modifies r
    ensures r.Valid() && r.cells == old(r.cells)
    ensures copied == old(r.Meaning()).pending
    ensures r.Meaning() == old(r.Meaning()).(pending := [])
  {
    ghost var was := r.Meaning();
    ghost var n := 0;
    copied := [];
    var have := true;
    while have
      invariant r.Valid() && r.cells == old(r.cells)
      invariant n <= |was.pending| && r.Meaning() == PopMany(was, n) && copied == was.pending[..n]
      invariant !have ==> n == |was.pending|
      decreases |was.pending| - n, have
    {
      PopManyStep(was, n);
      var e;
      have, e := r.PopEvent();
      if have {
        copied := copied + [e];
        n := n + 1;
      }
    }
    PopManyStep(was, n);
  }

  /**
   The drain worker with nobody else running: copy every queued report in order, re-poison
   every dropped slot, and acknowledge exactly when there was anything to do.
   `EventProtocol` interleaves the same critical sections with the other parties.
   */
  method DrainVideo(r: Ring) returns (copied: seq<Event>, repoisoned: set<nat>, ack: bool)
    requires r.Valid()
    modifies r
    ensures r.Valid() && r.cells == old(r.cells)
    ensures copied == old(r.Meaning()).pending && repoisoned == old(r.dropTokens)
    ensures ack == !Settled(old(r.Meaning()))
    ensures r.Meaning() == old(r.Meaning()).(pending := [], drainScheduled := false,
                                             ackDeferred := false, dropTokens := {})
  {
    ghost var was := r.Meaning();
    copied, repoisoned, ack := [], {}, false;
    var finished := false;
    while !finished
      invariant r.Valid() && r.cells == old(r.cells)
      invariant !finished ==> copied == [] && repoisoned == {} && !ack && r.Meaning() == was
      invariant finished ==> copied == was.pending && repoisoned == was.dropTokens && ack == !Settled(was)
      invariant finished ==> r.Meaning() == TryFinish(TakeDeferred(was.(pending := [])))
      decreases !finished
    {
      var batch := CopyBatch(r);
      copied := copied + batch;
      var deferred, tokens := r.Deferred();
      repoisoned := repoisoned + tokens;
      ack := ack || batch != [] || deferred || tokens != {};
      finished := r.Finish();
    }
  }

  /**
   A flush with nobody else running: completions are refused, every queued report is dropped,
   the slots of dropped and discarded reports are re-poisoned, and the flush acknowledges
   exactly when there was anything of the kind.
   */
  method FlushEvents(r: Ring) returns (repoisoned: set<nat>, ack: bool)
    requires r.Valid()
    modifies r
    ensures r.Valid() && r.cells == old(r.cells)
    ensures repoisoned == FlushTokens(old(r.Meaning()))
    ensures ack == (old(r.Meaning()).pending != [] || old(r.ackDeferred) || repoisoned != {})
    ensures r.Meaning() == TakeAll(old(r.Meaning())).(accepting := false)
    ensures Settled(r.Meaning()) && !r.drainScheduled
  {
    r.StopAccepting();
    var pending, deferred, tokens := r.Flush();
    repoisoned := tokens;
    ack := pending > 0 || deferred || tokens != {};
  }
}

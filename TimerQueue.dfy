/**
 * The admission queue that paces calls made with the shared credential:
 * `Add` admits an action at the tail unless the queue is already longer
 * than `max_queue_length`, and every timer tick starts at most the head
 * action.  The timer itself is replaced by an explicit `Tick`.
 */
module Queue {
  import opened Text

  /** `max_queue_length` when nobody sets it. */
  const DefaultMaxQueueLength: int := 250

  /** The queue after an `Add`, and what `Add` returned (-1 or a 1-based position). */
  datatype Admission<A> = Admission(queue: seq<A>, position: int)

  /** The queue after a tick, and the action the tick started, if any. */
  datatype Drain<A> = Drain(queue: seq<A>, started: Option<A>)

  /**
   * `TimerQueue.Add`: the length read before the append is compared with
   * `>`, so a queue holding exactly `maxLength` items still admits one more.
   */
  function Admit<A>(queue: seq<A>, maxLength: int, action: A): (r: Admission<A>)
    ensures r.position == -1 <==> |queue| > maxLength
    ensures r.position == -1 ==> r.queue == queue
    ensures r.position != -1 ==>
      && 1 <= r.position == |r.queue|
      && r.queue[..r.position - 1] == queue
      && r.queue[r.position - 1] == action
  {
    if |queue| > maxLength then Admission(queue, -1)
    else Admission(queue + [action], |queue| + 1)
  }

  /** `TimerQueue.Do`: an empty queue stays empty; otherwise the head leaves and is started. */
  function Dequeue<A>(queue: seq<A>): (r: Drain<A>)
    ensures r.started.None? <==> queue == []
    ensures r.started.None? ==> r.queue == queue
    ensures r.started.Some? ==> queue == [r.started.value] + r.queue
  {
    if queue == [] then Drain(queue, None)
    else Drain(queue[1..], Some(queue[0]))
  }

  // ---------------------------------------------------------------------
  // Traces of submissions and ticks
  // ---------------------------------------------------------------------

  datatype Event<A> = Submit(action: A) | Tick

  /**
   * What a run of events leaves behind: the final queue, the actions `Add`
   * accepted and the actions ticks started (both in order), and every
   * value `Add` returned.
   */
  datatype Trace<A> = Trace(queue: seq<A>, accepted: seq<A>, started: seq<A>, positions: seq<int>)

  function Run<A>(queue: seq<A>, maxLength: int, events: seq<Event<A>>): Trace<A>
    decreases |events|
  {
    if events == [] then Trace(queue, [], [], [])
    else
      var t := Run(queue, maxLength, events[..|events| - 1]);
      match events[|events| - 1]
      case Submit(a) =>
        var r := Admit(t.queue, maxLength, a);
        Trace(r.queue, if r.position == -1 then t.accepted else t.accepted + [a],
              t.started, t.positions + [r.position])
      case Tick =>
        var d := Dequeue(t.queue);
        Trace(d.queue, t.accepted,
              if d.started.Some? then t.started + [d.started.value] else t.started,
              t.positions)
  }

  /**
   * FIFO: whatever the interleaving of submissions and ticks, the actions
   * started, followed by those still waiting, are exactly the actions that
   * were waiting at first followed by those accepted, in order.
   */
  lemma {:induction false} RunIsFifo<A>(queue: seq<A>, maxLength: int, events: seq<Event<A>>)
    ensures queue + Run(queue, maxLength, events).accepted
         == Run(queue, maxLength, events).started + Run(queue, maxLength, events).queue
    decreases |events|
  {
    if events != [] {
      var prefix := events[..|events| - 1];
      var t := Run(queue, maxLength, prefix);
      RunIsFifo(queue, maxLength, prefix);
      match events[|events| - 1]
      case Submit(a) =>
        var r := Admit(t.queue, maxLength, a);
        if r.position != -1 {
          assert r.queue == t.queue + [a];
          assert queue + (t.accepted + [a]) == (queue + t.accepted) + [a];
        }
      case Tick =>
        var d := Dequeue(t.queue);
        if d.started.Some? {
          assert t.queue == [d.started.value] + d.queue;
        }
    }
  }

  /** So the actions ticks start are a prefix of what was queued and accepted. */
  lemma StartedIsPrefix<A>(queue: seq<A>, maxLength: int, events: seq<Event<A>>)
    ensures var t := Run(queue, maxLength, events);
      |t.started| <= |queue + t.accepted| && t.started == (queue + t.accepted)[..|t.started|]
  {
    var t := Run(queue, maxLength, events);
    RunIsFifo(queue, maxLength, events);
    assert (t.started + t.queue)[..|t.started|] == t.started;
  }

  /**
   * The bound the `>` test keeps: a queue that starts at no more than
   * `maxLength + 1` items never holds more.
   */
  lemma {:induction false} RunBounded<A>(queue: seq<A>, maxLength: int, events: seq<Event<A>>)
    requires |queue| <= maxLength + 1
    ensures |Run(queue, maxLength, events).queue| <= maxLength + 1
    decreases |events|
  {
    if events != [] {
      RunBounded(queue, maxLength, events[..|events| - 1]);
    }
  }

  /** Every value `Add` returns is -1 or a position of at least 1, one per submission. */
  lemma {:induction false} RunPositions<A>(queue: seq<A>, maxLength: int, events: seq<Event<A>>)
    ensures var t := Run(queue, maxLength, events);
      forall k :: 0 <= k < |t.positions| ==> t.positions[k] == -1 || t.positions[k] >= 1
    ensures |Run(queue, maxLength, events).positions| == |Submissions(events)|
    ensures |Run(queue, maxLength, events).accepted| <= |Submissions(events)|
    decreases |events|
  {
    if events != [] {
      var prefix := events[..|events| - 1];
      RunPositions(queue, maxLength, prefix);
      assert events == prefix + [events[|events| - 1]];
      SubmissionsAppend(prefix, events[|events| - 1]);
    }
  }

  /** The actions submitted by a run of events, in order. */
  function Submissions<A>(events: seq<Event<A>>): seq<A>
  {
    if events == [] then []
    else
      match events[0]
      case Submit(a) => [a] + Submissions(events[1..])
      case Tick => Submissions(events[1..])
  }

  lemma {:induction false} SubmissionsAppend<A>(events: seq<Event<A>>, e: Event<A>)
    ensures Submissions(events + [e]) == Submissions(events) + (if e.Submit? then [e.action] else [])
  {
    if events != [] {
      assert (events + [e])[1..] == events[1..] + [e];
      SubmissionsAppend(events[1..], e);
    } else {
      assert [e][1..] == [];
    }
  }

  /** `n` submissions of `a` without a tick. */
  function Submits<A>(a: A, n: nat): (events: seq<Event<A>>)
    ensures |events| == n
  {
    if n == 0 then [] else Submits(a, n - 1) + [Submit(a)]
  }

  /**
   * No deduplication, and the real capacity: from an empty queue, the same
   * action submitted `maxLength + 1` times takes `maxLength + 1` slots with
   * positions 1, 2, ..., `maxLength + 1`.
   */
  lemma {:induction false} FillUp<A>(a: A, maxLength: nat, n: nat)
    requires n <= maxLength + 1
    ensures var t := Run([], maxLength, Submits(a, n));
      && t.queue == seq(n, _ => a)
      && t.positions == seq(n, k => k + 1)
  {
    if n > 0 {
      var events := Submits(a, n);
      assert events[..n - 1] == Submits(a, n - 1);
      FillUp(a, maxLength, n - 1);
      var t := Run([], maxLength, Submits(a, n - 1));
      assert t.queue + [a] == seq(n, _ => a);
      assert t.positions + [n] == seq(n, k => k + 1);
    }
  }

  /** One submission more than that is refused, and the queue is left as it was. */
  lemma OverflowRefused<A>(a: A, maxLength: nat)
    ensures var t := Run([], maxLength, Submits(a, maxLength + 2));
      t.positions == seq(maxLength + 1, k => k + 1) + [-1] && |t.queue| == maxLength + 1
  {
    var events := Submits(a, maxLength + 2);
    assert events[..maxLength + 1] == Submits(a, maxLength + 1);
    FillUp(a, maxLength, maxLength + 1);
  }

  /** A limit of 2 admits three back-to-back submissions (positions 1, 2, 3) and refuses the fourth. */
  lemma LimitTwo<A>(a: A, b: A, c: A, d: A)
    ensures Run([], 2, [Submit(a), Submit(b), Submit(c), Submit(d)]).positions == [1, 2, 3, -1]
    ensures Run([], 2, [Submit(a), Submit(b), Submit(c), Submit(d)]).queue == [a, b, c]
  {
    var e1 := [Submit(a)];
    var e2 := [Submit(a), Submit(b)];
    var e3 := [Submit(a), Submit(b), Submit(c)];
    var e4 := [Submit(a), Submit(b), Submit(c), Submit(d)];
    assert e1[..0] == [] && e2[..1] == e1 && e3[..2] == e2 && e4[..3] == e3;
    assert Run([], 2, e1) == Trace([a], [a], [], [1]);
    assert Run([], 2, e2) == Trace([a, b], [a, b], [], [1, 2]);
    assert Run([], 2, e3) == Trace([a, b, c], [a, b, c], [], [1, 2, 3]);
  }

  /** The default queue admits 251 actions and refuses the 252nd. */
  lemma DefaultCapacity<A>(a: A)
    ensures var t := Run([], DefaultMaxQueueLength, Submits(a, 252));
      |t.queue| == 251 && |t.positions| == 252 && t.positions[250] == 251 && t.positions[251] == -1
  {
    OverflowRefused(a, 250);
  }

  // ---------------------------------------------------------------------
  // The queue object
  // ---------------------------------------------------------------------

  class TimerQueue<A> {
    /** The pending actions, head first (`_timer_queue`). */
    var items: seq<A>
    var maxQueueLength: int
    /** Every action `Add` ever accepted, and every action a tick started. */
    ghost var accepted: seq<A>
    ghost var started: seq<A>

    /** Nothing is lost or reordered: started actions, then pending ones, are the accepted ones. */
    ghost predicate Valid()
      reads this
    {
      accepted == started + items
    }

    /** `new TimerQueue(period, due_time)`; the timer the period drives is the caller's `Tick`. */
    constructor (period: int, dueTime: int)
      ensures Valid()
      ensures items == [] && maxQueueLength == DefaultMaxQueueLength
      ensures accepted == [] && started == []
    {
      items := [];
      maxQueueLength := DefaultMaxQueueLength;
      accepted := [];
      started := [];
    }

    method SetMaxQueueLength(m: int)
      requires Valid()
      modifies this
      ensures Valid()
      ensures maxQueueLength == m
      ensures items == old(items) && accepted == old(accepted) && started == old(started)
    {
      maxQueueLength := m;
    }

    method Add(action: A) returns (position: int)
      requires Valid()
      modifies this
      ensures Valid()
      ensures Admission(items, position) == Admit(old(items), old(maxQueueLength), action)
      ensures accepted == if position == -1 then old(accepted) else old(accepted) + [action]
      ensures started == old(started) && maxQueueLength == old(maxQueueLength)
    {
      var length := |items|;
      if length > maxQueueLength {
        return -1;
      }
      items := items + [action];
      accepted := accepted + [action];
      position := length + 1;
    }

    /** One timer tick (`Do`): start the head action, if there is one. */
    method Tick() returns (run: Option<A>)
      requires Valid()
      modifies this
      ensures Valid()
      ensures Drain(items, run) == Dequeue(old(items))
      ensures started == if run.Some? then old(started) + [run.value] else old(started)
      ensures accepted == old(accepted) && maxQueueLength == old(maxQueueLength)
    {
      if |items| == 0 {
        return None;
      }
      run := Some(items[0]);
      started := started + [items[0]];
      items := items[1..];
    }
  }
}

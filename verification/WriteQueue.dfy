/** The queue behind one asynchronous write, as a value: `connection` keeps one for replies and
    `rpc_client` one for requests. Whole frames are its unit here; the classes relate it to
    bytes. */
module WriteQueues {
  /** `inFlight` counts the writes started and not yet completed; `sent` says that the front is
      completely on the wire. */
  datatype WriteQueue<T> = WriteQueue(queue: seq<T>, inFlight: nat, sent: bool)

  function Idle<T>(): WriteQueue<T> {
    WriteQueue([], 0, false)
  }

  /** Queueing a message starts a write when the queue was empty. */
  function Push<T>(q: WriteQueue<T>, m: T): WriteQueue<T> {
    if q.queue == [] then WriteQueue([m], q.inFlight + 1, false)
    else q.(queue := q.queue + [m])
  }

  function Send<T>(q: WriteQueue<T>): WriteQueue<T> {
    q.(sent := true)
  }

  /** A successful completion pops the front and starts the next write, if there is one. */
  function Complete<T>(q: WriteQueue<T>): WriteQueue<T>
    requires q.inFlight > 0
  {
    if q.queue == [] then WriteQueue([], q.inFlight - 1, false)
    else if q.queue[1..] == [] then WriteQueue([], q.inFlight - 1, false)
    else WriteQueue(q.queue[1..], q.inFlight, false)
  }

  /** A completion that stops the queue for good. */
  function Stop<T>(q: WriteQueue<T>): WriteQueue<T>
    requires q.inFlight > 0
  {
    q.(inFlight := q.inFlight - 1)
  }

  function Clear<T>(q: WriteQueue<T>): WriteQueue<T> {
    q.(queue := [], sent := false)
  }

  /** What is still to go on the wire. */
  function Unsent<T>(q: WriteQueue<T>): seq<T> {
    if q.sent && q.queue != [] then q.queue[1..] else q.queue
  }

  /** Completed and Errored are the completions of a write, of whichever one it is: their handlers
      do not ask whether the front they find is the one that was being written. */
  datatype Event<T> = Pushed(m: T) | Sent | Completed | Errored | Cleared

  predicate Possible<T>(q: WriteQueue<T>, e: Event<T>) {
    match e
    case Pushed(_) | Cleared => true
    case Sent => q.inFlight > 0 && q.queue != [] && !q.sent
    case Completed | Errored => q.inFlight > 0
  }

  function After<T>(q: WriteQueue<T>, e: Event<T>): WriteQueue<T>
    requires Possible(q, e)
  {
    match e
    case Pushed(m) => Push(q, m)
    case Sent => Send(q)
    case Completed => Complete(q)
    case Errored => Stop(q)
    case Cleared => Clear(q)
  }

  predicate PossibleRun<T>(events: seq<Event<T>>)
    decreases |events|, 0
  {
    events == [] ||
      var before, e := events[..|events| - 1], events[|events| - 1];
      PossibleRun(before) && Possible(RunOf(before), e)
  }

  function RunOf<T>(events: seq<Event<T>>): WriteQueue<T>
    requires PossibleRun(events)
    decreases |events|, 1
  {
    if events == [] then Idle()
    else After(RunOf(events[..|events| - 1]), events[|events| - 1])
  }

  /** The writes nobody queues for: a clearing of a queue that holds something leaves one behind;
      a completion that finds nothing to pop, and a failure, end one. */
  function Orphans<T>(events: seq<Event<T>>): int
    requires PossibleRun(events)
  {
    if events == [] then 0
    else
      var before, e := events[..|events| - 1], events[|events| - 1];
      var q := RunOf(before);
      Orphans(before) +
        (if q.queue != [] && e.Cleared? then 1
         else if (q.queue == [] && e.Completed?) || e.Errored? then -1
         else 0)
  }

  /** The writes in flight, counted exactly over every run: one for a non-empty queue, and the
      orphans. A failure leaves a queue without its write, which then stays as it is. */
  lemma {:induction false} WritesInFlight<T>(events: seq<Event<T>>)
    requires PossibleRun(events)
    ensures var q := RunOf(events);
      && q.inFlight == (if q.queue == [] then 0 else 1) + Orphans(events)
      && Orphans(events) >= (if q.queue == [] then 0 else -1)
  {
    if events != [] {
      WritesInFlight(events[..|events| - 1]);
    }
  }

  /** Without a clearing or a failure there is at most one write, and there is one exactly when
      something is queued. */
  lemma {:induction false} OneWrite<T>(events: seq<Event<T>>)
    requires PossibleRun(events) && Cleared !in events && Errored !in events
    ensures RunOf(events).inFlight == if RunOf(events).queue == [] then 0 else 1
  {
    if events != [] {
      OneWrite(events[..|events| - 1]);
    }
  }

  lemma {:induction false} OrphansOnlyFall<T>(events: seq<Event<T>>, more: seq<Event<T>>)
    requires PossibleRun(events + more) && Cleared !in more
    ensures PossibleRun(events) && Orphans(events + more) <= Orphans(events)
  {
    if more == [] {
      assert events + more == events;
    } else {
      var n := |more| - 1;
      assert (events + more)[..|events + more| - 1] == events + more[..n];
      OrphansOnlyFall(events, more[..n]);
    }
  }

  lemma RunPush<T>(events: seq<Event<T>>, m: T)
    requires PossibleRun(events)
    ensures PossibleRun(events + [Pushed(m)]) && RunOf(events + [Pushed(m)]) == Push(RunOf(events), m)
  {
    assert (events + [Pushed(m)])[..|events|] == events;
  }

  /** A second write beside one in flight starts exactly when a message is queued while a write is
      in flight for an empty queue; in terms of the history, for an empty queue with orphans. */
  lemma SecondWrite<T>(events: seq<Event<T>>, m: T)
    requires PossibleRun(events)
    ensures PossibleRun(events + [Pushed(m)])
    ensures var q, r := RunOf(events), RunOf(events + [Pushed(m)]);
      && (0 < q.inFlight < r.inFlight <==> q.queue == [] && q.inFlight > 0)
      && (0 < q.inFlight < r.inFlight <==> q.queue == [] && Orphans(events) > 0)
  {
    WritesInFlight(events);
    RunPush(events, m);
  }

  ghost predicate LeadsToTwo<T>(events: seq<Event<T>>, more: seq<Event<T>>) {
    PossibleRun(events + more) && Cleared !in more && RunOf(events + more).inFlight >= 2
  }

  /** Without another clearing, two writes at once can still come about exactly while there are
      orphans, whichever completions and failures happen first. */
  lemma TwoWritesPossible<T(!new)>(events: seq<Event<T>>, m: T)
    requires PossibleRun(events)
    ensures (exists more :: LeadsToTwo(events, more)) <==> Orphans(events) > 0
  {
    if more :| LeadsToTwo(events, more) {
      OrphansOnlyFall(events, more);
      WritesInFlight(events + more);
    }
    if Orphans(events) > 0 {
      WritesInFlight(events);
      var q := RunOf(events);
      if q.queue == [] {
        RunPush(events, m);
        assert LeadsToTwo(events, [Pushed(m)]);
      } else {
        assert events + [] == events;
        assert LeadsToTwo(events, []);
      }
    }
  }

  /** Two writes at once: one message being written, a clearing, another message. */
  lemma SecondWriteCanStart<T>(a: T, b: T)
    ensures var events := [Pushed(a), Cleared, Pushed(b)];
      PossibleRun(events) && RunOf(events).inFlight == 2
  {
    var events := [Pushed(a), Cleared, Pushed(b)];
    assert events[..2] == [Pushed(a), Cleared] && events[..2][..1] == [Pushed(a)];
    assert PossibleRun<T>([]) && RunOf<T>([]) == Idle<T>();
    assert PossibleRun([Pushed(a)]) && RunOf([Pushed(a)]) == WriteQueue([a], 1, false);
    assert PossibleRun(events[..2]) && RunOf(events[..2]) == WriteQueue([], 1, false);
  }

  /** A cleared write that completes pops the front queued after the clearing; the queue is then
      empty with a write in flight, and one more message starts a second one. */
  lemma SecondWriteAfterCompletion<T>(a: T, b: T, c: T)
    ensures var events := [Pushed(a), Cleared, Pushed(b), Completed, Pushed(c)];
      && PossibleRun(events) && RunOf(events).inFlight == 2
      && RunOf(events[..4]) == WriteQueue([], 1, false)
  {
    var events := [Pushed(a), Cleared, Pushed(b), Completed, Pushed(c)];
    SecondWriteCanStart(a, b);
    var three := [Pushed(a), Cleared, Pushed(b)];
    assert three[..2] == [Pushed(a), Cleared] && three[..2][..1] == [Pushed(a)];
    assert RunOf(three) == WriteQueue([b], 2, false);
    assert events[..4][..3] == three && events[..4] == three + [Completed];
    assert RunOf(events[..4]) == WriteQueue([], 1, false);
    RunPush(events[..4], c);
    assert events == events[..4] + [Pushed(c)];
  }

  function Pushes<T>(events: seq<Event<T>>): seq<T> {
    if events == [] then []
    else
      var e := events[|events| - 1];
      Pushes(events[..|events| - 1]) + if e.Pushed? then [e.m] else []
  }

  /** The frames completely written, in order. */
  function Written<T>(events: seq<Event<T>>): seq<T>
    requires PossibleRun(events)
  {
    if events == [] then []
    else
      var before, e := events[..|events| - 1], events[|events| - 1];
      Written(before) + if e.Sent? then [RunOf(before).queue[0]] else []
  }

  /** A write completes successfully only once its frame has been sent, as long as there is but
      one. */
  predicate WholeFrames<T>(events: seq<Event<T>>)
    requires PossibleRun(events)
  {
    events == [] ||
      var before, e := events[..|events| - 1], events[|events| - 1];
      WholeFrames(before) && (e.Completed? ==> RunOf(before).sent)
  }

  /** The wire carries the messages in the order they were queued: what has been written and
      what is unsent make up the history. */
  lemma {:induction false} WireIsHistory<T>(events: seq<Event<T>>)
    requires PossibleRun(events) && WholeFrames(events) && Cleared !in events
    ensures Written(events) + Unsent(RunOf(events)) == Pushes(events)
    ensures RunOf(events).sent ==> RunOf(events).queue != []
  {
    if events != [] {
      var before, e := events[..|events| - 1], events[|events| - 1];
      WireIsHistory(before);
      StepKeepsHistory(RunOf(before), e, Written(before), Pushes(before));
    }
  }

  lemma StepKeepsHistory<T>(q: WriteQueue<T>, e: Event, written: seq<T>, pushed: seq<T>)
    requires Possible(q, e) && !e.Cleared? && (q.sent ==> q.queue != []) && (e.Completed? ==> q.sent)
    requires written + Unsent(q) == pushed
    ensures var wrote := if e.Sent? then [q.queue[0]] else [];
      written + wrote + Unsent(After(q, e)) == pushed + if e.Pushed? then [e.m] else []
    ensures After(q, e).sent ==> After(q, e).queue != []
  {
    match e {
      case Pushed(m) =>
        UnsentPush(q, m);
        assert written + [] == written;
      case Sent => assert q.queue == [q.queue[0]] + q.queue[1..];
      case Completed => assert Unsent(After(q, e)) == Unsent(q);
      case Errored =>
    }
  }

  lemma UnsentPush<T>(q: WriteQueue<T>, m: T)
    requires q.sent ==> q.queue != []
    ensures Unsent(Push(q, m)) == Unsent(q) + [m]
  {
  }
}

/** The system can always go on: from every state of a run in which the connection works, every call
    that still waits can be answered and completed. */
module Progress {
  import opened Bytes
  import opened Calls
  import opened Codec
  import opened Framing
  import opened Protocol
  import opened WriteQueues
  import opened System = RpcSystem
  import Subscriptions
  import Routers

  /** A program whose functions can return, with results that are neither empty nor too long, and
      whose asynchronous functions can answer. Empty replies are excluded altogether: they make the
      client close. */
  ghost predicate Responsive(program: Program) {
    && (forall h: Routers.Handler, args: seq<byte> :: CanReturn(program, h, args))
    && (forall h: Routers.Handler, args: seq<byte> :: h.mode == Routers.Async ==> CanAnswer(program, h, args))
    && NothingEmpty(program)
  }

  ghost predicate CanReturn(program: Program, h: Routers.Handler, args: seq<byte>) {
    exists packed :: Returning(program, h, args, packed)
  }

  predicate Returning(program: Program, h: Routers.Handler, args: seq<byte>, packed: seq<byte>) {
    (h, args, Routers.Returns(packed)) in program.runs && |packed| < MAX_BUF_LEN
  }

  ghost predicate CanAnswer(program: Program, h: Routers.Handler, args: seq<byte>) {
    exists reply :: Answering(program, h, args, reply)
  }

  predicate Answering(program: Program, h: Routers.Handler, args: seq<byte>, reply: seq<byte>) {
    (h, args, reply) in program.replies && |reply| < MAX_BUF_LEN
  }

  ghost predicate NothingEmpty(program: Program) {
    && (forall h, args, packed :: (h, args, Routers.Returns(packed)) in program.runs ==> packed != [])
    && (forall h, args, reply :: (h, args, reply) in program.replies ==> reply != [])
  }

  // How much is left to do.

  function QueueWork<T(==)>(q: WriteQueue<T>, each: nat): nat {
    each * |Unsent(q)| + if q.sent then 1 else 0
  }

  function Work(s: State): nat {
    10 * |s.staged| + QueueWork(s.outbox, 9) + 7 * |s.c2s| + 6 * |s.tasks|
    + QueueWork(s.replies, 5) + 3 * |s.s2c| + if s.reading.Some? then 2 else 0
  }

  /** A step that brings the system forward without a new call. */
  ghost predicate Advances(s: State, a: Action) {
    && Enabled(s, a)
    && var t := Step(s, a);
       t.mode == Running && Work(t) < Work(s) && t.book.requests == s.book.requests && t.book.program == s.book.program
  }

  lemma EnqueueAdvances(s: State)
    requires s.mode == Running && OneWriter(s.outbox) && s.staged != []
    ensures Advances(s, Enqueue(0))
  {
    UnsentPush(s.outbox, s.staged[0]);
  }

  lemma ClientSendsAdvances(s: State)
    requires s.mode == Running && OneWriter(s.outbox) && s.outbox.queue != [] && !s.outbox.sent
    ensures Advances(s, ClientSends)
  {
  }

  lemma ClientWriteDoneAdvances(s: State)
    requires s.mode == Running && OneWriter(s.outbox) && s.outbox.sent
    ensures Advances(s, ClientWriteDone)
  {
    assert Unsent(Complete(s.outbox)) == Unsent(s.outbox);
  }

  lemma ServerSendsAdvances(s: State)
    requires s.mode == Running && OneWriter(s.replies) && s.replies.queue != [] && !s.replies.sent
    ensures Advances(s, ServerSends)
  {
  }

  lemma ServerWriteDoneAdvances(s: State)
    requires s.mode == Running && OneWriter(s.replies) && s.replies.sent
    ensures Advances(s, ServerWriteDone)
  {
    assert Unsent(Complete(s.replies)) == Unsent(s.replies);
  }

  // Serving.

  /** A run that the function found for the front of the wire may make, and that fits. */
  lemma SuitableRun(s: State) returns (run: Routers.Run)
    requires Responsive(s.book.program) && s.c2s != []
    ensures FrontMayRun(s, run) && !ReplyTooLong(s, run)
  {
    var m := s.c2s[0].m;
    var found := Routers.Replay(s.history).invokers;
    if m.funcId in found {
      var h := found[m.funcId];
      assert CanReturn(s.book.program, h, m.content);
      var packed :| Returning(s.book.program, h, m.content, packed);
      run := Routers.Returns(packed);
    } else {
      run := Routers.BadArguments;
    }
  }

  ghost predicate LessWork(s: State, t: State) {
    Work(t) < Work(s) && t.book.requests == s.book.requests && t.book.program == s.book.program
  }

  lemma RoutedWork(s: State, run: Routers.Run, served: Request)
    requires s.c2s != [] && OneWriter(s.replies)
    ensures var t := Routed(s.(c2s := s.c2s[1..]), s.c2s[0], s.c2s[0].m.reqId, served, run);
      t.mode != Asserted ==> LessWork(s, t)
  {
    match Routers.RouteReply(Routers.Replay(s.history), served.func, run) {
      case None =>
      case Some(reply) => UnsentPush(s.replies, ReplyPacket(s.c2s[0].m.reqId, s.c2s[0].call, reply));
    }
  }

  lemma LearningWork(s: State, run: Routers.Run)
    requires s.c2s != [] && (s.c2s[0].m.content == [] || s.c2s[0].m.reqType != REQ_RES)
    ensures LessWork(s, Serve(s, run))
  {
  }

  lemma ServeWork(s: State, run: Routers.Run)
    requires s.c2s != [] && OneWriter(s.replies)
    ensures Serve(s, run).mode != Asserted ==> LessWork(s, Serve(s, run))
  {
    var m := s.c2s[0].m;
    if m.content != [] && m.reqType == REQ_RES {
      CallsAreRouted(s, run);
      RoutedWork(s, run, Request(m.funcId, m.content));
    } else {
      LearningWork(s, run);
    }
  }

  lemma ServeAdvances(s: State) returns (a: Action)
    requires s.mode == Running && OneWriter(s.replies) && Responsive(s.book.program) && s.c2s != []
    ensures Advances(s, a)
  {
    var run := SuitableRun(s);
    ServeAsserts(s, run);
    ServeWork(s, run);
    a := ServerReads(run);
  }

  /** Any of the waiting handlers may answer, in whatever order. */
  lemma HandlerWork(s: State, i: nat, reply: seq<byte>)
    requires s.mode == Running && i < |s.tasks| && |reply| < MAX_BUF_LEN && OneWriter(s.replies)
    requires MayReply(s.book.program, Answer(s.tasks[i].history, s.tasks[i].served, s.tasks[i].run, reply))
    ensures Advances(s, HandlerAnswers(i, reply))
  {
    var task := s.tasks[i];
    var a := Answer(task.history, task.served, task.run, reply);
    ReplyWork(s, i, task.p.m.reqId, task.p.call, a);
    var t := System.Reply(s.(tasks := Without(s.tasks, i)), task.p.m.reqId, task.p.call, a);
    assert Step(s, HandlerAnswers(i, reply)) == t;
  }

  lemma ReplyWork(s: State, i: nat, reqId: uint64, call: Option<nat>, a: Answer)
    requires i < |s.tasks| && OneWriter(s.replies)
    ensures var t := System.Reply(s.(tasks := Without(s.tasks, i)), reqId, call, a);
      LessWork(s, t) && t.mode == s.mode
  {
    UnsentPush(s.replies, ReplyPacket(reqId, call, a.reply));
  }

  lemma DeferredCanAnswer(program: Program, t: Task) returns (reply: seq<byte>)
    requires Deferred(program, t) && Responsive(program)
    ensures MayReply(program, Answer(t.history, t.served, t.run, reply)) && |reply| < MAX_BUF_LEN
  {
    var h := Routers.Replay(t.history).invokers[t.served.func];
    assert CanAnswer(program, h, t.served.args);
    reply :| Answering(program, h, t.served.args, reply);
  }

  lemma HandlerAdvances(s: State) returns (a: Action)
    requires Sound(s) && s.mode == Running && Responsive(s.book.program) && s.tasks != []
    ensures Advances(s, a)
  {
    StillDeferred(s.book.program, s.tasks, 0);
    var reply := DeferredCanAnswer(s.book.program, s.tasks[0]);
    HandlerWork(s, 0, reply);
    a := HandlerAnswers(0, reply);
  }

  // Reading.

  lemma RepliesAreNotEmpty(program: Program, r: Request, a: Answer)
    requires Honest(program, r, a) && NothingEmpty(program)
    ensures a.reply != []
  {
    var tables := Routers.Replay(a.history);
    if Routers.RouteReply(tables, r.func, a.run) == Some(a.reply) {
      EmptyOnlyFromHandler(tables, r.func, a.run);
    }
  }

  /** The router's own messages are never empty. */
  lemma EmptyOnlyFromHandler(t: Routers.Tables, key: uint32, run: Routers.Run)
    ensures Routers.RouteReply(t, key, run) == Some([]) ==> key in t.invokers && run == Routers.Returns([])
  {
  }

  lemma BackIsNotEmpty(s: State, p: Packet)
    requires Sound(s) && Live(s.mode) && NothingEmpty(s.book.program) && p in AnsweredIn(s)
    ensures p.m.content != [] && |p.m.content| < MAX_BUF_LEN
  {
    assert AnsweredOk(s.book, p);
    if p.call.Some? {
      var n := p.call.value;
      RepliesAreNotEmpty(s.book.program, s.book.requests[n], s.book.answers[n]);
    }
  }

  lemma HeadAdvances(s: State)
    requires Sound(s) && s.mode == Running && NothingEmpty(s.book.program) && s.reading.None? && s.s2c != []
    ensures Advances(s, ClientHead)
  {
    HeadTaken(s);
    BackIsNotEmpty(s, s.s2c[0]);
    HeadWork(s);
  }

  lemma HeadWork(s: State)
    requires s.mode == Running && s.reading.None? && s.s2c != [] && 0 < |s.s2c[0].m.content| < MAX_BUF_LEN
    ensures Advances(s, ClientHead)
  {
    HeadRead(s);
  }

  lemma BodyAdvances(s: State)
    requires Sound(s) && s.mode == Running && s.reading.Some?
    ensures Advances(s, ClientBody)
  {
    BodyIsSound(s);
    BodyWork(s);
  }

  lemma BodyWork(s: State)
    requires s.mode == Running && s.reading.Some? && ReadBody(s).mode == Running
    ensures Advances(s, ClientBody)
  {
  }

  // Until nothing is left.

  /** As long as anything is on its way, some step brings it forward. */
  lemma SomethingAdvances(s: State) returns (a: Action)
    requires Sound(s) && s.mode == Running && Responsive(s.book.program) && Work(s) > 0
    ensures Advances(s, a)
  {
    if s.staged != [] {
      EnqueueAdvances(s);
      a := Enqueue(0);
    } else if s.outbox.sent {
      ClientWriteDoneAdvances(s);
      a := ClientWriteDone;
    } else if s.outbox.queue != [] {
      ClientSendsAdvances(s);
      a := ClientSends;
    } else if s.c2s != [] {
      a := ServeAdvances(s);
    } else if s.tasks != [] {
      a := HandlerAdvances(s);
    } else {
      a := BackAdvances(s);
    }
  }

  lemma BackAdvances(s: State) returns (a: Action)
    requires Sound(s) && s.mode == Running && Responsive(s.book.program)
    requires s.replies.sent || s.replies.queue != [] || s.reading.Some? || s.s2c != []
    ensures Advances(s, a)
  {
    if s.replies.sent {
      ServerWriteDoneAdvances(s);
      a := ServerWriteDone;
    } else if s.replies.queue != [] {
      ServerSendsAdvances(s);
      a := ServerSends;
    } else if s.reading.Some? {
      BodyAdvances(s);
      a := ClientBody;
    } else {
      HeadAdvances(s);
      a := ClientHead;
    }
  }

  /** A run goes on to this end. */
  ghost predicate Continues(states: seq<State>, actions: seq<Action>, more: seq<State>, later: seq<Action>) {
    && |states| == |actions| + 1 && states <= more && actions <= later && System.Run(more, later)
    && more[|later|].mode == Running && Work(more[|later|]) == 0
    && more[|later|].book.requests == states[|actions|].book.requests
  }

  lemma {:induction false} GoesOn(states: seq<State>, actions: seq<Action>)
    returns (more: seq<State>, later: seq<Action>)
    requires System.Run(states, actions)
    requires states[|actions|].mode == Running && Responsive(states[|actions|].book.program)
    ensures Continues(states, actions, more, later)
    decreases Work(states[|actions|])
  {
    var s := states[|actions|];
    if Work(s) == 0 {
      more, later := states, actions;
    } else {
      RunIsSound(states, actions, |actions|);
      var a := SomethingAdvances(s);
      RunsOn(states, actions, a);
      more, later := GoesOn(states + [Step(s, a)], actions + [a]);
    }
  }

  lemma NoPlaces(s: State, n: nat)
    requires Work(s) == 0 && s.dropped == []
    ensures AskedPlaces(s, n) == 0 && AnsweredPlaces(s, n) == 0
  {
    assert Unsent(s.outbox) == [] && Unsent(s.replies) == [] && Packets(s.tasks) == [];
  }

  lemma NothingLeft(states: seq<State>, actions: seq<Action>, k: nat, n: nat)
    requires System.Run(states, actions) && k < |states| && states[k].mode == Running && Work(states[k]) == 0
    requires n < |states[k].book.requests|
    ensures Done(states[k].book, n)
  {
    OnePlace(states, actions, k, n);
    Subscriptions.NothingDropped(states, actions, k);
    NoPlaces(states[k], n);
  }

  /** Every call made so far can still be completed: the run has a continuation, without further
      calls, at whose end the connection works and each of them is. */
  lemma EveryCallCanEnd(states: seq<State>, actions: seq<Action>) returns (more: seq<State>, later: seq<Action>)
    requires System.Run(states, actions)
    requires states[|actions|].mode == Running && Responsive(states[|actions|].book.program)
    ensures states <= more && actions <= later && System.Run(more, later) && more[|later|].mode == Running
    ensures forall n: nat :: n < |states[|actions|].book.requests| ==> Done(more[|later|].book, n)
  {
    more, later := GoesOn(states, actions);
    forall n: nat | n < |states[|actions|].book.requests| ensures Done(more[|later|].book, n) {
      NothingLeft(more, later, |later|, n);
    }
  }

  /** The program, its functions and the timers may act at any time while the connection works. */
  lemma ProgramIsFree(s: State, name: Routers.Name, args: seq<byte>, h: Routers.Handler, run: Routers.Run,
                      key: String, data: String)
    requires s.mode == Running
    ensures args != [] && NextFutureId(s.book.calls.fuId) < TWO_63 ==> Enabled(s, CallFuture(name, args))
    ensures args != [] && NextCallbackId(s.book.calls.callbackId) !in s.book.calls.callbacks ==>
      Enabled(s, CallCallback(name, args))
    ensures Enabled(s, Heartbeat) && Enabled(s, CloseSocket)
    ensures Enabled(s, Register(name, h)) && Enabled(s, Remove(name))
    ensures s.c2s != [] && FrontMayRun(s, run) ==> Enabled(s, ServerReads(run))
    ensures key in s.book.entries ==> Enabled(s, Publish(key, data))
    ensures forall i: nat :: i < |s.staged| ==> Enabled(s, Enqueue(i))
    ensures forall id :: id in s.book.calls.callbacks ==> Enabled(s, TimerFires(id))
  {
  }
}

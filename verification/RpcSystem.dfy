/** A client, a server connection and the two wires between them as one step system. A step is a
    mutex-protected section or a completion handler of include/rest_rpc/rpc_client.hpp or
    include/rest_rpc/connection.h; whole frames travel, which Refinement justifies. A run ends
    with the first connection failure; a close by the program is followed to its end. */
module RpcSystem {
  import opened Bytes
  import opened Calls
  import opened Codec
  import opened Framing
  import opened Protocol
  import opened WriteQueues
  import Routers
  import Client = RpcClients
  import Server = Connections

  /** A request whose asynchronous handler has returned and still owes the reply. The handler
      took the request id from the connection while it ran. */
  datatype Task = Task(p: Packet, history: seq<Routers.Change>, served: Request, run: Routers.Run)

  /** The program's `close` has three sections: the socket, the outbox, the call maps. Failed: a
      failure that ends the run. Asserted: an assertion has failed. */
  datatype Mode = Running | SocketClosed | OutboxCleared | MapsCleared | Failed | Asserted

  /** Where packets are: registered by a thread that has not queued them yet, in the client's
      outbox, on the wire, with an asynchronous handler, in the server's reply queue, on the
      wire back, one whose header the client has read, and those freed unsent by a closing
      client. */
  datatype State = State(
    book: Book, history: seq<Routers.Change>,
    staged: seq<Packet>, outbox: WriteQueue<Packet>, c2s: seq<Packet>, tasks: seq<Task>, dropped: seq<Packet>,
    replies: WriteQueue<Packet>, s2c: seq<Packet>, reading: Option<Packet>,
    mode: Mode)

  /** The outbox after resending the subscriptions in some order. */
  function Resent(order: seq<Client.Topic>): WriteQueue<Packet> {
    if order == [] then Idle()
    else Push(Resent(order[..|order| - 1]), Plain(Client.SubscribeMessage(order[|order| - 1])))
  }

  function Start(program: Program, history: seq<Routers.Change>, subs: map<seq<byte>, nat>,
                 order: seq<Client.Topic>): State
  {
    State(EmptyBook(program, subs), history, [], Resent(order), [], [], [], Idle(), [], None, Running)
  }

  /** A connection is made: whatever is registered, and with the subscriptions the client already
      has queued again. */
  ghost predicate Initial(s: State) {
    && Routers.WellKeyed(s.history)
    && exists topics, order ::
         && Client.Subscribed(s.book.subs, topics) && Client.Enumerates(order, topics)
         && s == Start(s.book.program, s.history, s.book.subs, order)
  }

  datatype Action =
    // The client's program.
    | CallFuture(name: Routers.Name, args: seq<byte>)
    | CallCallback(name: Routers.Name, args: seq<byte>)
    | SubscribeTo(t: Client.Topic, callback: nat)
    | Enqueue(i: nat)
    | CloseSocket
    | ClearOutbox
    | ClearMaps
    // The client's handlers.
    | Heartbeat
    | TimerFires(id: uint64)
    | ClientSends
    | ClientWriteDone
    | ClientHead
    | ClientBody
    | BodyAborted
    | HeadError(ids: seq<uint64>, made: seq<Completion>)
    | BodyError
    | WriteError
    // The server.
    | Register(name: Routers.Name, handler: Routers.Handler)
    | Remove(name: Routers.Name)
    | ServerReads(run: Routers.Run)
    | HandlerAnswers(i: nat, reply: seq<byte>)
    | Publish(key: String, data: String)
    | ServerSends
    | ServerWriteDone

  /** The connection works, or a `close` is under way. */
  predicate Live(mode: Mode) {
    mode == Running || mode == SocketClosed || mode == OutboxCleared
  }

  predicate Sending<T(==)>(q: WriteQueue<T>) {
    q.inFlight > 0 && q.queue != [] && !q.sent
  }

  predicate Sent<T(==)>(q: WriteQueue<T>) {
    q.inFlight > 0 && q.queue != [] && q.sent
  }

  ghost predicate Enabled(s: State, a: Action) {
    match a
    case CallFuture(_, args) => Live(s.mode) && args != [] && NextFutureId(s.book.calls.fuId) < TWO_63
    case CallCallback(_, args) =>
      Live(s.mode) && args != [] && NextCallbackId(s.book.calls.callbackId) !in s.book.calls.callbacks
    case SubscribeTo(t, _) => Live(s.mode) && Client.Composite(t) !in s.book.subs
    case Enqueue(i) => Live(s.mode) && i < |s.staged|
    case CloseSocket => s.mode == Running
    case ClearOutbox => s.mode == SocketClosed
    case ClearMaps => s.mode == OutboxCleared
    case Heartbeat => s.mode == Running
    case TimerFires(id) => Live(s.mode) && id in s.book.calls.callbacks
    case ClientSends => s.mode == Running && Sending(s.outbox)
    case ClientWriteDone => Live(s.mode) && s.outbox.inFlight > 0 && (s.mode == Running ==> Sent(s.outbox))
    case ClientHead => s.mode == Running && s.reading.None? && s.s2c != []
    case ClientBody => s.mode == Running && s.reading.Some?
    case BodyAborted => (s.mode == SocketClosed || s.mode == OutboxCleared || s.mode == MapsCleared) && s.reading.Some?
    case HeadError(ids, made) => s.mode == Running && s.reading.None? && FailsAll(s.book.calls.callbacks, ids, made)
    case BodyError => s.mode == Running && s.reading.Some?
    case WriteError => Live(s.mode) && s.outbox.inFlight > 0
    case Register(_, _) | Remove(_) => Live(s.mode)
    case ServerReads(run) => Live(s.mode) && s.c2s != [] && FrontMayRun(s, run)
    case HandlerAnswers(i, reply) =>
      && Live(s.mode) && i < |s.tasks|
      && MayReply(s.book.program, Answer(s.tasks[i].history, s.tasks[i].served, s.tasks[i].run, reply))
    case Publish(key, data) => Live(s.mode) && key in s.book.entries
    case ServerSends => Live(s.mode) && Sending(s.replies)
    case ServerWriteDone => Live(s.mode) && Sent(s.replies)
  }

  /** If the front of the wire is a call, the handler it finds may run like this on its bytes. */
  ghost predicate FrontMayRun(s: State, run: Routers.Run)
    requires s.c2s != []
  {
    match Server.DispatchOf(s.c2s[0].m)
    case Route(funcId, _, data) => MayRun(s.book.program, s.history, Request(funcId, data), run)
    case _ => true
  }

  function Without<T>(s: seq<T>, i: nat): seq<T>
    requires i < |s|
  {
    s[..i] + s[i + 1..]
  }

  function Plain(m: Message): Packet {
    Packet(m, None)
  }

  // The steps with branches.

  /** A step behind an assertion on the length of a message. */
  function Checked(fits: bool, s: State, t: State): State {
    if fits then t else s.(mode := Asserted)
  }

  function Call(s: State, d: CallMaps, id: uint64, r: Request): State {
    s.(book := Ask(s.book, d, id, r),
       staged := s.staged + [Packet(Message(id, REQ_RES, r.args, r.func), Some(|s.book.ids|))])
  }

  function Subscribed(s: State, t: Client.Topic, callback: nat): State {
    s.(book := Learn(s.book, map[Client.Composite(t) := callback], {}),
       staged := s.staged + [Plain(Client.SubscribeMessage(t))])
  }

  function Reply(s: State, reqId: uint64, call: Option<nat>, a: Answer): State {
    s.(book := if call.Some? then Answered(s.book, call.value, a) else s.book,
       replies := Push(s.replies, ReplyPacket(reqId, call, a.reply)))
  }

  /** The server's read loop and router, for the front of the wire. */
  function Serve(s: State, run: Routers.Run): State
    requires s.c2s != []
  {
    var p := s.c2s[0];
    var t := s.(c2s := s.c2s[1..]);
    if Skip(p.m) == [] then t
    else
      match Server.DispatchOf(p.m)
      case Route(funcId, reqId, data) => Routed(t, p, reqId, Request(funcId, data), run)
      case Subscribe(data) =>
        (match UnpackPair(data)
         case None => t
         case Some((key, token)) => t.(book := Learn(t.book, map[], {key + token})))
      case _ => t
  }

  /** A dispatched request: the reply is too long for `response`, sent, or left to the handler. */
  function Routed(s: State, p: Packet, reqId: uint64, served: Request, run: Routers.Run): State {
    match Routers.RouteReply(Routers.Replay(s.history), served.func, run)
    case None => s.(tasks := s.tasks + [Task(p, s.history, served, run)])
    case Some(reply) =>
      if |reply| >= MAX_BUF_LEN then s.(mode := Asserted)
      else Reply(s, reqId, p.call, Answer(s.history, served, run, reply))
  }

  /** A close by one of the client's own handlers. No other handler of the client can run before
      it is through, so nothing is completed in between. */
  function Close(s: State): State {
    s.(book := s.book.(calls := Forget(s.book.calls)), outbox := Clear(s.outbox), mode := Failed)
  }

  function ReadHead(s: State): State
    requires s.s2c != []
  {
    var p := s.s2c[0];
    var t := s.(s2c := s.s2c[1..]);
    if |p.m.content| >= MAX_BUF_LEN then t
    else if Client.ClosesOn(HeaderOf(p.m)) then Close(t)
    else
      match Client.ReadAfter(HeaderOf(p.m))
      case ReadBody(_, _, _) => t.(reading := Some(p))
      case _ => t
  }

  function CompleteWith(s: State, p: Packet, ec: ErrorCode, data: seq<byte>, after: Mode): State {
    match CallBack(s.book.calls, p.m.reqId, ec, data)
    case AssertionFails => s.(mode := Asserted)
    case Completes(calls, completion) => s.(book := Finish(s.book, Completes(calls, completion)), mode := after)
  }

  function ReadBody(s: State): State
    requires s.reading.Some?
  {
    var p := s.reading.value;
    var t := s.(reading := None);
    if p.m.reqType == REQ_RES then CompleteWith(t, p, NoError, p.m.content, Running)
    else if p.m.reqType == SUB_PUB then t.(book := HandOver(t.book, Client.Handed(t.book.subs, p.m.content)))
    else Close(t)
  }

  function HandOver(b: Book, given: seq<(nat, seq<byte>)>): Book {
    b.(handed := b.handed + given, lost := b.lost + if given == [] then 1 else 0)
  }

  /** What a write's completion frees although it was never sent. */
  function PoppedUnsent<T>(q: WriteQueue<T>): seq<T> {
    if q.queue != [] && !q.sent then [q.queue[0]] else []
  }

  ghost function Step(s: State, a: Action): State
    requires Enabled(s, a)
  {
    match a
    case CallFuture(name, args) =>
      Checked(|args| < MAX_BUF_LEN, s,
              Call(s, AddFuture(s.book.calls, |s.book.ids|), NextFutureId(s.book.calls.fuId),
                   Request(Routers.Key(name), args)))
    case CallCallback(name, args) =>
      Checked(|args| < MAX_BUF_LEN, s,
              Call(s, AddCallback(s.book.calls, |s.book.ids|), NextCallbackId(s.book.calls.callbackId),
                   Request(Routers.Key(name), args)))
    case SubscribeTo(t, callback) => Checked(Client.Sendable(t), s, Subscribed(s, t, callback))
    case Enqueue(i) => s.(staged := Without(s.staged, i), outbox := Push(s.outbox, s.staged[i]))
    case CloseSocket => s.(mode := SocketClosed)
    case ClearOutbox => s.(dropped := s.dropped + Unsent(s.outbox), outbox := Clear(s.outbox), mode := OutboxCleared)
    case ClearMaps => s.(book := s.book.(calls := Forget(s.book.calls)), mode := MapsCleared)
    case Heartbeat => s.(staged := s.staged + [Plain(Message(0, REQ_RES, [], 0))])
    case TimerFires(id) => s.(book := s.book.(calls := Calls.TimerFires(s.book.calls, id)))
    case ClientSends => s.(outbox := Send(s.outbox), c2s := s.c2s + [s.outbox.queue[0]])
    case ClientWriteDone => s.(outbox := Complete(s.outbox), dropped := s.dropped + PoppedUnsent(s.outbox))
    case ClientHead => ReadHead(s)
    case ClientBody => ReadBody(s)
    case BodyAborted => CompleteWith(s.(reading := None), s.reading.value, Aborted, [], s.mode)
    case HeadError(ids, made) => Close(s.(book := s.book.(completions := s.book.completions + made)))
    case BodyError => CompleteWith(s.(reading := None), s.reading.value, ReadError, [], Failed)
    case WriteError => s.(outbox := Stop(s.outbox), mode := if s.mode == Running then Failed else s.mode)
    case Register(name, handler) => s.(history := s.history + [Routers.Register(Routers.Key(name), name, handler)])
    case Remove(name) => s.(history := s.history + [Routers.Remove(Routers.Key(name), name)])
    case ServerReads(run) => Serve(s, run)
    case HandlerAnswers(i, reply) =>
      var task := s.tasks[i];
      Checked(|reply| < MAX_BUF_LEN, s,
              Reply(s.(tasks := Without(s.tasks, i)), task.p.m.reqId, task.p.call,
                    Answer(task.history, task.served, task.run, reply)))
    case Publish(key, data) =>
      Checked(|PackPublication(key, data)| < MAX_BUF_LEN, s,
              s.(replies := Push(s.replies, Plain(Message(0, SUB_PUB, PackPublication(key, data), 0)))))
    case ServerSends => s.(replies := Send(s.replies), s2c := s.s2c + [s.replies.queue[0]])
    case ServerWriteDone => s.(replies := Complete(s.replies))
  }

  // The two bags.

  function Packets(tasks: seq<Task>): (ps: seq<Packet>)
    ensures |ps| == |tasks|
  {
    seq(|tasks|, i requires 0 <= i < |tasks| => tasks[i].p)
  }

  function Held(reading: Option<Packet>): seq<Packet> {
    if reading.Some? then [reading.value] else []
  }

  ghost function AskedIn(s: State): multiset<Packet> {
    multiset(s.staged) + multiset(Unsent(s.outbox)) + multiset(s.c2s) + multiset(Packets(s.tasks)) + multiset(s.dropped)
  }

  ghost function AnsweredIn(s: State): multiset<Packet> {
    multiset(Unsent(s.replies)) + multiset(s.s2c) + multiset(Held(s.reading))
  }

  predicate Tidy<T(==)>(q: WriteQueue<T>) {
    q.sent ==> q.queue != []
  }

  /** One write in flight exactly while something is queued. */
  predicate OneWriter<T(==)>(q: WriteQueue<T>) {
    q.inFlight == (if q.queue == [] then 0 else 1) && Tidy(q)
  }

  predicate Queues(s: State) {
    Tidy(s.outbox) && OneWriter(s.replies) && (s.mode == Running ==> OneWriter(s.outbox))
  }

  /** A task is a dispatched request for which the router left the reply to its handler. */
  ghost predicate Deferred(program: Program, t: Task) {
    && t.p.call.Some? && t.served == Request(t.p.m.funcId, t.p.m.content)
    && Routers.WellKeyed(t.history) && MayRun(program, t.history, t.served, t.run)
    && Routers.RouteReply(Routers.Replay(t.history), t.served.func, t.run) == None
  }

  ghost predicate AllDeferred(program: Program, tasks: seq<Task>) {
    forall t :: t in tasks ==> Deferred(program, t)
  }

  ghost predicate Sound(s: State) {
    && History(s.book) && Routers.WellKeyed(s.history)
    && (s.mode == MapsCleared ==> s.book.calls == Forget(s.book.calls))
    && (Live(s.mode) ==>
          && Inv(s.book, AskedIn(s), AnsweredIn(s)) && Queues(s) && AllDeferred(s.book.program, s.tasks))
  }

  // How the bags move.

  lemma WithoutBag<T>(s: seq<T>, i: nat)
    requires i < |s|
    ensures multiset(Without(s, i)) == multiset(s) - multiset{s[i]} && s[i] in multiset(s)
  {
    assert s == s[..i] + [s[i]] + s[i + 1..];
  }

  lemma FrontBag<T>(s: seq<T>)
    requires s != []
    ensures multiset(s[1..]) == multiset(s) - multiset{s[0]} && s[0] in multiset(s)
  {
    assert s == [s[0]] + s[1..];
  }

  lemma PushBag<T>(q: WriteQueue<T>, p: T)
    requires Tidy(q)
    ensures Tidy(Push(q, p)) && (OneWriter(q) ==> OneWriter(Push(q, p)))
    ensures multiset(Unsent(Push(q, p))) == multiset(Unsent(q)) + multiset{p}
  {
    UnsentPush(q, p);
  }

  lemma SendBag<T>(q: WriteQueue<T>)
    requires OneWriter(q) && Sending(q)
    ensures OneWriter(Send(q)) && q.queue[0] in multiset(Unsent(q))
    ensures multiset(Unsent(Send(q))) == multiset(Unsent(q)) - multiset{q.queue[0]}
  {
    FrontBag(q.queue);
  }

  lemma CompleteBag<T>(q: WriteQueue<T>)
    requires Tidy(q) && q.inFlight > 0
    ensures Tidy(Complete(q)) && (OneWriter(q) ==> OneWriter(Complete(q)))
    ensures multiset(Unsent(Complete(q))) + multiset(PoppedUnsent(q)) == multiset(Unsent(q))
    ensures Sent(q) ==> PoppedUnsent(q) == []
  {
    if q.queue != [] {
      FrontBag(q.queue);
      assert Unsent(Complete(q)) == q.queue[1..];
    }
  }

  lemma TaskBag(tasks: seq<Task>, i: nat)
    requires i < |tasks|
    ensures multiset(Packets(Without(tasks, i))) == multiset(Packets(tasks)) - multiset{tasks[i].p}
    ensures tasks[i].p in multiset(Packets(tasks))
  {
    assert Packets(Without(tasks, i)) == Without(Packets(tasks), i);
    WithoutBag(Packets(tasks), i);
  }

  lemma TaskAdded(tasks: seq<Task>, t: Task)
    ensures multiset(Packets(tasks + [t])) == multiset(Packets(tasks)) + multiset{t.p}
  {
    assert Packets(tasks + [t]) == Packets(tasks) + [t.p];
  }

  lemma InvIsHistory(b: Book, asked: multiset<Packet>, answered: multiset<Packet>)
    requires Inv(b, asked, answered)
    ensures History(b)
  {
  }

  /** Packets that only move from place to place change nothing. */
  lemma MoveIsSound(s: State, t: State)
    requires Sound(s) && Live(s.mode) && t.mode == s.mode && t.book == s.book && t.tasks == s.tasks
      && t.history == s.history
    requires Queues(t) && AskedIn(t) == AskedIn(s) && AnsweredIn(t) == AnsweredIn(s)
    ensures Sound(t)
  {
  }

  lemma EnqueueIsSound(s: State, i: nat)
    requires Sound(s) && Live(s.mode) && i < |s.staged|
    ensures Sound(s.(staged := Without(s.staged, i), outbox := Push(s.outbox, s.staged[i])))
  {
    WithoutBag(s.staged, i);
    PushBag(s.outbox, s.staged[i]);
    MoveIsSound(s, s.(staged := Without(s.staged, i), outbox := Push(s.outbox, s.staged[i])));
  }

  lemma ClientSendsIsSound(s: State)
    requires Sound(s) && s.mode == Running && Sending(s.outbox)
    ensures Sound(s.(outbox := Send(s.outbox), c2s := s.c2s + [s.outbox.queue[0]]))
  {
    SendBag(s.outbox);
    MoveIsSound(s, s.(outbox := Send(s.outbox), c2s := s.c2s + [s.outbox.queue[0]]));
  }

  lemma ServerSendsIsSound(s: State)
    requires Sound(s) && Live(s.mode) && Sending(s.replies)
    ensures Sound(s.(replies := Send(s.replies), s2c := s.s2c + [s.replies.queue[0]]))
  {
    SendBag(s.replies);
    MoveIsSound(s, s.(replies := Send(s.replies), s2c := s.s2c + [s.replies.queue[0]]));
  }

  lemma ClientWriteDoneIsSound(s: State)
    requires Sound(s) && Live(s.mode) && s.outbox.inFlight > 0
    ensures Sound(s.(outbox := Complete(s.outbox), dropped := s.dropped + PoppedUnsent(s.outbox)))
  {
    CompleteBag(s.outbox);
    MoveIsSound(s, s.(outbox := Complete(s.outbox), dropped := s.dropped + PoppedUnsent(s.outbox)));
  }

  lemma ServerWriteDoneIsSound(s: State)
    requires Sound(s) && Live(s.mode) && Sent(s.replies)
    ensures Sound(s.(replies := Complete(s.replies)))
  {
    CompleteBag(s.replies);
    MoveIsSound(s, s.(replies := Complete(s.replies)));
  }

  // The sections of a close, and a failing write.

  lemma CloseSocketIsSound(s: State)
    requires Sound(s) && s.mode == Running
    ensures Sound(s.(mode := SocketClosed))
  {
  }

  lemma ClearOutboxIsSound(s: State)
    requires Sound(s) && s.mode == SocketClosed
    ensures Sound(s.(dropped := s.dropped + Unsent(s.outbox), outbox := Clear(s.outbox), mode := OutboxCleared))
  {
    var t := s.(dropped := s.dropped + Unsent(s.outbox), outbox := Clear(s.outbox), mode := OutboxCleared);
    assert AskedIn(t) == AskedIn(s) && AnsweredIn(t) == AnsweredIn(s);
  }

  lemma ForgetIsSound(s: State, outbox: WriteQueue<Packet>, mode: Mode)
    requires Sound(s) && !Live(mode)
    ensures Sound(s.(book := s.book.(calls := Forget(s.book.calls)), outbox := outbox, mode := mode))
  {
    ForgetKeepsHistory(s.book);
  }

  lemma WriteErrorIsSound(s: State)
    requires Sound(s) && Live(s.mode) && s.outbox.inFlight > 0
    ensures Sound(s.(outbox := Stop(s.outbox), mode := if s.mode == Running then Failed else s.mode))
  {
    var t := s.(outbox := Stop(s.outbox), mode := if s.mode == Running then Failed else s.mode);
    assert Unsent(t.outbox) == Unsent(s.outbox);
    assert AskedIn(t) == AskedIn(s) && AnsweredIn(t) == AnsweredIn(s);
  }

  // The client's program.

  lemma CallIsSound(s: State, d: CallMaps, id: uint64, r: Request)
    requires Sound(s) && Live(s.mode) && Parks(s.book.calls, d, id, |s.book.ids|) && 0 < |r.args| < MAX_BUF_LEN
    ensures Sound(Call(s, d, id, r))
  {
    var t := Call(s, d, id, r);
    AskKeeps(s.book, AskedIn(s), AnsweredIn(s), d, id, r);
    assert AskedIn(t) == AskedIn(s) + multiset{Question(t.book, |s.book.ids|)};
    assert AnsweredIn(t) == AnsweredIn(s);
    InvIsHistory(t.book, AskedIn(t), AnsweredIn(t));
  }

  /** A packet of no call added to the staged ones, with the keys it needs already known. */
  lemma StageIsSound(s: State, p: Packet)
    requires Sound(s) && Live(s.mode) && p.call.None? && AskedOk(s.book, p)
    ensures Sound(s.(staged := s.staged + [p]))
  {
    var t := s.(staged := s.staged + [p]);
    assert AskedIn(t) == AskedIn(s) + multiset{p};
    UntaggedKeeps(s.book, AskedIn(s), AnsweredIn(s), AskedIn(t), AnsweredIn(t));
  }

  lemma LearnIsSound(s: State, subs: map<seq<byte>, nat>, entries: set<seq<byte>>)
    requires Sound(s) && Live(s.mode) && entries <= s.book.subs.Keys + subs.Keys
    ensures Sound(s.(book := Learn(s.book, subs, entries)))
  {
    LearnKeeps(s.book, AskedIn(s), AnsweredIn(s), subs, entries);
    InvIsHistory(Learn(s.book, subs, entries), AskedIn(s), AnsweredIn(s));
  }

  lemma SubscriptionIsAsked(b: Book, t: Client.Topic)
    requires |b.ids| == |b.requests| && Client.Sendable(t) && Client.Composite(t) in b.subs
    ensures AskedOk(b, Plain(Client.SubscribeMessage(t)))
  {
    UnpackPackPair(t.key, t.token);
  }

  lemma SubscribeIsSound(s: State, t: Client.Topic, callback: nat)
    requires Sound(s) && Live(s.mode) && Client.Sendable(t)
    ensures Sound(Subscribed(s, t, callback))
  {
    var known := s.(book := Learn(s.book, map[Client.Composite(t) := callback], {}));
    LearnIsSound(s, map[Client.Composite(t) := callback], {});
    SubscriptionIsAsked(known.book, t);
    StageIsSound(known, Plain(Client.SubscribeMessage(t)));
  }

  // The server.

  lemma RegistryIsSound(s: State, c: Routers.Change)
    requires Sound(s) && Live(s.mode) && c.key == Routers.Key(c.name)
    ensures Sound(s.(history := s.history + [c]))
  {
    var t := s.(history := s.history + [c]);
    assert AskedIn(t) == AskedIn(s) && AnsweredIn(t) == AnsweredIn(s);
  }

  lemma ReplyIsSound(s: State, asked: multiset<Packet>, p: Packet, a: Answer)
    requires Live(s.mode) && Routers.WellKeyed(s.history)
    requires Inv(s.book, asked, AnsweredIn(s)) && p in asked && p.call.Some?
    requires AskedIn(s) == asked - multiset{p} && Honest(s.book.program, Request(p.m.funcId, p.m.content), a)
    requires Queues(s) && AllDeferred(s.book.program, s.tasks)
    ensures Sound(Reply(s, p.m.reqId, p.call, a))
  {
    var t := Reply(s, p.m.reqId, p.call, a);
    AnswerKeeps(s.book, asked, AnsweredIn(s), p, a);
    PushBag(s.replies, ReplyPacket(p.m.reqId, p.call, a.reply));
    assert AnsweredIn(t) == AnsweredIn(s) + multiset{ReplyPacket(p.m.reqId, p.call, a.reply)};
    assert AskedIn(t) == AskedIn(s);
    InvIsHistory(t.book, AskedIn(t), AnsweredIn(t));
  }

  lemma StillDeferred(program: Program, tasks: seq<Task>, i: nat)
    requires i < |tasks| && AllDeferred(program, tasks)
    ensures AllDeferred(program, Without(tasks, i)) && Deferred(program, tasks[i])
  {
  }

  lemma HandlerAnswersIsSound(s: State, i: nat, a: Answer)
    requires Sound(s) && Live(s.mode) && i < |s.tasks| && |a.reply| < MAX_BUF_LEN && MayReply(s.book.program, a)
    requires a == Answer(s.tasks[i].history, s.tasks[i].served, s.tasks[i].run, a.reply)
    ensures Sound(Reply(s.(tasks := Without(s.tasks, i)), s.tasks[i].p.m.reqId, s.tasks[i].p.call, a))
  {
    var t := s.(tasks := Without(s.tasks, i));
    TaskBag(s.tasks, i);
    StillDeferred(s.book.program, s.tasks, i);
    assert AskedIn(t) == AskedIn(s) - multiset{s.tasks[i].p};
    assert AnsweredIn(t) == AnsweredIn(s);
    ReplyIsSound(t, AskedIn(s), s.tasks[i].p, a);
  }

  lemma FrontLeaves(s: State)
    requires s.c2s != []
    ensures AskedIn(s.(c2s := s.c2s[1..])) == AskedIn(s) - multiset{s.c2s[0]}
    ensures s.c2s[0] in AskedIn(s)
  {
    FrontBag(s.c2s);
  }

  lemma FrontIsAsked(s: State)
    requires Sound(s) && Live(s.mode) && s.c2s != []
    ensures AskedOk(s.book, s.c2s[0])
  {
    FrontLeaves(s);
  }

  /** A frame that belongs to no call is read and forgotten. */
  lemma DropIsSound(s: State)
    requires Sound(s) && Live(s.mode) && s.c2s != [] && s.c2s[0].call.None?
    ensures Sound(s.(c2s := s.c2s[1..]))
  {
    var t := s.(c2s := s.c2s[1..]);
    FrontLeaves(s);
    assert AnsweredIn(t) == AnsweredIn(s);
    UntaggedKeeps(s.book, AskedIn(s), AnsweredIn(s), AskedIn(s) - multiset{s.c2s[0]}, AnsweredIn(s));
  }

  lemma DeferIsSound(s: State, t: Task)
    requires Sound(s) && Live(s.mode) && s.c2s != [] && t.p == s.c2s[0] && Deferred(s.book.program, t)
    ensures Sound(s.(c2s := s.c2s[1..], tasks := s.tasks + [t]))
  {
    FrontBag(s.c2s);
    TaskAdded(s.tasks, t);
    var u := s.(c2s := s.c2s[1..], tasks := s.tasks + [t]);
    assert AskedIn(u) == AskedIn(s) && AnsweredIn(u) == AnsweredIn(s);
  }

  lemma ServeIsSound(s: State, run: Routers.Run)
    requires Sound(s) && Live(s.mode) && s.c2s != [] && FrontMayRun(s, run)
    ensures Sound(Serve(s, run))
  {
    var p := s.c2s[0];
    var t := s.(c2s := s.c2s[1..]);
    FrontIsAsked(s);
    if p.call.Some? {
      ServeCallIsSound(s, run);
    } else {
      DropIsSound(s);
      if p.m.content != [] {
        var pair := UnpackPair(p.m.content).value;
        LearnIsSound(t, map[], {pair.0 + pair.1});
      }
    }
  }

  lemma CallsAreRequests(b: Book, p: Packet)
    requires Parked(b) && AskedOk(b, p) && p.call.Some?
    ensures p.m.reqType == REQ_RES && p.m.content != []
  {
    assert b.requests[p.call.value] in b.requests;
  }

  lemma ServeCallIsSound(s: State, run: Routers.Run)
    requires Sound(s) && Live(s.mode) && s.c2s != [] && FrontMayRun(s, run)
    requires s.c2s[0].call.Some? && AskedOk(s.book, s.c2s[0])
    ensures Sound(Serve(s, run))
  {
    CallsAreRequests(s.book, s.c2s[0]);
    CallsAreRouted(s, run);
    RoutedIsSound(s, run, Request(s.c2s[0].m.funcId, s.c2s[0].m.content));
  }

  lemma CallsAreRouted(s: State, run: Routers.Run)
    requires s.c2s != [] && s.c2s[0].m.content != [] && s.c2s[0].m.reqType == REQ_RES
    ensures var p := s.c2s[0];
      && Serve(s, run) == Routed(s.(c2s := s.c2s[1..]), p, p.m.reqId, Request(p.m.funcId, p.m.content), run)
      && (FrontMayRun(s, run) <==> MayRun(s.book.program, s.history, Request(p.m.funcId, p.m.content), run))
  {
  }

  lemma RoutedIsSound(s: State, run: Routers.Run, served: Request)
    requires Sound(s) && Live(s.mode) && s.c2s != [] && s.c2s[0].call.Some?
    requires served == Request(s.c2s[0].m.funcId, s.c2s[0].m.content) && MayRun(s.book.program, s.history, served, run)
    ensures Sound(Routed(s.(c2s := s.c2s[1..]), s.c2s[0], s.c2s[0].m.reqId, served, run))
  {
    var p := s.c2s[0];
    match Routers.RouteReply(Routers.Replay(s.history), served.func, run) {
      case None => DeferIsSound(s, Task(p, s.history, served, run));
      case Some(reply) =>
        if |reply| < MAX_BUF_LEN {
          FrontLeaves(s);
          assert AnsweredIn(s.(c2s := s.c2s[1..])) == AnsweredIn(s);
          ReplyIsSound(s.(c2s := s.c2s[1..]), AskedIn(s), p, Answer(s.history, served, run, reply));
        }
    }
  }

  lemma PublishIsSound(s: State, key: String, data: String)
    requires Sound(s) && Live(s.mode) && key in s.book.entries && |PackPublication(key, data)| < MAX_BUF_LEN
    ensures Sound(s.(replies := Push(s.replies, Plain(Message(0, SUB_PUB, PackPublication(key, data), 0)))))
  {
    var p := Plain(Message(0, SUB_PUB, PackPublication(key, data), 0));
    UnpackPackPublication(key, data);
    assert AnsweredOk(s.book, p);
    AnnounceIsSound(s, p);
  }

  lemma AnnounceIsSound(s: State, p: Packet)
    requires Sound(s) && Live(s.mode) && p.call.None? && AnsweredOk(s.book, p)
    ensures Sound(s.(replies := Push(s.replies, p)))
  {
    var t := s.(replies := Push(s.replies, p));
    PushBag(s.replies, p);
    assert AnsweredIn(t) == AnsweredIn(s) + multiset{p};
    UntaggedKeeps(s.book, AskedIn(s), AnsweredIn(s), AskedIn(t), AnsweredIn(t));
  }

  // The client's read loop.

  lemma HeadTaken(s: State)
    requires s.s2c != [] && s.reading.None?
    ensures AnsweredIn(s.(s2c := s.s2c[1..], reading := Some(s.s2c[0]))) == AnsweredIn(s)
    ensures s.s2c[0] in AnsweredIn(s)
  {
    FrontBag(s.s2c);
    assert multiset(Held(Some(s.s2c[0]))) == multiset{s.s2c[0]};
  }

  /** An empty frame makes the client close; any other is held until its body is there. */
  lemma HeadIsSound(s: State)
    requires Sound(s) && s.mode == Running && s.reading.None? && s.s2c != []
    ensures Sound(ReadHead(s)) && ReadHead(s).mode != Asserted
  {
    HeadFits(s);
    HeadRead(s);
    var t := s.(s2c := s.s2c[1..]);
    if s.s2c[0].m.content == [] {
      CloseIsSound(s, t);
    } else {
      HeldIsSound(s, t.(reading := Some(s.s2c[0])));
    }
  }

  lemma HeadFits(s: State)
    requires Sound(s) && s.mode == Running && s.reading.None? && s.s2c != []
    ensures |s.s2c[0].m.content| < MAX_BUF_LEN
  {
    HeadTaken(s);
    assert AnsweredOk(s.book, s.s2c[0]);
  }

  lemma HeadRead(s: State)
    requires s.s2c != [] && |s.s2c[0].m.content| < MAX_BUF_LEN
    ensures var t := s.(s2c := s.s2c[1..]);
      ReadHead(s) == if s.s2c[0].m.content == [] then Close(t) else t.(reading := Some(s.s2c[0]))
  {
  }

  lemma CloseIsSound(s: State, t: State)
    requires Sound(s) && t.book == s.book && t.history == s.history
    ensures Sound(Close(t))
  {
    ForgetKeepsHistory(s.book);
  }

  lemma HeldIsSound(s: State, t: State)
    requires Sound(s) && s.mode == Running && s.s2c != [] && s.reading.None?
    requires t == s.(s2c := s.s2c[1..], reading := Some(s.s2c[0]))
    ensures Sound(t)
  {
    HeadTaken(s);
    assert AskedIn(t) == AskedIn(s);
    MoveIsSound(s, t);
  }

  lemma HeldBag(s: State)
    requires s.reading.Some?
    ensures AnsweredIn(s.(reading := None)) == AnsweredIn(s) - multiset{s.reading.value}
    ensures AskedIn(s.(reading := None)) == AskedIn(s)
    ensures s.reading.value in AnsweredIn(s)
  {
    assert multiset(Held(s.reading)) == multiset{s.reading.value};
  }

  /** A reply read, or given up, completes its own call. */
  lemma ReplyArrives(s: State, ec: ErrorCode, data: seq<byte>, after: Mode)
    requires Sound(s) && Live(s.mode) && s.reading.Some? && s.reading.value.call.Some?
    requires ec == NoError ==> data == s.reading.value.m.content
    requires after == s.mode || after == Failed
    ensures var t := CompleteWith(s.(reading := None), s.reading.value, ec, data, after);
      Sound(t) && t.mode == after && |t.book.completions| == |s.book.completions| + 1
      && t.book.completions[|s.book.completions|].call == s.reading.value.call.value
  {
    var p := s.reading.value;
    HeldBag(s);
    FinishKeeps(s.book, AskedIn(s), AnsweredIn(s), p, ec, data);
    var r := CallBack(s.book.calls, p.m.reqId, ec, data);
    var t := s.(reading := None);
    InvIsHistory(Finish(s.book, r), AskedIn(t), AnsweredIn(t));
  }

  /** A publication read reaches the handler filed under its key. */
  lemma PublicationArrives(s: State)
    requires Sound(s) && s.mode == Running && s.reading.Some? && s.reading.value.call.None?
    ensures var given := Client.Handed(s.book.subs, s.reading.value.m.content);
      && |given| == 1 && Sound(ReadBody(s)) && ReadBody(s).mode == Running
      && ReadBody(s).book == s.book.(handed := s.book.handed + given)
  {
    HeldBag(s);
    var t := s.(reading := None);
    assert AnsweredOk(s.book, s.reading.value);
    UntaggedKeeps(s.book, AskedIn(s), AnsweredIn(s), AskedIn(t), AnsweredIn(t));
    HandOverKeeps(s.book, AskedIn(t), AnsweredIn(t), Client.Handed(s.book.subs, s.reading.value.m.content));
  }

  lemma HandOverKeeps(b: Book, asked: multiset<Packet>, answered: multiset<Packet>, given: seq<(nat, seq<byte>)>)
    requires Inv(b, asked, answered) && given != []
    ensures Inv(HandOver(b, given), asked, answered) && History(HandOver(b, given))
  {
    var c := HandOver(b, given);
    assert forall n: nat :: Registered(c, n) <==> Registered(b, n);
    assert forall n: nat :: Done(c, n) <==> Done(b, n);
    StillOk(b, c, asked, answered);
    assert forall i :: 0 <= i < |b.completions| ==>
      (RightData(c, c.completions[i]) <==> RightData(b, b.completions[i]));
  }

  lemma BodyIsSound(s: State)
    requires Sound(s) && s.mode == Running && s.reading.Some?
    ensures Sound(ReadBody(s)) && ReadBody(s).mode == Running
  {
    HeldBag(s);
    assert AnsweredOk(s.book, s.reading.value);
    if s.reading.value.call.Some? {
      ReplyArrives(s, NoError, s.reading.value.m.content, Running);
    } else {
      PublicationArrives(s);
    }
  }

  /** A body that does not arrive, by an error or a close under way: the call it answers fails; a
      publication hits the assertion. */
  lemma BodyErrorIsSound(s: State, ec: ErrorCode, after: Mode)
    requires Sound(s) && Live(s.mode) && s.reading.Some? && ec != NoError && (after == s.mode || after == Failed)
    ensures var t := CompleteWith(s.(reading := None), s.reading.value, ec, [], after);
      Sound(t) && (t.mode == Asserted <==> s.reading.value.call.None?)
  {
    HeldBag(s);
    assert AnsweredOk(s.book, s.reading.value);
    if s.reading.value.call.Some? {
      ReplyArrives(s, ec, [], after);
    } else {
      CallBackFindsTheCall(s.book.calls, 0, ec, []);
    }
  }

  /** Once the maps are cleared a pending body always hits the assertion. */
  lemma LateBodyIsSound(s: State)
    requires Sound(s) && s.mode == MapsCleared && s.reading.Some?
    ensures var t := CompleteWith(s.(reading := None), s.reading.value, Aborted, [], MapsCleared);
      Sound(t) && t.mode == Asserted
  {
  }

  lemma HeadErrorIsSound(s: State, ids: seq<uint64>, made: seq<Completion>)
    requires Sound(s) && s.mode == Running && FailsAll(s.book.calls.callbacks, ids, made)
    ensures Sound(Close(s.(book := s.book.(completions := s.book.completions + made))))
  {
    FailAllKeeps(s.book, AskedIn(s), AnsweredIn(s), ids, made);
  }

  lemma TimerIsSound(s: State, id: uint64)
    requires Sound(s) && Live(s.mode) && id in s.book.calls.callbacks
    ensures Sound(s.(book := s.book.(calls := Calls.TimerFires(s.book.calls, id))))
  {
    TimerKeeps(s.book, AskedIn(s), AnsweredIn(s), id);
    InvIsHistory(s.book.(calls := Calls.TimerFires(s.book.calls, id)), AskedIn(s), AnsweredIn(s));
  }

  // Whole runs.

  lemma {:induction false} ResentIsAsked(b: Book, order: seq<Client.Topic>)
    requires |b.ids| == |b.requests|
    requires forall t :: t in order ==> Client.Sendable(t) && Client.Composite(t) in b.subs
    ensures var q := Resent(order);
      OneWriter(q) && !q.sent && forall p :: p in q.queue ==> p.call.None? && AskedOk(b, p)
  {
    if order != [] {
      var n := |order| - 1;
      ResentIsAsked(b, order[..n]);
      SubscriptionIsAsked(b, order[n]);
      PushBag(Resent(order[..n]), Plain(Client.SubscribeMessage(order[n])));
    }
  }

  lemma StartIsSound(s: State)
    requires Initial(s)
    ensures Sound(s)
  {
    var topics, order :|
      && Client.Subscribed(s.book.subs, topics) && Client.Enumerates(order, topics)
      && s == Start(s.book.program, s.history, s.book.subs, order);
    ResentIsAsked(s.book, order);
    StartBags(s);
    StartIsFine(s.book, AskedIn(s));
  }

  lemma StartBags(s: State)
    requires s.staged == [] && s.c2s == [] && s.tasks == [] && s.dropped == [] && !s.outbox.sent
    requires s.replies == Idle() && s.s2c == [] && s.reading.None?
    ensures AskedIn(s) == multiset(s.outbox.queue) && AnsweredIn(s) == multiset{}
  {
  }

  lemma StartIsFine(b: Book, asked: multiset<Packet>)
    requires b == EmptyBook(b.program, b.subs) && forall p :: p in asked ==> p.call.None? && AskedOk(b, p)
    ensures Inv(b, asked, multiset{}) && History(b)
  {
    EmptyIsFine(b.program, b.subs);
    UntaggedKeeps(b, multiset{}, multiset{}, asked, multiset{});
  }

  lemma AskingIsSound(s: State, a: Action)
    requires Sound(s) && Enabled(s, a) && (a.CallFuture? || a.CallCallback?)
    ensures Sound(Step(s, a))
  {
    if |a.args| < MAX_BUF_LEN {
      match a {
        case CallFuture(name, args) =>
          AddFutureParks(s.book.calls, |s.book.ids|);
          CallIsSound(s, AddFuture(s.book.calls, |s.book.ids|), NextFutureId(s.book.calls.fuId),
                      Request(Routers.Key(name), args));
        case CallCallback(name, args) =>
          AddCallbackParks(s.book.calls, |s.book.ids|);
          CallIsSound(s, AddCallback(s.book.calls, |s.book.ids|), NextCallbackId(s.book.calls.callbackId),
                      Request(Routers.Key(name), args));
      }
    }
  }

  lemma AnnouncingIsSound(s: State, a: Action)
    requires Sound(s) && Enabled(s, a) && (a.SubscribeTo? || a.Heartbeat?)
    ensures Sound(Step(s, a))
  {
    match a {
      case SubscribeTo(t, callback) =>
        if Client.Sendable(t) {
          SubscribeIsSound(s, t, callback);
        }
      case Heartbeat => StageIsSound(s, Plain(Message(0, REQ_RES, [], 0)));
    }
  }

  predicate Moves(a: Action) {
    a.Enqueue? || a.ClientSends? || a.ClientWriteDone? || a.ServerSends? || a.ServerWriteDone?
  }

  lemma MovingIsSound(s: State, a: Action)
    requires Sound(s) && Enabled(s, a) && Moves(a)
    ensures Sound(Step(s, a))
  {
    match a {
      case Enqueue(i) => EnqueueIsSound(s, i);
      case ClientSends => ClientSendsIsSound(s);
      case ClientWriteDone => ClientWriteDoneIsSound(s);
      case ServerSends => ServerSendsIsSound(s);
      case ServerWriteDone => ServerWriteDoneIsSound(s);
    }
  }

  predicate Closes(a: Action) {
    a.CloseSocket? || a.ClearOutbox? || a.ClearMaps?
  }

  lemma ClosingIsSound(s: State, a: Action)
    requires Sound(s) && Enabled(s, a) && Closes(a)
    ensures Sound(Step(s, a))
  {
    match a {
      case CloseSocket => CloseSocketIsSound(s);
      case ClearOutbox => ClearOutboxIsSound(s);
      case ClearMaps => ForgetIsSound(s, s.outbox, MapsCleared);
    }
  }

  predicate Serves(a: Action) {
    a.Register? || a.Remove? || a.ServerReads? || a.HandlerAnswers? || a.Publish?
  }

  lemma RegisteringIsSound(s: State, a: Action)
    requires Sound(s) && Enabled(s, a) && (a.Register? || a.Remove?)
    ensures Sound(Step(s, a))
  {
    match a {
      case Register(name, handler) => RegistryIsSound(s, Routers.Register(Routers.Key(name), name, handler));
      case Remove(name) => RegistryIsSound(s, Routers.Remove(Routers.Key(name), name));
    }
  }

  lemma ServingIsSound(s: State, a: Action)
    requires Sound(s) && Enabled(s, a) && Serves(a)
    ensures Sound(Step(s, a))
  {
    if a.ServerReads? {
      ServeIsSound(s, a.run);
    } else if a.HandlerAnswers? || a.Publish? {
      SpeakingIsSound(s, a);
    } else {
      RegisteringIsSound(s, a);
    }
  }

  lemma SpeakingIsSound(s: State, a: Action)
    requires Sound(s) && Enabled(s, a) && (a.HandlerAnswers? || a.Publish?)
    ensures Sound(Step(s, a))
  {
    match a {
      case HandlerAnswers(i, reply) =>
        if |reply| < MAX_BUF_LEN {
          HandlerAnswersIsSound(s, i, Answer(s.tasks[i].history, s.tasks[i].served, s.tasks[i].run, reply));
        }
      case Publish(key, data) =>
        if |PackPublication(key, data)| < MAX_BUF_LEN {
          PublishIsSound(s, key, data);
        }
    }
  }

  predicate Reads(a: Action) {
    a.ClientHead? || a.ClientBody? || a.TimerFires?
  }

  lemma ReadingIsSound(s: State, a: Action)
    requires Sound(s) && Enabled(s, a) && Reads(a)
    ensures Sound(Step(s, a))
  {
    match a {
      case ClientHead => HeadIsSound(s);
      case ClientBody => BodyIsSound(s);
      case TimerFires(id) => TimerIsSound(s, id);
    }
  }

  lemma FailingIsSound(s: State, a: Action)
    requires Sound(s) && Enabled(s, a) && (a.BodyAborted? || a.HeadError? || a.BodyError? || a.WriteError?)
    ensures Sound(Step(s, a))
  {
    match a {
      case BodyAborted =>
        if s.mode == MapsCleared {
          LateBodyIsSound(s);
        } else {
          BodyErrorIsSound(s, Aborted, s.mode);
        }
      case HeadError(ids, made) => HeadErrorIsSound(s, ids, made);
      case BodyError => BodyErrorIsSound(s, ReadError, Failed);
      case WriteError => WriteErrorIsSound(s);
    }
  }

  /** Every step keeps the invariant. */
  lemma StepIsSound(s: State, a: Action)
    requires Sound(s) && Enabled(s, a)
    ensures Sound(Step(s, a))
  {
    if a.CallFuture? || a.CallCallback? {
      AskingIsSound(s, a);
    } else if a.SubscribeTo? || a.Heartbeat? {
      AnnouncingIsSound(s, a);
    } else if Moves(a) {
      MovingIsSound(s, a);
    } else if Closes(a) {
      ClosingIsSound(s, a);
    } else if Serves(a) {
      ServingIsSound(s, a);
    } else if Reads(a) {
      ReadingIsSound(s, a);
    } else {
      FailingIsSound(s, a);
    }
  }

  /** A run: every interleaving of the steps. */
  ghost predicate Run(states: seq<State>, actions: seq<Action>) {
    && |states| == |actions| + 1 && Initial(states[0])
    && forall i {:trigger actions[i]} :: 0 <= i < |actions| ==>
         Enabled(states[i], actions[i]) && states[i + 1] == Step(states[i], actions[i])
  }

  /** A run may go on with any step that is enabled. */
  lemma RunsOn(states: seq<State>, actions: seq<Action>, a: Action)
    requires Run(states, actions) && Enabled(states[|actions|], a)
    ensures Run(states + [Step(states[|actions|], a)], actions + [a])
  {
  }

  lemma {:induction false} RunIsSound(states: seq<State>, actions: seq<Action>, k: nat)
    requires Run(states, actions) && k < |states|
    ensures Sound(states[k])
  {
    if k == 0 {
      StartIsSound(states[0]);
    } else {
      RunIsSound(states, actions, k - 1);
      StepIsSound(states[k - 1], actions[k - 1]);
    }
  }

  /** The steps that end the reading of a body. */
  predicate EndsBody(a: Action) {
    a.ClientBody? || a.BodyError? || a.BodyAborted?
  }

  // Assertions.

  /** The front of the wire is a call whose result does not fit and whose function has a name too
      long for the message that takes its place. */
  ghost predicate ReplyTooLong(s: State, run: Routers.Run) {
    s.c2s != [] && s.c2s[0].m.content != [] &&
    match Server.DispatchOf(s.c2s[0].m)
    case Route(funcId, _, _) =>
      var tables := Routers.Replay(s.history);
      && Routers.Oversized(tables, funcId, run)
      && funcId in tables.names && |tables.names[funcId]| >= MAX_BUF_LEN - 58
    case _ => false
  }

  /** The steps in which an assertion fails: the body of a publication fails to arrive; a body is
      aborted once the maps are cleared; the router's reply is too long, or what the program
      itself gives to send. */
  ghost predicate Asserts(s: State, a: Action) {
    match a
    case BodyError => s.reading.Some? && s.reading.value.m.reqId == 0
    case BodyAborted => s.reading.Some? && (s.reading.value.m.reqId == 0 || s.mode == MapsCleared)
    case ServerReads(run) => ReplyTooLong(s, run)
    case CallFuture(_, args) => |args| >= MAX_BUF_LEN
    case CallCallback(_, args) => |args| >= MAX_BUF_LEN
    case SubscribeTo(t, _) => !Client.Sendable(t)
    case HandlerAnswers(_, reply) => |reply| >= MAX_BUF_LEN
    case Publish(key, data) => |PackPublication(key, data)| >= MAX_BUF_LEN
    case _ => false
  }

  lemma CallsHaveIds(s: State)
    requires Sound(s) && Live(s.mode) && s.reading.Some?
    ensures s.reading.value.m.reqId == 0 <==> s.reading.value.call.None?
  {
    HeldBag(s);
    assert AnsweredOk(s.book, s.reading.value);
    if s.reading.value.call.Some? {
      assert s.book.ids[s.reading.value.call.value] in s.book.ids;
    }
  }

  lemma ServeAsserts(s: State, run: Routers.Run)
    requires s.c2s != [] && s.mode != Asserted
    ensures Serve(s, run).mode == (if ReplyTooLong(s, run) then Asserted else s.mode)
  {
    Routers.KeySetsAgree(s.history);
    Routers.RepliesFit(Routers.Replay(s.history), s.c2s[0].m.funcId, run);
  }

  lemma AbortAsserts(s: State)
    requires Sound(s) && Enabled(s, BodyAborted)
    ensures Step(s, BodyAborted).mode == Asserted <==> Asserts(s, BodyAborted)
  {
    if s.mode == MapsCleared {
      LateBodyIsSound(s);
    } else {
      CallsHaveIds(s);
      BodyErrorIsSound(s, Aborted, s.mode);
    }
  }

  /** Exactly those steps fail an assertion. */
  lemma StepAsserts(s: State, a: Action)
    requires Sound(s) && Enabled(s, a)
    ensures Step(s, a).mode == Asserted <==> Asserts(s, a)
  {
    if Reads(a) || a.BodyError? || a.BodyAborted? {
      ReadingAsserts(s, a);
    } else if a.ServerReads? {
      ServeAsserts(s, a.run);
    } else {
      SendingAsserts(s, a);
    }
  }

  lemma ReadingAsserts(s: State, a: Action)
    requires Sound(s) && Enabled(s, a) && (Reads(a) || a.BodyError? || a.BodyAborted?)
    ensures Step(s, a).mode == Asserted <==> Asserts(s, a)
  {
    match a {
      case ClientHead => HeadIsSound(s);
      case ClientBody => BodyIsSound(s);
      case BodyError =>
        CallsHaveIds(s);
        BodyErrorIsSound(s, ReadError, Failed);
      case BodyAborted => AbortAsserts(s);
      case TimerFires(_) =>
    }
  }

  lemma SendingAsserts(s: State, a: Action)
    requires Enabled(s, a) && !Reads(a) && !a.BodyError? && !a.BodyAborted? && !a.ServerReads?
    ensures Step(s, a).mode == Asserted <==> Asserts(s, a)
  {
  }

  /** An assertion fails in a run exactly when the last step is one of those. */
  lemma AssertionsExactly(states: seq<State>, actions: seq<Action>, k: nat)
    requires Run(states, actions) && k < |actions|
    ensures states[k + 1].mode == Asserted <==> Asserts(states[k], actions[k])
    ensures states[k].mode != Asserted
  {
    RunIsSound(states, actions, k);
    StepAsserts(states[k], actions[k]);
  }

  // Correlation.

  /** End-to-end correlation: in every interleaving, a call completed without an error has
      exactly the reply to a request dispatched with the call's own function id and arguments,
      sent by the router for a run of the handler it found on those arguments, or later by the
      asynchronous handler the router left it to. */
  lemma Correlation(states: seq<State>, actions: seq<Action>, k: nat, i: nat)
    requires Run(states, actions) && k < |states| && i < |states[k].book.completions|
    ensures var b, c := states[k].book, states[k].book.completions[i];
      c.ec == NoError ==>
        && c.call in b.answers && c.call < |b.requests| && c.data == b.answers[c.call].reply
        && b.answers[c.call].served == b.requests[c.call] && Routers.WellKeyed(b.answers[c.call].history)
        && MayRun(b.program, b.answers[c.call].history, b.requests[c.call], b.answers[c.call].run)
        && MayReply(b.program, b.answers[c.call])
  {
    RunIsSound(states, actions, k);
    assert RightData(states[k].book, states[k].book.completions[i]);
  }

  /** What has happened stays: no request, answer, completion or publication handed over is ever
      changed. */
  ghost predicate Grows(b: Book, c: Book) {
    && b.program == c.program && b.ids <= c.ids && b.requests <= c.requests
    && b.completions <= c.completions && b.handed <= c.handed
    && forall n :: n in b.answers ==> n in c.answers && c.answers[n] == b.answers[n]
  }

  lemma StepGrows(s: State, a: Action)
    requires Sound(s) && Enabled(s, a)
    ensures Grows(s.book, Step(s, a).book) && s.history <= Step(s, a).history
  {
    if Serves(a) {
      ServingGrows(s, a);
    } else if EndsBody(a) {
      ReadingGrows(s, a);
    } else {
      OtherGrows(s, a);
    }
  }

  lemma OtherGrows(s: State, a: Action)
    requires Enabled(s, a) && !Serves(a) && !a.ClientBody? && !a.BodyError? && !a.BodyAborted?
    ensures Grows(s.book, Step(s, a).book) && s.history == Step(s, a).history
  {
  }

  lemma ServingGrows(s: State, a: Action)
    requires Sound(s) && Enabled(s, a) && Serves(a)
    ensures Grows(s.book, Step(s, a).book) && s.history <= Step(s, a).history
  {
    if a.ServerReads? {
      FrontIsAsked(s);
      ServeGrows(s, a.run);
    } else if a.HandlerAnswers? {
      TaskIsAsked(s, a.i);
      HandlerGrows(s, a.i, a.reply);
    } else {
      OtherServingGrows(s, a);
    }
  }

  lemma OtherServingGrows(s: State, a: Action)
    requires Enabled(s, a) && (a.Register? || a.Remove? || a.Publish?)
    ensures Grows(s.book, Step(s, a).book) && s.history <= Step(s, a).history
  {
  }

  lemma HandlerGrows(s: State, i: nat, reply: seq<byte>)
    requires Enabled(s, HandlerAnswers(i, reply))
    requires |s.book.ids| == |s.book.requests| && AskedOk(s.book, s.tasks[i].p)
    ensures var t := Step(s, HandlerAnswers(i, reply)); Grows(s.book, t.book) && t.history == s.history
  {
    var task := s.tasks[i];
    ReplyGrows(s.(tasks := Without(s.tasks, i)), task.p, Answer(task.history, task.served, task.run, reply));
  }

  lemma ReadingGrows(s: State, a: Action)
    requires Enabled(s, a) && EndsBody(a)
    ensures Grows(s.book, Step(s, a).book) && s.history == Step(s, a).history
  {
    var t := s.(reading := None);
    match a {
      case ClientBody => BodyGrows(t, s.reading.value, NoError, s.reading.value.m.content, Running);
      case BodyError => BodyGrows(t, s.reading.value, ReadError, [], Failed);
      case BodyAborted => BodyGrows(t, s.reading.value, Aborted, [], s.mode);
    }
  }

  lemma ReplyGrows(s: State, p: Packet, a: Answer)
    requires |s.book.ids| == |s.book.requests| && AskedOk(s.book, p)
    ensures var t := Reply(s, p.m.reqId, p.call, a); Grows(s.book, t.book) && t.history == s.history
  {
  }

  lemma ServeGrows(s: State, run: Routers.Run)
    requires |s.book.ids| == |s.book.requests| && s.c2s != [] && AskedOk(s.book, s.c2s[0])
    ensures Grows(s.book, Serve(s, run).book) && Serve(s, run).history == s.history
  {
    var m := s.c2s[0].m;
    if m.content != [] && m.reqType == REQ_RES {
      CallsAreRouted(s, run);
      RoutedGrows(s.(c2s := s.c2s[1..]), s.c2s[0], Request(m.funcId, m.content), run);
    }
  }

  lemma RoutedGrows(s: State, p: Packet, served: Request, run: Routers.Run)
    requires |s.book.ids| == |s.book.requests| && AskedOk(s.book, p)
    ensures var t := Routed(s, p, p.m.reqId, served, run); Grows(s.book, t.book) && t.history == s.history
  {
    match Routers.RouteReply(Routers.Replay(s.history), served.func, run) {
      case None =>
      case Some(reply) => ReplyGrows(s, p, Answer(s.history, served, run, reply));
    }
  }

  lemma BodyGrows(s: State, p: Packet, ec: ErrorCode, data: seq<byte>, after: Mode)
    ensures Grows(s.book, CompleteWith(s, p, ec, data, after).book)
    ensures CompleteWith(s, p, ec, data, after).history == s.history
  {
  }

  lemma TaskIsAsked(s: State, i: nat)
    requires Sound(s) && Live(s.mode) && i < |s.tasks|
    ensures AskedOk(s.book, s.tasks[i].p)
  {
    TaskBag(s.tasks, i);
    assert s.tasks[i].p in AskedIn(s);
  }

  lemma {:induction false} HistoryStands(states: seq<State>, actions: seq<Action>, k: nat, m: nat)
    requires Run(states, actions) && k <= m < |states|
    ensures Grows(states[k].book, states[m].book) && states[k].history <= states[m].history
  {
    if k < m {
      HistoryStands(states, actions, k, m - 1);
      OneStepGrows(states, actions, m - 1);
      GrowsOn(states[k].book, states[m - 1].book, states[m].book);
    }
  }

  lemma OneStepGrows(states: seq<State>, actions: seq<Action>, k: nat)
    requires Run(states, actions) && k < |actions|
    ensures Grows(states[k].book, states[k + 1].book) && states[k].history <= states[k + 1].history
  {
    RunIsSound(states, actions, k);
    StepGrows(states[k], actions[k]);
  }

  lemma GrowsOn(b: Book, c: Book, d: Book)
    requires Grows(b, c) && Grows(c, d)
    ensures Grows(b, d)
  {
  }

  // Where a call is.

  /** How many of these packets belong to call `n`. */
  function Of(ps: seq<Packet>, n: nat): nat {
    if ps == [] then 0 else (if ps[0].call == Some(n) then 1 else 0) + Of(ps[1..], n)
  }

  lemma {:induction false} OfIsBag(ps: seq<Packet>, n: nat, q: Packet)
    requires q.call == Some(n) && forall p :: p in ps && p.call == Some(n) ==> p == q
    ensures Of(ps, n) == multiset(ps)[q]
  {
    if ps != [] {
      OfIsBag(ps[1..], n, q);
      assert ps == [ps[0]] + ps[1..];
      assert multiset(ps) == multiset{ps[0]} + multiset(ps[1..]);
    }
  }

  function AskedPlaces(s: State, n: nat): nat {
    Of(s.staged, n) + Of(Unsent(s.outbox), n) + Of(s.c2s, n) + Of(Packets(s.tasks), n) + Of(s.dropped, n)
  }

  function AnsweredPlaces(s: State, n: nat): nat {
    Of(Unsent(s.replies), n) + Of(s.s2c, n) + Of(Held(s.reading), n)
  }

  lemma AskedPlacesAre(s: State, n: nat, q: Packet)
    requires q.call == Some(n) && forall p :: p in AskedIn(s) && p.call == Some(n) ==> p == q
    ensures AskedPlaces(s, n) == AskedIn(s)[q]
  {
    forall p | p in s.staged || p in Unsent(s.outbox) || p in s.c2s || p in Packets(s.tasks) || p in s.dropped
      ensures p in AskedIn(s)
    {
    }
    OfIsBag(s.staged, n, q);
    OfIsBag(Unsent(s.outbox), n, q);
    OfIsBag(s.c2s, n, q);
    OfIsBag(Packets(s.tasks), n, q);
    OfIsBag(s.dropped, n, q);
  }

  lemma AnsweredPlacesAre(s: State, n: nat, q: Packet)
    requires q.call == Some(n) && forall p :: p in AnsweredIn(s) && p.call == Some(n) ==> p == q
    ensures AnsweredPlaces(s, n) == AnsweredIn(s)[q]
  {
    forall p | p in Unsent(s.replies) || p in s.s2c || p in Held(s.reading)
      ensures p in AnsweredIn(s)
    {
    }
    OfIsBag(Unsent(s.replies), n, q);
    OfIsBag(s.s2c, n, q);
    OfIsBag(Held(s.reading), n, q);
  }

  /** Conservation: until the maps are cleared, every call made is either completed, once, or
      registered, and then in exactly one place of the whole system. */
  lemma OnePlace(states: seq<State>, actions: seq<Action>, k: nat, n: nat)
    requires Run(states, actions) && k < |states| && Live(states[k].mode) && n < |states[k].book.requests|
    ensures var s := states[k];
      && (Registered(s.book, n) <==> !Done(s.book, n))
      && AskedPlaces(s, n) == (if Registered(s.book, n) && n !in s.book.answers then 1 else 0)
      && AnsweredPlaces(s, n) == (if Registered(s.book, n) && n in s.book.answers then 1 else 0)
  {
    RunIsSound(states, actions, k);
    InAskedPlaces(states[k], n);
    InAnsweredPlaces(states[k], n);
  }

  lemma InAskedPlaces(s: State, n: nat)
    requires Inv(s.book, AskedIn(s), AnsweredIn(s)) && n < |s.book.requests|
    ensures AskedPlaces(s, n) == if Registered(s.book, n) && n !in s.book.answers then 1 else 0
  {
    var q := Question(s.book, n);
    forall p | p in AskedIn(s) && p.call == Some(n)
      ensures p == q
    {
      assert AskedOk(s.book, p);
    }
    AskedPlacesAre(s, n, q);
    assert q in AskedIn(s) ==> AskedOk(s.book, q);
  }

  lemma InAnsweredPlaces(s: State, n: nat)
    requires Inv(s.book, AskedIn(s), AnsweredIn(s)) && n < |s.book.requests|
    ensures AnsweredPlaces(s, n) == if Registered(s.book, n) && n in s.book.answers then 1 else 0
  {
    var q := if n in s.book.answers then Protocol.Reply(s.book, n) else Packet(Message(0, 0, [], 0), Some(n));
    forall p | p in AnsweredIn(s) && p.call == Some(n)
      ensures p == q
    {
      assert AnsweredOk(s.book, p);
    }
    AnsweredPlacesAre(s, n, q);
    assert q in AnsweredIn(s) ==> AnsweredOk(s.book, q);
  }

  /** No other id travels: whatever bears one belongs to a registered call. */
  lemma EveryIdIsRegistered(states: seq<State>, actions: seq<Action>, k: nat, p: Packet)
    requires Run(states, actions) && k < |states| && Live(states[k].mode)
    requires (p in AskedIn(states[k]) || p in AnsweredIn(states[k])) && p.m.reqId != 0
    ensures p.call.Some? && Registered(states[k].book, p.call.value) && states[k].book.ids[p.call.value] == p.m.reqId
  {
    RunIsSound(states, actions, k);
    var s := states[k];
    if p in AskedIn(s) {
      assert AskedOk(s.book, p);
    } else {
      assert AnsweredOk(s.book, p);
    }
  }

  /** In every reachable state no promise has been set twice and no callback invoked twice. */
  lemma CompletedOnce(states: seq<State>, actions: seq<Action>, k: nat)
    requires Run(states, actions) && k < |states|
    ensures var cs := states[k].book.completions;
      forall i, j :: 0 <= i < j < |cs| ==> cs[i].call != cs[j].call
  {
    RunIsSound(states, actions, k);
  }

  /** Every publication on its way to the client finds a handler, and none has been lost. */
  lemma PublicationsHaveHandlers(states: seq<State>, actions: seq<Action>, k: nat, p: Packet)
    requires Run(states, actions) && k < |states|
    ensures states[k].book.lost == 0
    ensures Live(states[k].mode) && p in AnsweredIn(states[k]) && p.m.reqType == SUB_PUB ==>
      (UnpackPublication(p.m.content).Some? && UnpackPublication(p.m.content).value.0 in states[k].book.subs)
  {
    RunIsSound(states, actions, k);
    assert Live(states[k].mode) && p in AnsweredIn(states[k]) ==> AnsweredOk(states[k].book, p);
  }

  /** At most one write is in flight on either side, exactly while something is queued: on the
      server's always, on the client's until the program closes the connection. */
  lemma OneWriteEach(states: seq<State>, actions: seq<Action>, k: nat)
    requires Run(states, actions) && k < |states|
    ensures states[k].mode == Running ==> OneWriter(states[k].outbox)
    ensures Live(states[k].mode) ==> OneWriter(states[k].replies)
  {
    RunIsSound(states, actions, k);
  }
}

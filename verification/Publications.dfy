/** Publications on one connection: over any run of the system they reach the client's handlers
    in the order they were published, each once, none left out. */
module Publications {
  import opened Bytes
  import opened Calls
  import opened Codec
  import opened Framing
  import opened Protocol
  import opened WriteQueues
  import opened System = RpcSystem
  import Client = RpcClients
  import Routers

  /** What a packet makes the client hand to which handler. */
  function Spoken(subs: map<seq<byte>, nat>, p: Packet): seq<(nat, seq<byte>)> {
    if p.m.reqType == SUB_PUB then Client.Handed(subs, p.m.content) else []
  }

  function SpokenIn(subs: map<seq<byte>, nat>, ps: seq<Packet>): seq<(nat, seq<byte>)> {
    if ps == [] then [] else Spoken(subs, ps[0]) + SpokenIn(subs, ps[1..])
  }

  /** The way back, from the client's read loop to the server's queue. */
  function WayBack(s: State): seq<Packet> {
    Held(s.reading) + s.s2c + Unsent(s.replies)
  }

  /** What has been handed over and what is still to be. */
  function Heard(s: State): seq<(nat, seq<byte>)> {
    s.book.handed + SpokenIn(s.book.subs, WayBack(s))
  }

  /** What a step publishes: the data for the handler the client has under the key. */
  function Said(s: State, a: Action): seq<(nat, seq<byte>)> {
    match a
    case Publish(key, data) => if key in s.book.subs then [(s.book.subs[key], data)] else []
    case _ => []
  }

  /** Everything published in the first `k` steps, in order. */
  function Published(states: seq<State>, actions: seq<Action>, k: nat): seq<(nat, seq<byte>)>
    requires k <= |actions| < |states|
  {
    if k == 0 then [] else Published(states, actions, k - 1) + Said(states[k - 1], actions[k - 1])
  }

  lemma {:induction false} SpokenSplits(subs: map<seq<byte>, nat>, a: seq<Packet>, b: seq<Packet>)
    ensures SpokenIn(subs, a + b) == SpokenIn(subs, a) + SpokenIn(subs, b)
  {
    if a == [] {
      assert a + b == b;
    } else {
      SpokenSplits(subs, a[1..], b);
      assert (a + b)[0] == a[0] && (a + b)[1..] == a[1..] + b;
      Regroup(Spoken(subs, a[0]), SpokenIn(subs, a[1..]), SpokenIn(subs, b));
    }
  }

  lemma SpokenOne(subs: map<seq<byte>, nat>, p: Packet)
    ensures SpokenIn(subs, [p]) == Spoken(subs, p)
  {
    assert [p][1..] == [];
  }

  // A handler more.

  ghost predicate AllKnown(subs: map<seq<byte>, nat>, ps: seq<Packet>) {
    forall p :: p in ps && p.m.reqType == SUB_PUB ==> PublicationOk(subs, p.m)
  }

  lemma WayBackIsKnown(s: State)
    requires Sound(s) && Live(s.mode)
    ensures AllKnown(s.book.subs, WayBack(s))
  {
    forall p | p in WayBack(s) && p.m.reqType == SUB_PUB
      ensures PublicationOk(s.book.subs, p.m)
    {
      assert p in AnsweredIn(s);
      assert AnsweredOk(s.book, p);
    }
  }

  /** A new handler changes nothing for publications that had one. */
  lemma {:induction false} SameSpoken(subs: map<seq<byte>, nat>, key: seq<byte>, callback: nat, ps: seq<Packet>)
    requires AllKnown(subs, ps) && key !in subs
    ensures SpokenIn(subs + map[key := callback], ps) == SpokenIn(subs, ps)
  {
    if ps != [] {
      assert ps[0] in ps;
      assert Spoken(subs + map[key := callback], ps[0]) == Spoken(subs, ps[0]);
      SameSpoken(subs, key, callback, ps[1..]);
    }
  }

  // The steps.

  lemma PushSpeaks(s: State, p: Packet)
    requires Sound(s) && Live(s.mode)
    ensures Heard(s.(replies := Push(s.replies, p))) == Heard(s) + Spoken(s.book.subs, p)
  {
    var t := s.(replies := Push(s.replies, p));
    UnsentPush(s.replies, p);
    assert WayBack(t) == WayBack(s) + [p];
    SpokenSplits(s.book.subs, WayBack(s), [p]);
    SpokenOne(s.book.subs, p);
    Regroup(s.book.handed, SpokenIn(s.book.subs, WayBack(s)), Spoken(s.book.subs, p));
  }

  /** Nothing new is said as long as the way back, the handlers and what they were given stay. */
  lemma Silent(s: State, t: State)
    requires t.book.subs == s.book.subs && t.book.handed == s.book.handed && WayBack(t) == WayBack(s)
    ensures Heard(t) == Heard(s)
  {
  }

  lemma PublishSpeaks(s: State, key: String, data: String)
    requires Sound(s) && Enabled(s, Publish(key, data)) && |PackPublication(key, data)| < MAX_BUF_LEN
    ensures Heard(Step(s, Publish(key, data))) == Heard(s) + Said(s, Publish(key, data))
  {
    UnpackPackPublication(key, data);
    PushSpeaks(s, Plain(Message(0, SUB_PUB, PackPublication(key, data), 0)));
  }

  lemma SubscribeIsSilent(s: State, t: Client.Topic, callback: nat)
    requires Sound(s) && Enabled(s, SubscribeTo(t, callback)) && Client.Sendable(t)
    ensures Heard(Step(s, SubscribeTo(t, callback))) == Heard(s)
  {
    WayBackIsKnown(s);
    SameSpoken(s.book.subs, Client.Composite(t), callback, WayBack(s));
  }

  lemma ReplyIsSilent(s: State, p: Packet, a: Answer)
    requires s.replies.sent ==> s.replies.queue != []
    ensures Heard(System.Reply(s, p.m.reqId, p.call, a)) == Heard(s)
  {
    var r := ReplyPacket(p.m.reqId, p.call, a.reply);
    UnsentPush(s.replies, r);
    var t := System.Reply(s, p.m.reqId, p.call, a);
    assert WayBack(t) == WayBack(s) + [r];
    SpokenSplits(s.book.subs, WayBack(s), [r]);
    SpokenOne(s.book.subs, r);
  }

  lemma ServeIsSilent(s: State, run: Routers.Run)
    requires Sound(s) && Live(s.mode) && s.c2s != []
    ensures Heard(Serve(s, run)) == Heard(s)
  {
    FrontIsAsked(s);
    var p := s.c2s[0];
    var t := s.(c2s := s.c2s[1..]);
    Silent(s, t);
    if p.m.content != [] && p.m.reqType == REQ_RES {
      CallsAreRouted(s, run);
      RoutedIsSilent(t, p, Request(p.m.funcId, p.m.content), run);
    } else {
      LearningIsSilent(s, run);
    }
  }

  lemma LearningIsSilent(s: State, run: Routers.Run)
    requires s.c2s != [] && (s.c2s[0].m.content == [] || s.c2s[0].m.reqType != REQ_RES)
    ensures Heard(Serve(s, run)) == Heard(s)
  {
    assert s.book.subs + map[] == s.book.subs;
    Silent(s, Serve(s, run));
  }

  lemma RoutedIsSilent(s: State, p: Packet, served: Request, run: Routers.Run)
    requires s.replies.sent ==> s.replies.queue != []
    ensures Heard(Routed(s, p, p.m.reqId, served, run)) == Heard(s)
  {
    match Routers.RouteReply(Routers.Replay(s.history), served.func, run) {
      case None =>
      case Some(reply) =>
        if |reply| < MAX_BUF_LEN {
          ReplyIsSilent(s, p, Answer(s.history, served, run, reply));
        }
    }
  }

  lemma ServerSendsIsSilent(s: State)
    requires Sending(s.replies)
    ensures Heard(s.(replies := Send(s.replies), s2c := s.s2c + [s.replies.queue[0]])) == Heard(s)
  {
    Silent(s, s.(replies := Send(s.replies), s2c := s.s2c + [s.replies.queue[0]]));
  }

  lemma HeadIsSilent(s: State)
    requires Sound(s) && Enabled(s, ClientHead) && Live(ReadHead(s).mode)
    ensures Heard(ReadHead(s)) == Heard(s)
  {
    HeadFits(s);
    HeadRead(s);
    FrontIsHeld(s);
  }

  lemma FrontIsHeld(s: State)
    requires s.reading.None? && s.s2c != []
    ensures Heard(s.(s2c := s.s2c[1..], reading := Some(s.s2c[0]))) == Heard(s)
  {
    Silent(s, s.(s2c := s.s2c[1..], reading := Some(s.s2c[0])));
  }

  lemma HeldSpeaks(s: State)
    requires s.reading.Some?
    ensures var subs, t := s.book.subs, s.(reading := None);
      SpokenIn(subs, WayBack(s)) == Spoken(subs, s.reading.value) + SpokenIn(subs, WayBack(t))
  {
    var p, after := s.reading.value, s.s2c + Unsent(s.replies);
    assert WayBack(s) == [p] + after && WayBack(s.(reading := None)) == after;
    SpokenSplits(s.book.subs, [p], after);
    SpokenOne(s.book.subs, p);
  }

  lemma HeldCall(s: State)
    requires Sound(s) && Live(s.mode) && s.reading.Some? && s.reading.value.call.Some?
    ensures s.reading.value.m.reqType == REQ_RES
  {
    HeldBag(s);
    assert AnsweredOk(s.book, s.reading.value);
  }

  lemma HeldReplyIsSilent(s: State)
    requires s.reading.Some? && s.reading.value.m.reqType == REQ_RES
    ensures Heard(s.(reading := None)) == Heard(s)
  {
    HeldSpeaks(s);
  }

  lemma CompleteIsSilent(s: State, p: Packet, ec: ErrorCode, data: seq<byte>, after: Mode)
    ensures Heard(CompleteWith(s, p, ec, data, after)) == Heard(s)
  {
    Silent(s, CompleteWith(s, p, ec, data, after));
  }

  lemma PublicationIsHanded(s: State)
    requires Sound(s) && Enabled(s, ClientBody) && s.reading.value.call.None?
    ensures Heard(ReadBody(s)) == Heard(s)
  {
    var p := s.reading.value;
    HeldBag(s);
    assert AnsweredOk(s.book, p);
    HeldSpeaks(s);
    Regroup(s.book.handed, Spoken(s.book.subs, p), SpokenIn(s.book.subs, WayBack(s.(reading := None))));
    assert ReadBody(s).book.handed == s.book.handed + Spoken(s.book.subs, p);
    assert WayBack(ReadBody(s)) == WayBack(s.(reading := None));
  }

  /** A body read: a reply says nothing, a publication reaches its handler. */
  lemma BodyHands(s: State)
    requires Sound(s) && Enabled(s, ClientBody)
    ensures Heard(ReadBody(s)) == Heard(s)
  {
    var p := s.reading.value;
    if p.call.Some? {
      HeldCall(s);
      HeldReplyIsSilent(s);
      CompleteIsSilent(s.(reading := None), p, NoError, p.m.content, Running);
    } else {
      PublicationIsHanded(s);
    }
  }

  predicate Answers(a: Action) {
    a.Publish? || a.ServerReads? || a.HandlerAnswers?
  }

  predicate Returns(a: Action) {
    a.ServerSends? || a.ServerWriteDone? || a.ClientHead? || a.ClientBody?
  }

  lemma AnsweringInOrder(s: State, a: Action)
    requires Sound(s) && Enabled(s, a) && Answers(a) && Live(Step(s, a).mode)
    ensures Heard(Step(s, a)) == Heard(s) + Said(s, a)
  {
    match a {
      case Publish(key, data) => PublishSpeaks(s, key, data);
      case ServerReads(run) => ServeIsSilent(s, run);
      case HandlerAnswers(i, reply) =>
        var t := s.(tasks := Without(s.tasks, i));
        Silent(s, t);
        ReplyIsSilent(t, s.tasks[i].p, Answer(s.tasks[i].history, s.tasks[i].served, s.tasks[i].run, reply));
    }
  }

  lemma ReturningInOrder(s: State, a: Action)
    requires Sound(s) && Enabled(s, a) && Returns(a) && Live(Step(s, a).mode)
    ensures Heard(Step(s, a)) == Heard(s)
  {
    match a {
      case ServerSends => ServerSendsIsSilent(s);
      case ServerWriteDone => Silent(s, Step(s, a));
      case ClientHead => HeadIsSilent(s);
      case ClientBody => BodyHands(s);
    }
  }

  lemma OthersAreSilent(s: State, a: Action)
    requires Enabled(s, a) && !Answers(a) && !Returns(a) && !a.SubscribeTo? && !a.BodyAborted?
    requires Live(Step(s, a).mode)
    ensures Heard(Step(s, a)) == Heard(s)
  {
    Silent(s, Step(s, a));
  }

  lemma AbortIsSilent(s: State)
    requires Sound(s) && Enabled(s, BodyAborted) && Live(Step(s, BodyAborted).mode)
    ensures Heard(Step(s, BodyAborted)) == Heard(s)
  {
    AbortsACall(s);
    HeldCall(s);
    HeldReplyIsSilent(s);
    CompleteIsSilent(s.(reading := None), s.reading.value, Aborted, [], s.mode);
  }

  lemma AbortsACall(s: State)
    requires Sound(s) && Enabled(s, BodyAborted) && Live(Step(s, BodyAborted).mode)
    ensures Live(s.mode) && s.reading.value.call.Some?
  {
    if Live(s.mode) {
      BodyErrorIsSound(s, Aborted, s.mode);
    } else {
      LateBodyIsSound(s);
    }
  }

  lemma StepInOrder(s: State, a: Action)
    requires Sound(s) && Enabled(s, a) && Live(Step(s, a).mode)
    ensures Heard(Step(s, a)) == Heard(s) + Said(s, a)
  {
    if Answers(a) {
      AnsweringInOrder(s, a);
    } else if Returns(a) {
      ReturningInOrder(s, a);
    } else if a.SubscribeTo? {
      SubscribeIsSilent(s, a.t, a.callback);
    } else if a.BodyAborted? {
      AbortIsSilent(s);
    } else {
      OthersAreSilent(s, a);
    }
  }

  /** The step that ends a run hands nothing over. */
  lemma LastStepHands(s: State, a: Action)
    requires Sound(s) && Enabled(s, a) && !Live(Step(s, a).mode)
    ensures Step(s, a).book.handed == s.book.handed
  {
    if a.ClientBody? {
      BodyIsSound(s);
    }
  }

  lemma StepFollows(s: State, a: Action, published: seq<(nat, seq<byte>)>)
    requires Sound(s) && Enabled(s, a)
    requires (Live(s.mode) ==> Heard(s) == published) && s.book.handed <= published
    ensures var t, now := Step(s, a), published + Said(s, a);
      (Live(t.mode) ==> Heard(t) == now) && t.book.handed <= now
  {
    if Live(Step(s, a).mode) {
      LiveBefore(s, a);
      StepInOrder(s, a);
    } else {
      LastStepHands(s, a);
    }
  }

  lemma LiveBefore(s: State, a: Action)
    requires Enabled(s, a) && Live(Step(s, a).mode)
    ensures Live(s.mode)
  {
  }

  // Whole runs.

  lemma StartIsSilent(s: State)
    requires Initial(s)
    ensures Heard(s) == [] && Live(s.mode)
  {
    assert WayBack(s) == [];
  }

  lemma NextState(states: seq<State>, actions: seq<Action>, k: nat)
    requires System.Run(states, actions) && k < |actions|
    ensures Sound(states[k]) && Enabled(states[k], actions[k]) && states[k + 1] == Step(states[k], actions[k])
  {
    RunIsSound(states, actions, k);
  }

  /** Until the connection fails, what the client's handlers have been given followed by what is on
      its way to them is what was published for this connection, in order; and what they have
      been given is always a prefix of it. */
  lemma {:induction false} PublicationsInOrder(states: seq<State>, actions: seq<Action>, k: nat)
    requires System.Run(states, actions) && k < |states|
    ensures Live(states[k].mode) ==> Heard(states[k]) == Published(states, actions, k)
    ensures states[k].book.handed <= Published(states, actions, k)
  {
    if k == 0 {
      StartIsSilent(states[0]);
    } else {
      var j: nat := k - 1;
      PublicationsInOrder(states, actions, j);
      NextState(states, actions, j);
      StepFollows(states[j], actions[j], Published(states, actions, j));
    }
  }
}

/** Packets that belong to no call, on their way to the server: over any run of the system none is
    lost and none made up. For subscriptions that means that each is sent, once, and that the
    server then holds its key. */
module Subscriptions {
  import opened Bytes
  import opened Calls
  import opened Codec
  import opened Framing
  import opened Protocol
  import opened WriteQueues
  import opened System = RpcSystem
  import Client = RpcClients
  import Publications
  import Routers

  // Conservation.

  function Beat(): Packet {
    Plain(Message(0, REQ_RES, [], 0))
  }

  function FrameOf(t: Client.Topic): Packet {
    Plain(Message(0, SUB_PUB, PackPair(t.key, t.token), Routers.Key(t.key)))
  }

  /** What a step gives the client to send on behalf of no call. */
  function Added(a: Action): multiset<Packet> {
    match a
    case SubscribeTo(t, _) => multiset{FrameOf(t)}
    case Heartbeat => multiset{Beat()}
    case _ => multiset{}
  }

  /** What a step makes the server read. */
  function Taken(s: State, a: Action): multiset<Packet> {
    if a.ServerReads? && s.c2s != [] then multiset{s.c2s[0]} else multiset{}
  }

  /** How often packet `p` is on its way to the server, or was freed unsent by a close. */
  ghost function OnTheWay(s: State, p: Packet): nat {
    multiset(s.staged)[p] + multiset(Unsent(s.outbox))[p] + multiset(s.c2s)[p] + multiset(s.dropped)[p]
  }

  ghost predicate Balanced(s: State, a: Action, t: State, p: Packet) {
    OnTheWay(t, p) + Taken(s, a)[p] == OnTheWay(s, p) + Added(a)[p]
  }

  /** The places before and after. */
  predicate SamePlaces(s: State, t: State) {
    t.staged == s.staged && Unsent(t.outbox) == Unsent(s.outbox) && t.c2s == s.c2s && t.dropped == s.dropped
  }

  predicate Staged(s: State, t: State, p: Packet) {
    t.staged == s.staged + [p] && t.outbox == s.outbox && t.c2s == s.c2s && t.dropped == s.dropped
  }

  lemma StagedCount(s: State, t: State, x: Packet, p: Packet)
    requires Staged(s, t, x)
    ensures OnTheWay(t, p) == OnTheWay(s, p) + multiset{x}[p]
  {
  }

  lemma CallStages(s: State, a: Action)
    requires Enabled(s, a) && (a.CallFuture? || a.CallCallback?) && Live(Step(s, a).mode)
    ensures |Step(s, a).staged| > 0 && Step(s, a).staged[|s.staged|..] != []
    ensures var x := Step(s, a).staged[|s.staged|]; x.call.Some? && Staged(s, Step(s, a), x)
  {
  }

  lemma SubscribeStages(s: State, t: Client.Topic, callback: nat)
    requires Enabled(s, SubscribeTo(t, callback)) && Client.Sendable(t)
    ensures Staged(s, Step(s, SubscribeTo(t, callback)), FrameOf(t))
  {
  }

  lemma BeatStages(s: State)
    requires Enabled(s, Heartbeat)
    ensures Staged(s, Step(s, Heartbeat), Beat())
  {
  }

  lemma StagingBalances(s: State, a: Action, p: Packet)
    requires Enabled(s, a) && p.call.None? && Live(Step(s, a).mode)
    requires a.CallFuture? || a.CallCallback? || a.SubscribeTo? || a.Heartbeat?
    ensures Balanced(s, a, Step(s, a), p)
  {
    if a.SubscribeTo? {
      SubscribeStages(s, a.t, a.callback);
      StagedCount(s, Step(s, a), FrameOf(a.t), p);
    } else if a.Heartbeat? {
      BeatStages(s);
      StagedCount(s, Step(s, a), Beat(), p);
    } else {
      CallStages(s, a);
      StagedCount(s, Step(s, a), Step(s, a).staged[|s.staged|], p);
    }
  }

  lemma EnqueueCount(s: State, i: nat, p: Packet)
    requires i < |s.staged| && Tidy(s.outbox)
    ensures OnTheWay(s.(staged := Without(s.staged, i), outbox := Push(s.outbox, s.staged[i])), p) == OnTheWay(s, p)
  {
    WithoutBag(s.staged, i);
    PushBag(s.outbox, s.staged[i]);
  }

  lemma SendCount(s: State, p: Packet)
    requires OneWriter(s.outbox) && Sending(s.outbox)
    ensures OnTheWay(s.(outbox := Send(s.outbox), c2s := s.c2s + [s.outbox.queue[0]]), p) == OnTheWay(s, p)
  {
    SendBag(s.outbox);
  }

  lemma WriteDoneCount(s: State, p: Packet)
    requires Tidy(s.outbox) && s.outbox.inFlight > 0
    ensures OnTheWay(s.(outbox := Complete(s.outbox), dropped := s.dropped + PoppedUnsent(s.outbox)), p)
      == OnTheWay(s, p)
  {
    CompleteBag(s.outbox);
    assert multiset(Unsent(Complete(s.outbox)))[p] + multiset(PoppedUnsent(s.outbox))[p]
        == multiset(Unsent(s.outbox))[p];
  }

  lemma ClearCount(s: State, p: Packet)
    ensures OnTheWay(s.(dropped := s.dropped + Unsent(s.outbox), outbox := Clear(s.outbox), mode := OutboxCleared), p)
      == OnTheWay(s, p)
  {
  }

  predicate MovesOut(a: Action) {
    a.Enqueue? || a.ClientSends? || a.ClientWriteDone? || a.ClearOutbox?
  }

  lemma MovingOutBalances(s: State, a: Action, p: Packet)
    requires Queues(s) && Enabled(s, a) && MovesOut(a)
    ensures OnTheWay(Step(s, a), p) == OnTheWay(s, p)
  {
    match a {
      case Enqueue(i) => EnqueueCount(s, i, p);
      case ClientSends => SendCount(s, p);
      case ClientWriteDone => WriteDoneCount(s, p);
      case ClearOutbox => ClearCount(s, p);
    }
  }

  lemma ServePlaces(s: State, run: Routers.Run)
    requires s.c2s != []
    ensures SamePlaces(s.(c2s := s.c2s[1..]), Serve(s, run))
  {
  }

  lemma ServeBalances(s: State, run: Routers.Run, p: Packet)
    requires s.c2s != []
    ensures Balanced(s, ServerReads(run), Serve(s, run), p)
  {
    ServePlaces(s, run);
    FrontBag(s.c2s);
    assert multiset(s.c2s)[p] == multiset(s.c2s[1..])[p] + multiset{s.c2s[0]}[p];
  }

  predicate MovesAsked(a: Action) {
    a.CallFuture? || a.CallCallback? || a.SubscribeTo? || a.Heartbeat? || MovesOut(a) || a.ServerReads?
  }

  lemma OthersKeepPlaces(s: State, a: Action)
    requires Enabled(s, a) && !MovesAsked(a) && !EndsBody(a) && Live(Step(s, a).mode)
    ensures SamePlaces(s, Step(s, a))
  {
  }

  lemma CompletingKeepsPlaces(s: State, a: Action)
    requires Enabled(s, a) && EndsBody(a) && Live(Step(s, a).mode)
    ensures SamePlaces(s, Step(s, a))
  {
  }

  lemma StepBalances(s: State, a: Action, p: Packet)
    requires Queues(s) && Enabled(s, a) && p.call.None? && Live(Step(s, a).mode)
    ensures Balanced(s, a, Step(s, a), p)
  {
    if MovesOut(a) {
      MovingOutBalances(s, a, p);
    } else if a.ServerReads? {
      ServeBalances(s, a.run, p);
    } else if MovesAsked(a) {
      StagingBalances(s, a, p);
    } else if EndsBody(a) {
      CompletingKeepsPlaces(s, a);
    } else {
      OthersKeepPlaces(s, a);
    }
  }

  /** How often packet `p` was given to the client to send, and read by the server. */
  function AddedUpTo(actions: seq<Action>, k: nat, p: Packet): nat
    requires k <= |actions|
  {
    if k == 0 then 0 else AddedUpTo(actions, k - 1, p) + Added(actions[k - 1])[p]
  }

  function TakenUpTo(states: seq<State>, actions: seq<Action>, k: nat, p: Packet): nat
    requires k <= |actions| < |states|
  {
    if k == 0 then 0 else TakenUpTo(states, actions, k - 1, p) + Taken(states[k - 1], actions[k - 1])[p]
  }

  ghost predicate ConservedAt(states: seq<State>, actions: seq<Action>, k: nat, p: Packet)
    requires k <= |actions| < |states|
  {
    OnTheWay(states[k], p) + TakenUpTo(states, actions, k, p) == OnTheWay(states[0], p) + AddedUpTo(actions, k, p)
  }

  lemma ConservedNext(states: seq<State>, actions: seq<Action>, j: nat, p: Packet)
    requires j < |actions| < |states| && ConservedAt(states, actions, j, p)
    requires Balanced(states[j], actions[j], states[j + 1], p)
    ensures ConservedAt(states, actions, j + 1, p)
  {
  }

  /** Conservation: what the program has subscribed to and the heartbeats it has sent, with what the
      connection began with, are on their way or have been read, each once. */
  lemma {:induction false} PacketsConserved(states: seq<State>, actions: seq<Action>, k: nat, p: Packet)
    requires System.Run(states, actions) && k < |states| && Live(states[k].mode) && p.call.None?
    ensures ConservedAt(states, actions, k, p)
  {
    if k > 0 {
      var j: nat := k - 1;
      BalancedBefore(states, actions, j, p);
      PacketsConserved(states, actions, j, p);
      ConservedNext(states, actions, j, p);
    }
  }

  lemma BalancedBefore(states: seq<State>, actions: seq<Action>, j: nat, p: Packet)
    requires System.Run(states, actions) && j < |actions| && Live(states[j + 1].mode) && p.call.None?
    ensures Live(states[j].mode) && Balanced(states[j], actions[j], states[j + 1], p)
  {
    Publications.NextState(states, actions, j);
    Publications.LiveBefore(states[j], actions[j]);
    StepBalances(states[j], actions[j], p);
  }

  // Handlers and keys stay.

  ghost predicate Keeps(b: Book, c: Book) {
    && b.entries <= c.entries
    && forall key :: key in b.subs ==> key in c.subs && c.subs[key] == b.subs[key]
  }

  lemma CompletingKeeps(s: State, a: Action)
    requires Enabled(s, a) && EndsBody(a)
    ensures Step(s, a).book.subs == s.book.subs && Step(s, a).book.entries == s.book.entries
  {
  }

  lemma ServingKeeps(s: State, run: Routers.Run)
    requires s.c2s != []
    ensures Serve(s, run).book.subs == s.book.subs
    ensures forall key :: key in Serve(s, run).book.entries <==> key in s.book.entries || SubscribesTo(s.c2s[0].m, key)
  {
    assert s.book.subs + map[] == s.book.subs;
  }

  /** A frame by which the server learns this key. */
  predicate SubscribesTo(m: Message, key: seq<byte>) {
    && m.reqType == SUB_PUB && UnpackPair(m.content).Some?
    && UnpackPair(m.content).value.0 + UnpackPair(m.content).value.1 == key
  }

  lemma OthersKeep(s: State, a: Action)
    requires Enabled(s, a) && !EndsBody(a) && !a.ServerReads?
    ensures Keeps(s.book, Step(s, a).book) && Step(s, a).book.entries == s.book.entries
  {
  }

  lemma StepKeeps(s: State, a: Action)
    requires Enabled(s, a)
    ensures Keeps(s.book, Step(s, a).book)
  {
    if EndsBody(a) {
      CompletingKeeps(s, a);
    } else if a.ServerReads? {
      ServingKeeps(s, a.run);
    } else {
      OthersKeep(s, a);
    }
  }

  /** No handler is ever replaced and no key forgotten. */
  lemma {:induction false} HandlersStand(states: seq<State>, actions: seq<Action>, k: nat, m: nat)
    requires System.Run(states, actions) && k <= m < |states|
    ensures Keeps(states[k].book, states[m].book)
  {
    if k < m {
      HandlersStand(states, actions, k, m - 1);
      StepKeeps(states[m - 1], actions[m - 1]);
    }
  }

  // One subscription.

  lemma FrameIsOf(t: Client.Topic, key: seq<byte>)
    ensures SubscribesTo(FrameOf(t).m, key) <==> Client.Composite(t) == key
  {
    UnpackPackPair(t.key, t.token);
  }

  lemma FramesDiffer(t: Client.Topic, u: Client.Topic)
    ensures FrameOf(t) == FrameOf(u) <==> t == u
  {
    UnpackPackPair(t.key, t.token);
    UnpackPackPair(u.key, u.token);
  }

  /** Nothing else on its way would make the server learn this topic's key. */
  ghost predicate Alone(s: State, t: Client.Topic) {
    forall p: Packet :: p.call.None? && OnTheWay(s, p) > 0 && SubscribesTo(p.m, Client.Composite(t)) ==> p == FrameOf(t)
  }

  /** The topic's frame is on its way, once, until the server holds its key. */
  ghost predicate Pending(s: State, t: Client.Topic) {
    && Client.Composite(t) in s.book.subs && Alone(s, t)
    && OnTheWay(s, FrameOf(t)) == if Client.Composite(t) in s.book.entries then 0 else 1
  }

  lemma AloneAfter(s: State, a: Action, t: Client.Topic)
    requires Sound(s) && Enabled(s, a) && Live(Step(s, a).mode) && Pending(s, t)
    ensures Alone(Step(s, a), t)
  {
    Publications.LiveBefore(s, a);
    forall p: Packet | p.call.None? && OnTheWay(Step(s, a), p) > 0 && SubscribesTo(p.m, Client.Composite(t))
      ensures p == FrameOf(t)
    {
      StepBalances(s, a, p);
      NotAdded(s, a, t, p);
    }
  }

  lemma NotAdded(s: State, a: Action, t: Client.Topic, p: Packet)
    requires Enabled(s, a) && Client.Composite(t) in s.book.subs && SubscribesTo(p.m, Client.Composite(t))
    ensures Added(a)[p] == 0
  {
    if a.SubscribeTo? {
      FrameIsOf(a.t, Client.Composite(t));
    }
  }

  lemma CountAfter(s: State, a: Action, t: Client.Topic)
    requires Sound(s) && Enabled(s, a) && Live(s.mode) && Live(Step(s, a).mode) && Pending(s, t)
    ensures OnTheWay(Step(s, a), FrameOf(t)) == if Client.Composite(t) in Step(s, a).book.entries then 0 else 1
  {
    var key := Client.Composite(t);
    StepBalances(s, a, FrameOf(t));
    FrameIsOf(t, key);
    NotAdded(s, a, t, FrameOf(t));
    if a.ServerReads? {
      ServingKeeps(s, a.run);
      FrontCounts(s, t);
    } else if EndsBody(a) {
      CompletingKeeps(s, a);
    } else {
      OthersKeep(s, a);
    }
  }

  /** What the server reads next would make it learn the topic's key exactly if it is its frame. */
  lemma FrontCounts(s: State, t: Client.Topic)
    requires Sound(s) && Live(s.mode) && s.c2s != [] && Alone(s, t)
    ensures SubscribesTo(s.c2s[0].m, Client.Composite(t)) <==> s.c2s[0] == FrameOf(t)
    ensures OnTheWay(s, s.c2s[0]) > 0
  {
    FrameIsOf(t, Client.Composite(t));
    FrontIsAsked(s);
    assert s.c2s[0] in multiset(s.c2s);
    if s.c2s[0].call.Some? {
      CallsAreRequests(s.book, s.c2s[0]);
    }
  }

  lemma StepPending(s: State, a: Action, t: Client.Topic)
    requires Sound(s) && Enabled(s, a) && Live(Step(s, a).mode) && Pending(s, t)
    ensures Pending(Step(s, a), t)
  {
    Publications.LiveBefore(s, a);
    StepKeeps(s, a);
    AloneAfter(s, a, t);
    CountAfter(s, a, t);
  }

  lemma {:induction false} StaysPending(states: seq<State>, actions: seq<Action>, j: nat, k: nat, t: Client.Topic)
    requires System.Run(states, actions) && j <= k < |states| && Live(states[k].mode)
    requires Live(states[j].mode) ==> Pending(states[j], t)
    ensures Pending(states[k], t)
  {
    if j < k {
      var m: nat := k - 1;
      Publications.NextState(states, actions, m);
      Publications.LiveBefore(states[m], actions[m]);
      StaysPending(states, actions, j, m, t);
      StepPending(states[m], actions[m], t);
    }
  }

  // A new subscription.

  lemma OnTheWayIsAsked(s: State, p: Packet)
    requires OnTheWay(s, p) > 0
    ensures p in AskedIn(s)
  {
  }

  lemma KnownOnTheWay(s: State, p: Packet, key: seq<byte>)
    requires Sound(s) && Live(s.mode) && OnTheWay(s, p) > 0 && p.call.None? && SubscribesTo(p.m, key)
    ensures key in s.book.subs
  {
    OnTheWayIsAsked(s, p);
    assert AskedOk(s.book, p);
  }

  lemma NoneBefore(s: State, t: Client.Topic, p: Packet)
    requires Sound(s) && Live(s.mode) && Client.Composite(t) !in s.book.subs
    requires p.call.None? && SubscribesTo(p.m, Client.Composite(t))
    ensures OnTheWay(s, p) == 0
  {
    if OnTheWay(s, p) > 0 {
      KnownOnTheWay(s, p, Client.Composite(t));
    }
  }

  lemma SubscribingIsPending(s: State, t: Client.Topic, callback: nat)
    requires Sound(s) && Enabled(s, SubscribeTo(t, callback)) && Client.Sendable(t)
    ensures var c := Step(s, SubscribeTo(t, callback)); Pending(c, t) && c.book.subs[Client.Composite(t)] == callback
  {
    var c := Step(s, SubscribeTo(t, callback));
    SubscribeStages(s, t, callback);
    FrameIsOf(t, Client.Composite(t));
    forall p: Packet | p.call.None? && SubscribesTo(p.m, Client.Composite(t))
      ensures OnTheWay(c, p) == if p == FrameOf(t) then 1 else 0
    {
      NoneBefore(s, t, p);
      StagedCount(s, c, FrameOf(t), p);
    }
  }

  /** A subscription is sent, once: in every later state until the connection fails its frame is on
      its way, exactly once, or the server holds its key; and the handler is the one given. */
  lemma SubscriptionArrives(states: seq<State>, actions: seq<Action>, j: nat, k: nat, t: Client.Topic, callback: nat)
    requires System.Run(states, actions) && j < |actions| && actions[j] == SubscribeTo(t, callback)
    requires Client.Sendable(t) && j < k < |states|
    ensures Client.Composite(t) in states[k].book.subs && states[k].book.subs[Client.Composite(t)] == callback
    ensures Live(states[k].mode) ==>
      OnTheWay(states[k], FrameOf(t)) == if Client.Composite(t) in states[k].book.entries then 0 else 1
  {
    Publications.NextState(states, actions, j);
    SubscribingIsPending(states[j], t, callback);
    HandlersStand(states, actions, j + 1, k);
    if Live(states[k].mode) {
      StaysPending(states, actions, j + 1, k, t);
    }
  }

  // Subscriptions sent again.

  function Frames(order: seq<Client.Topic>): (ps: seq<Packet>)
    ensures |ps| == |order|
  {
    seq(|order|, i requires 0 <= i < |order| => FrameOf(order[i]))
  }

  lemma FramesAppend(order: seq<Client.Topic>, t: Client.Topic)
    ensures Frames(order + [t]) == Frames(order) + [FrameOf(t)]
  {
  }

  lemma LastTopic(order: seq<Client.Topic>) returns (before: seq<Client.Topic>, t: Client.Topic)
    requires order != []
    ensures order == before + [t] && before == order[..|order| - 1] && t == order[|order| - 1]
  {
    before, t := order[..|order| - 1], order[|order| - 1];
  }

  /** The outbox a connection starts with: the frames in the order of resending. */
  lemma {:induction false} ResentFrames(order: seq<Client.Topic>)
    ensures Resent(order).queue == Frames(order) && !Resent(order).sent
  {
    if order != [] {
      var before, t := LastTopic(order);
      ResentFrames(before);
      ResentLast(order, before, t);
      FramesAppend(before, t);
    }
  }

  lemma ResentLast(order: seq<Client.Topic>, before: seq<Client.Topic>, t: Client.Topic)
    requires order != [] && before == order[..|order| - 1] && t == order[|order| - 1] && !Resent(before).sent
    ensures Resent(order).queue == Resent(before).queue + [FrameOf(t)] && !Resent(order).sent
  {
  }

  lemma {:induction false} FramesOnce(order: seq<Client.Topic>, t: Client.Topic)
    requires forall i, j :: 0 <= i < j < |order| ==> order[i] != order[j]
    ensures multiset(Frames(order))[FrameOf(t)] == if t in order then 1 else 0
  {
    if order == [] {
      assert Frames(order) == [];
    } else {
      var before, last := LastTopic(order);
      FramesOnce(before, t);
      FramesDiffer(last, t);
      FramesAppend(before, last);
      assert last !in before;
      assert t in order <==> t in before || t == last;
    }
  }

  lemma StartCounts(s: State, order: seq<Client.Topic>, p: Packet)
    requires s == Start(s.book.program, s.history, s.book.subs, order)
    ensures OnTheWay(s, p) == multiset(Frames(order))[p]
  {
    ResentFrames(order);
  }

  lemma StartsAlone(s: State, topics: set<Client.Topic>, order: seq<Client.Topic>, t: Client.Topic)
    requires Client.Subscribed(s.book.subs, topics) && Client.Enumerates(order, topics) && t in topics
    requires s == Start(s.book.program, s.history, s.book.subs, order)
    ensures Alone(s, t)
  {
    forall p: Packet | OnTheWay(s, p) > 0 && SubscribesTo(p.m, Client.Composite(t))
      ensures p == FrameOf(t)
    {
      StartCounts(s, order, p);
      assert p in Frames(order);
      var i :| 0 <= i < |order| && FrameOf(order[i]) == p;
      FrameIsOf(order[i], Client.Composite(t));
    }
  }

  lemma StartsPending(s: State, topics: set<Client.Topic>, order: seq<Client.Topic>, t: Client.Topic)
    requires Client.Subscribed(s.book.subs, topics) && Client.Enumerates(order, topics) && t in topics
    requires s == Start(s.book.program, s.history, s.book.subs, order)
    ensures Pending(s, t)
  {
    StartsAlone(s, topics, order, t);
    FramesOnce(order, t);
    StartCounts(s, order, FrameOf(t));
  }

  /** A connection made anew: each handler of before has its subscription sent again, once. */
  lemma ResentArrives(states: seq<State>, actions: seq<Action>, k: nat, key: seq<byte>) returns (t: Client.Topic)
    requires System.Run(states, actions) && k < |states| && key in states[0].book.subs
    ensures Client.Composite(t) == key
    ensures Live(states[k].mode) ==>
      OnTheWay(states[k], FrameOf(t)) == if key in states[k].book.entries then 0 else 1
  {
    var s := states[0];
    var topics, order :|
      && Client.Subscribed(s.book.subs, topics) && Client.Enumerates(order, topics)
      && s == Start(s.book.program, s.history, s.book.subs, order);
    t :| t in topics && Client.Composite(t) == key;
    StartsPending(s, topics, order, t);
    if Live(states[k].mode) {
      StaysPending(states, actions, 0, k, t);
    }
  }

  /** While the connection works nothing has been dropped: on its way means staged by a thread, in
      the outbox or on the wire. */
  lemma {:induction false} NothingDropped(states: seq<State>, actions: seq<Action>, k: nat)
    requires System.Run(states, actions) && k < |states|
    ensures states[k].mode == Running ==> states[k].dropped == []
  {
    if k > 0 {
      NothingDropped(states, actions, k - 1);
      if states[k].mode == Running {
        StepDropsNothing(states[k - 1], actions[k - 1]);
      }
    }
  }

  lemma StepDropsNothing(s: State, a: Action)
    requires Enabled(s, a) && Step(s, a).mode == Running
    ensures s.mode == Running && Step(s, a).dropped == s.dropped
  {
    if EndsBody(a) {
      CompletingKeepsPlaces(s, a);
    } else if a.ServerReads? {
      ServePlaces(s, a.run);
    } else {
      OthersDropNothing(s, a);
    }
  }

  lemma OthersDropNothing(s: State, a: Action)
    requires Enabled(s, a) && Step(s, a).mode == Running && !EndsBody(a) && !a.ServerReads?
    ensures s.mode == Running && Step(s, a).dropped == s.dropped
  {
  }
}

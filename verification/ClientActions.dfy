/** What the client's program does, as objects and as steps of the system: calls, subscriptions,
    timers, writes, the close, and the start of a connection. */
module ClientActions {
  import opened Bytes
  import opened Calls
  import opened Framing
  import opened Protocol
  import opened Refinement
  import opened ReplyRefinement
  import Codec
  import System = RpcSystem
  import WQ = WriteQueues
  import Client = RpcClients
  import Routers

  /** The client's calls, subscriptions and outbox are the system's. */
  ghost predicate ProgramAt(s: System.State, client: Client.RpcClient)
    reads client, client.box
  {
    SameBook(s, client) && SameOutbox(s, client)
  }

  lemma PushUntagged(q: WQ.WriteQueue<Packet>, p: Packet)
    ensures Untagged(WQ.Push(q, p)) == WQ.Push(Untagged(q), p.m)
  {
    FirstContents(q.queue);
    assert Contents(q.queue + [p]) == Contents(q.queue) + [p.m];
    assert Contents([p]) == [p.m];
  }

  lemma CompleteUntagged(q: WQ.WriteQueue<Packet>)
    requires q.inFlight > 0
    ensures Untagged(WQ.Complete(q)) == WQ.Complete(Untagged(q))
  {
    FirstContents(q.queue);
    if q.queue != [] {
      assert Contents(q.queue[1..]) == Contents(q.queue)[1..];
    }
  }

  // Calls and subscriptions: a step that stages a packet, and the one that queues it.

  /** A thread's packet, staged last, goes into the outbox next. */
  ghost predicate Queued(s: System.State, a: System.Action, t: System.State) {
    && System.Enabled(s, a)
    && var u := System.Step(s, a);
       && |u.staged| == |s.staged| + 1 && System.Enabled(u, System.Enqueue(|s.staged|))
       && t == System.Step(u, System.Enqueue(|s.staged|))
  }

  /** Where those two steps lead. */
  ghost predicate QueuedAs(s: System.State, t: System.State, m: Message) {
    && Untagged(t.outbox) == WQ.Push(Untagged(s.outbox), m) && t.staged == s.staged
    && t.book.completions == s.book.completions && t.book.handed == s.book.handed
  }

  lemma StagedLast(s: System.State, u: System.State, p: Packet)
    requires System.Live(u.mode) && u.staged == s.staged + [p] && u.outbox == s.outbox
    ensures System.Enabled(u, System.Enqueue(|s.staged|))
    ensures var t := System.Step(u, System.Enqueue(|s.staged|));
      && t.book == u.book && t.staged == s.staged && Untagged(t.outbox) == WQ.Push(Untagged(s.outbox), p.m)
  {
    PushUntagged(s.outbox, p);
    assert System.Without(s.staged + [p], |s.staged|) == s.staged;
  }

  /** A step that stages one frame, and its queueing. */
  lemma StagedQueues(s: System.State, a: System.Action, p: Packet) returns (t: System.State)
    requires System.Live(s.mode) && System.Enabled(s, a)
    requires var u := System.Step(s, a);
      && u.mode == s.mode && u.staged == s.staged + [p] && u.outbox == s.outbox
      && u.book.completions == s.book.completions && u.book.handed == s.book.handed
    ensures Queued(s, a, t) && QueuedAs(s, t, p.m) && t.book == System.Step(s, a).book
  {
    var u := System.Step(s, a);
    StagedLast(s, u, p);
    t := System.Step(u, System.Enqueue(|s.staged|));
  }

  lemma CallStep(s: System.State, a: System.Action, d: CallMaps, id: uint64)
    requires (a.CallFuture? || a.CallCallback?) && System.Enabled(s, a) && |a.args| < MAX_BUF_LEN
    requires (a.CallFuture? && d == AddFuture(s.book.calls, |s.book.ids|) && id == NextFutureId(s.book.calls.fuId))
      || (a.CallCallback? && d == AddCallback(s.book.calls, |s.book.ids|)
          && id == NextCallbackId(s.book.calls.callbackId))
    ensures System.Step(s, a) == System.Call(s, d, id, Request(Routers.Key(a.name), a.args))
  {
  }

  lemma CallQueues(s: System.State, a: System.Action, d: CallMaps, id: uint64) returns (t: System.State)
    requires System.Live(s.mode) && (a.CallFuture? || a.CallCallback?)
    requires System.Enabled(s, a) && |a.args| < MAX_BUF_LEN
    requires (a.CallFuture? && d == AddFuture(s.book.calls, |s.book.ids|) && id == NextFutureId(s.book.calls.fuId))
      || (a.CallCallback? && d == AddCallback(s.book.calls, |s.book.ids|)
          && id == NextCallbackId(s.book.calls.callbackId))
    ensures Queued(s, a, t) && QueuedAs(s, t, Message(id, REQ_RES, a.args, Routers.Key(a.name)))
    ensures t.book.calls == d && t.book.subs == s.book.subs
  {
    CallStep(s, a, d, id);
    t := StagedQueues(s, a, Packet(Message(id, REQ_RES, a.args, Routers.Key(a.name)), Codec.Some(|s.book.ids|)));
  }

  /** A call for a future, with its serial number. */
  method CallsFuture(client: Client.RpcClient, ghost s: System.State, call: nat, name: Routers.Name, args: seq<byte>,
                     gap1: seq<byte>, gap2: seq<byte>)
    returns (ghost t: System.State)
    requires client.box.Valid() && ProgramAt(s, client) && System.Enabled(s, System.CallFuture(name, args))
    requires call == |s.book.ids| && System.Live(s.mode) && |args| < MAX_BUF_LEN && |gap1| == 2 && |gap2| == 4
    modifies client, client.box
    ensures client.box.Valid() && Queued(s, System.CallFuture(name, args), t) && ProgramAt(t, client)
  {
    t := CallQueues(s, System.CallFuture(name, args), AddFuture(s.book.calls, call), NextFutureId(s.book.calls.fuId));
    var id := client.AsyncCallFuture(call, name, args, gap1, gap2);
  }

  /** A call with a callback. */
  method CallsCallback(client: Client.RpcClient, ghost s: System.State, call: nat, name: Routers.Name,
                       args: seq<byte>, gap1: seq<byte>, gap2: seq<byte>)
    returns (ghost t: System.State)
    requires client.box.Valid() && ProgramAt(s, client) && System.Enabled(s, System.CallCallback(name, args))
    requires call == |s.book.ids| && System.Live(s.mode) && client.hasConnected
    requires |args| < MAX_BUF_LEN && |gap1| == 2 && |gap2| == 4
    modifies client, client.box
    ensures client.box.Valid() && Queued(s, System.CallCallback(name, args), t) && ProgramAt(t, client)
  {
    t := CallQueues(s, System.CallCallback(name, args), AddCallback(s.book.calls, call),
                    NextCallbackId(s.book.calls.callbackId));
    client.AsyncCallCallback(call, name, args, gap1, gap2);
  }

  lemma SubscriptionStages(s: System.State, topic: Client.Topic, callback: nat)
    requires System.Live(s.mode) && Client.Composite(topic) !in s.book.subs && Client.Sendable(topic)
    ensures System.Enabled(s, System.SubscribeTo(topic, callback))
    ensures System.Step(s, System.SubscribeTo(topic, callback)) == System.Subscribed(s, topic, callback)
  {
  }

  lemma SubscriptionQueues(s: System.State, t: Client.Topic, callback: nat) returns (u: System.State)
    requires System.Live(s.mode) && Client.Composite(t) !in s.book.subs && Client.Sendable(t)
    ensures Queued(s, System.SubscribeTo(t, callback), u) && QueuedAs(s, u, Client.SubscribeMessage(t))
    ensures u.book.calls == s.book.calls && u.book.subs == s.book.subs[Client.Composite(t) := callback]
  {
    SubscriptionStages(s, t, callback);
    u := StagedQueues(s, System.SubscribeTo(t, callback), System.Plain(Client.SubscribeMessage(t)));
  }

  /** A subscription under a key that is not taken. */
  method Subscribes(client: Client.RpcClient, ghost s: System.State, key: Codec.String, token: Codec.String,
                    callback: nat, gap1: seq<byte>, gap2: seq<byte>)
    returns (ghost t: System.State)
    requires client.box.Valid() && ProgramAt(s, client) && Client.Subscribed(client.subMap, client.keyTokenSet)
    requires Client.Sendable(Client.Topic(key, token)) && key + token !in client.subMap
    requires System.Live(s.mode) && |gap1| == 2 && |gap2| == 4
    modifies client, client.box
    ensures client.box.Valid() && Client.Subscribed(client.subMap, client.keyTokenSet)
    ensures Queued(s, System.SubscribeTo(Client.Topic(key, token), callback), t) && ProgramAt(t, client)
  {
    t := SubscriptionQueues(s, Client.Topic(key, token), callback);
    FollowSubscription(client, s, t, Client.Topic(key, token), callback, gap1, gap2);
  }

  method FollowSubscription(client: Client.RpcClient, ghost s: System.State, ghost t: System.State,
                            topic: Client.Topic, callback: nat, gap1: seq<byte>, gap2: seq<byte>)
    requires client.box.Valid() && ProgramAt(s, client) && Client.Subscribed(client.subMap, client.keyTokenSet)
    requires Client.Sendable(topic) && Client.Composite(topic) !in client.subMap && |gap1| == 2 && |gap2| == 4
    requires QueuedAs(s, t, Client.SubscribeMessage(topic))
    requires t.book.calls == s.book.calls && t.book.subs == s.book.subs[Client.Composite(topic) := callback]
    modifies client, client.box
    ensures client.box.Valid() && Client.Subscribed(client.subMap, client.keyTokenSet) && ProgramAt(t, client)
  {
    client.Subscribe(topic.key, topic.token, callback, gap1, gap2);
    assert SameBook(t, client);
    assert SameOutbox(t, client);
  }

  // Timers and writes.

  method TimerFires(client: Client.RpcClient, ghost s: System.State, id: uint64) returns (ghost t: System.State)
    requires ProgramAt(s, client) && System.Live(s.mode) && id in client.callbackMap
    modifies client
    ensures System.Enabled(s, System.TimerFires(id)) && t == System.Step(s, System.TimerFires(id))
    ensures ProgramAt(t, client)
  {
    t := System.Step(s, System.TimerFires(id));
    client.TimerFires(id);
  }

  /** A write that has sent its frame completes. */
  method WriteDone(client: Client.RpcClient, ghost s: System.State, k: nat, gap1: seq<byte>, gap2: seq<byte>)
    returns (ghost t: System.State)
    requires client.box.Valid() && ProgramAt(s, client) && s.mode == System.Running && System.Sent(s.outbox)
    requires k < client.box.inFlight && |gap1| == 2 && |gap2| == 4
    requires !client.box.cleared ==> client.box.writer.sent == HEAD_LEN + client.box.writeSize
    modifies client, client.box
    ensures client.box.Valid() && ProgramAt(t, client)
    ensures System.Enabled(s, System.ClientWriteDone) && t == System.Step(s, System.ClientWriteDone)
  {
    t := System.Step(s, System.ClientWriteDone);
    CompleteUntagged(s.outbox);
    client.OnWrite(false, k, gap1, gap2);
  }

  /** A write fails. */
  method WriteFails(client: Client.RpcClient, ghost s: System.State, k: nat, gap1: seq<byte>, gap2: seq<byte>)
    returns (ghost t: System.State)
    requires client.box.Valid() && ProgramAt(s, client) && s.mode == System.Running
    requires k < client.box.inFlight && |gap1| == 2 && |gap2| == 4
    modifies client, client.box
    ensures client.box.Valid() && ProgramAt(t, client) && !client.hasConnected && t.mode == System.Failed
    ensures System.Enabled(s, System.WriteError) && t == System.Step(s, System.WriteError)
  {
    t := System.Step(s, System.WriteError);
    client.OnWrite(true, k, gap1, gap2);
  }

  // The close, and the start.

  /** The three sections of a close, one after the other. */
  ghost predicate ClosedBy(s: System.State, t: System.State) {
    && System.Enabled(s, System.CloseSocket)
    && var u := System.Step(s, System.CloseSocket);
       && System.Enabled(u, System.ClearOutbox)
       && var v := System.Step(u, System.ClearOutbox);
          System.Enabled(v, System.ClearMaps) && t == System.Step(v, System.ClearMaps)
  }

  lemma CloseSteps(s: System.State) returns (t: System.State)
    requires s.mode == System.Running
    ensures ClosedBy(s, t) && t.mode == System.MapsCleared
    ensures t.book == s.book.(calls := Forget(s.book.calls)) && t.outbox == WQ.Clear(s.outbox)
    ensures t.dropped == s.dropped + WQ.Unsent(s.outbox)
  {
    var u := System.Step(s, System.CloseSocket);
    var v := System.Step(u, System.ClearOutbox);
    t := System.Step(v, System.ClearMaps);
  }

  /** `close`, with nothing happening in between. */
  method Closes(client: Client.RpcClient, ghost s: System.State) returns (ghost t: System.State)
    requires client.box.Valid() && ProgramAt(s, client) && s.mode == System.Running && client.hasConnected
    modifies client, client.box
    ensures client.box.Valid() && ClosedBy(s, t) && ProgramAt(t, client)
    ensures !client.hasConnected && !client.socketOpen
  {
    t := CloseSteps(s);
    ClearUntagged(s.outbox);
    client.Close();
  }

  lemma {:induction false} ResentIsPushAll(order: seq<Client.Topic>)
    ensures Untagged(System.Resent(order)) == Client.PushAll(WQ.Idle(), order)
  {
    if order == [] {
      assert Contents([]) == [];
    } else {
      var n := |order| - 1;
      ResentIsPushAll(order[..n]);
      PushUntagged(System.Resent(order[..n]), System.Plain(Client.SubscribeMessage(order[n])));
    }
  }

  /** A connection is made: the client is in a state that a run of the system may start from. */
  method Connects(client: Client.RpcClient, gap1: seq<byte>, gap2: seq<byte>,
                  ghost program: Program, ghost history: seq<Routers.Change>)
    returns (ghost s: System.State)
    requires client.box.Valid() && client.ReaderValid() && Client.Subscribed(client.subMap, client.keyTokenSet)
    requires client.box.Value() == WQ.Idle() && client.Calls() == NO_CALLS
    requires client.completions == [] && client.handed == [] && Routers.WellKeyed(history)
    requires !client.hasConnected && client.reading == Client.NoRead && client.consumed == []
    requires |gap1| == 2 && |gap2| == 4
    modifies client, client.box
    ensures client.box.Valid() && client.ReaderValid() && client.hasConnected && client.reading == Client.ReadHead
    ensures System.Initial(s) && s.history == history && s.book.program == program && ProgramAt(s, client)
  {
    ghost var order := client.OnConnected(gap1, gap2);
    s := System.Start(program, history, client.subMap, order);
    ResentIsPushAll(order);
  }
}

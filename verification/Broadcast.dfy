/** From the server's `publish` to the systems of its connections: one pass over the subscription
    registry is, for each connection, as many Publish steps as it has subscribed to the key. */
module Broadcast {
  import opened Bytes
  import opened Calls
  import opened Codec
  import opened Framing
  import opened Protocol
  import opened Publications
  import opened System = RpcSystem
  import Registries
  import Routers

  // The registry.

  lemma {:induction false} ReachedTimes(subs: seq<Registries.Entry>, dead: set<nat>, key: seq<byte>, conn: nat)
    requires conn !in dead
    ensures multiset(Registries.Deliveries(subs, dead, key))[conn] == multiset(subs)[Registries.Entry(key, conn)]
  {
    if subs != [] {
      var first, rest := subs[0], subs[1..];
      ReachedTimes(rest, dead, key, conn);
      Counted(first, rest, Registries.Entry(key, conn));
      assert subs == [first] + rest;
      assert Registries.Served(first, dead, key) == [] || Registries.Served(first, dead, key) == [first.conn];
    }
  }

  lemma Counted<T>(x: T, xs: seq<T>, y: T)
    ensures multiset([x] + xs)[y] == multiset(xs)[y] + if x == y then 1 else 0
  {
  }

  lemma {:induction false} SubscribedTimes(events: seq<Registries.Event>, e: Registries.Entry)
    ensures multiset(Registries.Run(events, false).subs)[e] == multiset(events)[Registries.Subscribed(e)]
  {
    if events != [] {
      var n := |events| - 1;
      SubscribedTimes(events[..n], e);
      Appended(events[..n], events[n], Registries.Subscribed(e));
      assert events == events[..n] + [events[n]];
      if events[n].Subscribed? {
        Appended(Registries.Run(events[..n], false).subs, events[n].e, e);
      }
    }
  }

  lemma Appended<T>(xs: seq<T>, x: T, y: T)
    ensures multiset(xs + [x])[y] == multiset(xs)[y] + if x == y then 1 else 0
  {
  }

  /** A connection that stays open gets a publication as often as it has subscribed to the key,
      whatever cleaning passes, other connections and deaths there have been. */
  lemma DeliveredTimes(events: seq<Registries.Event>, key: seq<byte>, conn: nat)
    requires Registries.Died(conn) !in events
    ensures var w := Registries.Run(events, true);
      multiset(Registries.Deliveries(w.subs, w.dead, key))[conn]
        == multiset(events)[Registries.Subscribed(Registries.Entry(key, conn))]
  {
    var v := Registries.Run(events, false);
    Registries.CleanerIsInvisible(events, key);
    Registries.DeathsOf(events, false, conn);
    ReachedTimes(v.subs, v.dead, key, conn);
    SubscribedTimes(events, Registries.Entry(key, conn));
  }

  // One connection's system beside the registry.

  /** The keys the system holds for its connection are those the connection has subscribed to. */
  ghost predicate Tracks(s: State, events: seq<Registries.Event>, conn: nat) {
    forall key :: key in s.book.entries <==> Registries.Subscribed(Registries.Entry(key, conn)) in events
  }

  /** What a served frame makes the server's callback enter into the registry. */
  function Entered(m: Message, conn: nat): seq<Registries.Event> {
    if m.content == [] || m.reqType != SUB_PUB then []
    else
      match UnpackPair(m.content)
      case None => []
      case Some((key, token)) => [Registries.Subscribed(Registries.Entry(key + token, conn))]
  }

  /** The events of the registry that belong to a step of the connection's system. */
  function EventsOf(s: State, a: Action, conn: nat): seq<Registries.Event> {
    if a.ServerReads? && s.c2s != [] then Entered(s.c2s[0].m, conn) else []
  }

  lemma NothingEntered(s: State, t: State, events: seq<Registries.Event>, conn: nat)
    requires Tracks(s, events, conn) && t.book.entries == s.book.entries
    ensures Tracks(t, events + [], conn)
  {
    assert events + [] == events;
  }

  lemma OthersEnterNothing(s: State, a: Action)
    requires Enabled(s, a) && !a.ServerReads?
    ensures Step(s, a).book.entries == s.book.entries
  {
    var t := s.(reading := None);
    match a {
      case ClientBody => CompleteEntersNothing(t, s.reading.value, NoError, s.reading.value.m.content, Running);
      case BodyError => CompleteEntersNothing(t, s.reading.value, ReadError, [], Failed);
      case BodyAborted => CompleteEntersNothing(t, s.reading.value, Aborted, [], s.mode);
      case _ =>
    }
  }

  lemma CompleteEntersNothing(s: State, p: Packet, ec: ErrorCode, data: seq<byte>, after: Mode)
    ensures CompleteWith(s, p, ec, data, after).book.entries == s.book.entries
  {
  }

  lemma ServeEnters(s: State, run: Routers.Run, events: seq<Registries.Event>, conn: nat)
    requires s.c2s != [] && Tracks(s, events, conn)
    ensures Tracks(Serve(s, run), events + Entered(s.c2s[0].m, conn), conn)
  {
    var m := s.c2s[0].m;
    if m.content != [] && m.reqType == SUB_PUB && UnpackPair(m.content).Some? {
      var pair := UnpackPair(m.content).value;
      assert Serve(s, run).book.entries == s.book.entries + {pair.0 + pair.1};
    } else {
      NothingEntered(s, Serve(s, run), events, conn);
    }
  }

  /** Each step keeps the two in agreement. */
  lemma StepTracks(s: State, a: Action, events: seq<Registries.Event>, conn: nat)
    requires Enabled(s, a) && Tracks(s, events, conn)
    ensures Tracks(Step(s, a), events + EventsOf(s, a, conn), conn)
  {
    if a.ServerReads? {
      ServeEnters(s, a.run, events, conn);
    } else {
      OthersEnterNothing(s, a);
      NothingEntered(s, Step(s, a), events, conn);
    }
  }

  /** So do the events of other connections, deaths and cleaning passes. */
  lemma OthersTrack(s: State, events: seq<Registries.Event>, e: Registries.Event, conn: nat)
    requires Tracks(s, events, conn) && (e.Subscribed? ==> e.e.conn != conn)
    ensures Tracks(s, events + [e], conn)
  {
  }

  lemma NewConnectionTracks(s: State, events: seq<Registries.Event>, conn: nat)
    requires Initial(s) && forall e :: e in events && e.Subscribed? ==> e.e.conn != conn
    ensures Tracks(s, events, conn)
  {
  }

  // Publishing.

  function Times<T>(x: T, n: nat): (xs: seq<T>)
    ensures |xs| == n
  {
    seq(n, _ => x)
  }

  lemma OnceMoreTimes<T>(x: T, n: nat)
    ensures Times(x, n + 1) == Times(x, n) + [x]
  {
  }

  /** The data as many times for the handler under the key. */
  function ToHandler(subs: map<seq<byte>, nat>, key: seq<byte>, data: seq<byte>, n: nat): seq<(nat, seq<byte>)> {
    if key in subs then Times((subs[key], data), n) else []
  }

  /** A run that has come to a live state with this book, having published this. */
  ghost predicate Reaches(states: seq<State>, actions: seq<Action>, book: Book, published: seq<(nat, seq<byte>)>) {
    && System.Run(states, actions) && Live(states[|actions|].mode) && states[|actions|].book == book
    && Published(states, actions, |actions|) == published
  }

  lemma PublishIsEnabled(s: State, key: String, data: String)
    requires Sound(s) && Live(s.mode) && key in s.book.entries && |PackPublication(key, data)| < MAX_BUF_LEN
    ensures Enabled(s, Publish(key, data)) && key in s.book.subs
    ensures Said(s, Publish(key, data)) == [(s.book.subs[key], data)]
    ensures Step(s, Publish(key, data)).book == s.book && Step(s, Publish(key, data)).mode == s.mode
  {
  }

  /** What was published in the first steps does not depend on the later ones. */
  lemma {:induction false} SamePublished(states: seq<State>, actions: seq<Action>, more: seq<State>, later: seq<Action>,
                                         k: nat)
    requires k <= |actions| < |states| && states <= more && actions <= later && |later| < |more|
    ensures Published(more, later, k) == Published(states, actions, k)
  {
    if k > 0 {
      SamePublished(states, actions, more, later, k - 1);
    }
  }

  /** One more Publish step at the end of a run. */
  lemma PublishOnce(states: seq<State>, actions: seq<Action>, book: Book, published: seq<(nat, seq<byte>)>,
                    key: String, data: String)
    returns (next: State)
    requires Reaches(states, actions, book, published) && key in book.entries
    requires |PackPublication(key, data)| < MAX_BUF_LEN
    ensures key in book.subs
    ensures Reaches(states + [next], actions + [Publish(key, data)], book, published + [(book.subs[key], data)])
  {
    var n := |actions|;
    RunIsSound(states, actions, n);
    PublishIsEnabled(states[n], key, data);
    next := Step(states[n], Publish(key, data));
    RunsOn(states, actions, Publish(key, data));
    SamePublished(states, actions, states + [next], actions + [Publish(key, data)], n);
  }

  /** The run of a system goes on with `n` Publish steps: what its handler is to be given grows by
      the data as many times, and nothing else. */
  ghost predicate Continues(states: seq<State>, actions: seq<Action>, book: Book, published: seq<(nat, seq<byte>)>,
                            key: String, data: String, n: nat, more: seq<State>)
  {
    && |more| == n && (n > 0 ==> key in book.subs)
    && Reaches(states + more, actions + Times(Publish(key, data), n), book,
               published + ToHandler(book.subs, key, data, n))
  }

  lemma {:induction false} PublishTimes(states: seq<State>, actions: seq<Action>, book: Book,
                                        published: seq<(nat, seq<byte>)>, key: String, data: String, n: nat)
    returns (more: seq<State>)
    requires Reaches(states, actions, book, published)
    requires n > 0 ==> key in book.entries
    requires |PackPublication(key, data)| < MAX_BUF_LEN
    ensures Continues(states, actions, book, published, key, data, n, more)
  {
    if n == 0 {
      more := [];
      assert states + more == states && actions + Times(Publish(key, data), 0) == actions;
      assert published + ToHandler(book.subs, key, data, 0) == published;
    } else {
      var m: nat := n - 1;
      var before := PublishTimes(states, actions, book, published, key, data, m);
      var soFar := published + ToHandler(book.subs, key, data, m);
      var next := PublishOnce(states + before, actions + Times(Publish(key, data), m), book, soFar, key, data);
      more := before + [next];
      OnceMore(states, actions, book, published, key, data, m, before, next);
    }
  }

  lemma OnceMore(states: seq<State>, actions: seq<Action>, book: Book, published: seq<(nat, seq<byte>)>,
                 key: String, data: String, m: nat, before: seq<State>, next: State)
    requires |before| == m && key in book.subs
    requires Reaches(states + before + [next], actions + Times(Publish(key, data), m) + [Publish(key, data)], book,
                     published + ToHandler(book.subs, key, data, m) + [(book.subs[key], data)])
    ensures Continues(states, actions, book, published, key, data, m + 1, before + [next])
  {
    OnceMoreTimes(Publish(key, data), m);
    OnceMoreTimes((book.subs[key], data), m);
    Regroup(states, before, [next]);
    Regroup(actions, Times(Publish(key, data), m), [Publish(key, data)]);
    Regroup(published, ToHandler(book.subs, key, data, m), [(book.subs[key], data)]);
  }

  /** One call of `publish`, under its second lock, for a connection that is open: the run of its
      system goes on with one Publish step for each delivery to the connection, which is one for
      each of its subscriptions to the key. */
  lemma PublishIsSteps(states: seq<State>, actions: seq<Action>, events: seq<Registries.Event>, conn: nat,
                       key: String, data: String)
    returns (more: seq<State>)
    requires System.Run(states, actions) && Live(states[|actions|].mode)
    requires Tracks(states[|actions|], events, conn) && Registries.Died(conn) !in events
    requires |PackPublication(key, data)| < MAX_BUF_LEN
    ensures var w, book := Registries.Run(events, true), states[|actions|].book;
      var n := multiset(Registries.Deliveries(w.subs, w.dead, key))[conn];
      && (n > 0 <==> key in book.entries)
      && Continues(states, actions, book, Published(states, actions, |actions|), key, data, n, more)
  {
    var w := Registries.Run(events, true);
    var n := multiset(Registries.Deliveries(w.subs, w.dead, key))[conn];
    DeliveredTimes(events, key, conn);
    more := PublishTimes(states, actions, states[|actions|].book, Published(states, actions, |actions|), key, data, n);
  }
}

/** The server's two registries and their background cleaners (include/rest_rpc/rpc_server.h):
    accepted connections by id, and subscriptions by composite key. A connection object is an
    integer handle; whether it is closed or expired is the environment's doing and only ever
    goes from alive to dead. */
module Registries {
  import opened Bytes
  import opened Codec

  type Handle = nat

  /** An entry of the subscription multimap. */
  datatype Entry = Entry(key: seq<byte>, conn: Handle)

  /** `find(needle) != npos`. */
  predicate Occurs(needle: seq<byte>, text: seq<byte>) {
    exists i :: 0 <= i <= |text| && StartsAt(needle, text, i)
  }

  predicate StartsAt(needle: seq<byte>, text: seq<byte>, i: nat) {
    i + |needle| <= |text| && text[i..i + |needle|] == needle
  }

  /** One text occurs in another exactly if that consists of it with something before and after. */
  lemma OccursIsInfix(needle: seq<byte>, text: seq<byte>)
    ensures Occurs(needle, text) <==> exists a, b :: text == a + needle + b
  {
    if i :| 0 <= i <= |text| && StartsAt(needle, text, i) {
      assert text == text[..i] + needle + text[i + |needle|..];
    }
    if a, b :| text == a + needle + b {
      assert StartsAt(needle, text, |a|);
    }
  }

  function Kept(e: Entry, dead: set<Handle>): seq<Entry> {
    if e.conn in dead then [] else [e]
  }

  function Live(subs: seq<Entry>, dead: set<Handle>): seq<Entry> {
    if subs == [] then [] else Kept(subs[0], dead) + Live(subs[1..], dead)
  }

  /** Who receives a publication, with multiplicity and in the map's order. */
  function Deliveries(subs: seq<Entry>, dead: set<Handle>, key: seq<byte>): seq<Handle> {
    if subs == [] then [] else Served(subs[0], dead, key) + Deliveries(subs[1..], dead, key)
  }

  function Served(e: Entry, dead: set<Handle>, key: seq<byte>): seq<Handle> {
    if e.key == key && e.conn !in dead then [e.conn] else []
  }

  /** The tokens that occur in the composite key of no dead entry. */
  function KeptTokens(tokens: set<seq<byte>>, subs: seq<Entry>, dead: set<Handle>): set<seq<byte>> {
    set t | t in tokens && forall e :: e in subs && e.conn in dead ==> !Occurs(t, e.key)
  }

  function WithoutOccurring(tokens: set<seq<byte>>, key: seq<byte>): set<seq<byte>> {
    set t | t in tokens && !Occurs(t, key)
  }

  // Deliveries depend on the live entries only.

  lemma LiveCons(e: Entry, subs: seq<Entry>, dead: set<Handle>)
    ensures Live([e] + subs, dead) == Kept(e, dead) + Live(subs, dead)
  {
    assert ([e] + subs)[1..] == subs;
  }

  lemma DeliveriesCons(e: Entry, subs: seq<Entry>, dead: set<Handle>, key: seq<byte>)
    ensures Deliveries([e] + subs, dead, key) == Served(e, dead, key) + Deliveries(subs, dead, key)
  {
    assert ([e] + subs)[1..] == subs;
  }

  lemma {:induction false} LiveAppend(a: seq<Entry>, b: seq<Entry>, dead: set<Handle>)
    ensures Live(a + b, dead) == Live(a, dead) + Live(b, dead)
  {
    if a == [] {
      assert a + b == b;
    } else {
      var rest := a[1..];
      LiveAppend(rest, b, dead);
      LiveCons(a[0], rest + b, dead);
      assert a + b == [a[0]] + (rest + b);
      Regroup(Kept(a[0], dead), Live(rest, dead), Live(b, dead));
    }
  }

  lemma {:induction false} DeliveriesOfLive(subs: seq<Entry>, dead: set<Handle>, key: seq<byte>)
    ensures Deliveries(subs, dead, key) == Deliveries(Live(subs, dead), dead, key)
  {
    if subs != [] {
      DeliveriesOfLive(subs[1..], dead, key);
      if subs[0].conn !in dead {
        DeliveriesCons(subs[0], Live(subs[1..], dead), dead, key);
      } else {
        assert Live(subs, dead) == Live(subs[1..], dead);
        assert Deliveries(subs, dead, key) == Deliveries(subs[1..], dead, key);
      }
    }
  }

  /** Cleaning with an earlier, smaller dead set first makes no difference. */
  lemma {:induction false} LiveTwice(subs: seq<Entry>, early: set<Handle>, late: set<Handle>)
    requires early <= late
    ensures Live(Live(subs, early), late) == Live(subs, late)
  {
    if subs != [] {
      LiveTwice(subs[1..], early, late);
      if subs[0].conn !in early {
        LiveCons(subs[0], Live(subs[1..], early), late);
      } else {
        assert Live(subs, early) == Live(subs[1..], early);
        assert Live(subs, late) == Live(subs[1..], late);
      }
    }
  }

  lemma {:induction false} LiveIsExact(subs: seq<Entry>, dead: set<Handle>, e: Entry)
    ensures e in Live(subs, dead) <==> e in subs && e.conn !in dead
  {
    if subs != [] {
      LiveIsExact(subs[1..], dead, e);
      assert e in subs <==> e == subs[0] || e in subs[1..];
    }
  }

  /** The entries a cleaning pass leaves, when it has erased those marked. A pass erases only
      entries whose connection it found dead; one may die while the pass is under way, so of two
      entries of one connection it may erase the later one only. */
  function Pruned(subs: seq<Entry>, k: nat, dead: set<Handle>, erased: seq<bool>): seq<Entry>
    requires k <= |subs|
  {
    if k == 0 then []
    else
      var n := k - 1;
      Pruned(subs, n, dead, erased) + if n < |erased| && erased[n] && subs[n].conn in dead then [] else [subs[n]]
  }

  lemma LiveLast(subs: seq<Entry>, e: Entry, dead: set<Handle>)
    ensures Live(subs + [e], dead) == Live(subs, dead) + Kept(e, dead)
  {
    LiveAppend(subs, [e], dead);
    LiveCons(e, [], dead);
    assert [e] + [] == [e];
  }

  ghost predicate SameLive(a: seq<Entry>, b: seq<Entry>, dead: set<Handle>) {
    Live(a, dead) == Live(b, dead)
  }

  lemma SameLiveAfter(front: seq<Entry>, left: seq<Entry>, e: Entry, spared: bool, late: set<Handle>)
    requires SameLive(left, front, late) && (spared || e.conn in late)
    ensures SameLive(left + (if spared then [e] else []), front + [e], late)
  {
    LiveLast(front, e, late);
    if spared {
      LiveLast(left, e, late);
    } else {
      assert left + [] == left;
      assert Live(front, late) + [] == Live(front, late);
    }
  }

  /** What a pass erased makes no difference later. */
  lemma {:induction false} LivePruned(subs: seq<Entry>, k: nat, early: set<Handle>, late: set<Handle>,
                                      erased: seq<bool>)
    requires k <= |subs| && early <= late
    ensures SameLive(Pruned(subs, k, early, erased), subs[..k], late)
  {
    if k == 0 {
      assert subs[..k] == [];
    } else {
      var n: nat := k - 1;
      LivePruned(subs, n, early, late, erased);
      LivePrunedNext(subs, n, early, late, erased);
    }
  }

  lemma LivePrunedNext(subs: seq<Entry>, n: nat, early: set<Handle>, late: set<Handle>, erased: seq<bool>)
    requires n < |subs| && early <= late && SameLive(Pruned(subs, n, early, erased), subs[..n], late)
    ensures SameLive(Pruned(subs, n + 1, early, erased), subs[..n + 1], late)
  {
    var left := Pruned(subs, n, early, erased);
    var spared := !(n < |erased| && erased[n] && subs[n].conn in early);
    SameLiveAfter(subs[..n], left, subs[n], spared, late);
    assert subs[..n + 1] == subs[..n] + [subs[n]];
    assert Pruned(subs, n + 1, early, erased) == left + if spared then [subs[n]] else [];
  }

  // Runs of the subscription registry. Two runs with the same events, one of them without its
  // cleaning passes, are compared. Deaths during a pass come before it in the list.

  datatype Event = Subscribed(e: Entry) | Died(conn: Handle) | Cleaned(erased: seq<bool>)

  datatype World = World(subs: seq<Entry>, dead: set<Handle>)

  function Step(w: World, ev: Event, cleaning: bool): World {
    match ev
    case Subscribed(e) => w.(subs := w.subs + [e])
    case Died(conn) => w.(dead := w.dead + {conn})
    case Cleaned(erased) => if cleaning then w.(subs := Pruned(w.subs, |w.subs|, w.dead, erased)) else w
  }

  function Run(events: seq<Event>, cleaning: bool): World {
    if events == [] then World([], {})
    else Step(Run(events[..|events| - 1], cleaning), events[|events| - 1], cleaning)
  }

  lemma {:induction false} SameLiveEntries(events: seq<Event>)
    ensures var w, v := Run(events, true), Run(events, false);
      w.dead == v.dead && Live(w.subs, w.dead) == Live(v.subs, v.dead)
  {
    if events != [] {
      var n := |events| - 1;
      SameLiveEntries(events[..n]);
      var w, v := Run(events[..n], true), Run(events[..n], false);
      match events[n] {
        case Subscribed(e) =>
          LiveAppend(w.subs, [e], w.dead);
          LiveAppend(v.subs, [e], v.dead);
        case Died(conn) =>
          LiveTwice(w.subs, w.dead, w.dead + {conn});
          LiveTwice(v.subs, v.dead, v.dead + {conn});
        case Cleaned(erased) =>
          LivePruned(w.subs, |w.subs|, w.dead, w.dead, erased);
          assert w.subs[..|w.subs|] == w.subs;
      }
    }
  }

  /** The cleaner is invisible to a publication whose map access is one atomic step: in every
      interleaving of passes, whichever dead entries each of them erases, it reaches the same
      connections as if no pass had ever run. */
  lemma CleanerIsInvisible(events: seq<Event>, key: seq<byte>)
    ensures var w, v := Run(events, true), Run(events, false);
      Deliveries(w.subs, w.dead, key) == Deliveries(v.subs, v.dead, key)
  {
    SameLiveEntries(events);
    var w, v := Run(events, true), Run(events, false);
    DeliveriesOfLive(w.subs, w.dead, key);
    DeliveriesOfLive(v.subs, v.dead, key);
  }

  /** `publish` holds the lock twice: it first gives up on an empty map, then sends. `before`
      has happened at the first section, `before + between` at the second. */
  function Published(before: seq<Event>, between: seq<Event>, key: seq<byte>, cleaning: bool): seq<Handle> {
    var first, second := Run(before, cleaning), Run(before + between, cleaning);
    if first.subs == [] then [] else Deliveries(second.subs, second.dead, key)
  }

  // The runs in terms of their events.

  lemma {:induction false} SubscriptionsOf(events: seq<Event>, e: Entry)
    ensures e in Run(events, false).subs <==> Subscribed(e) in events
  {
    if events != [] {
      var n := |events| - 1;
      SubscriptionsOf(events[..n], e);
      assert events == events[..n] + [events[n]];
    }
  }

  lemma {:induction false} DeathsOf(events: seq<Event>, cleaning: bool, conn: Handle)
    ensures conn in Run(events, cleaning).dead <==> Died(conn) in events
  {
    if events != [] {
      var n := |events| - 1;
      DeathsOf(events[..n], cleaning, conn);
      assert events == events[..n] + [events[n]];
    }
  }

  ghost predicate Reached(subs: seq<Entry>, dead: set<Handle>, key: seq<byte>) {
    exists e :: e in subs && e.key == key && e.conn !in dead
  }

  lemma {:induction false} SomebodyReached(subs: seq<Entry>, dead: set<Handle>, key: seq<byte>)
    ensures Deliveries(subs, dead, key) != [] <==> Reached(subs, dead, key)
  {
    if subs != [] {
      SomebodyReached(subs[1..], dead, key);
      if subs[0].key == key && subs[0].conn !in dead {
        assert Reached(subs, dead, key);
      } else {
        assert forall e :: e in subs <==> e == subs[0] || e in subs[1..];
      }
    }
  }

  ghost predicate Subscribes(events: seq<Event>) {
    exists e :: Subscribed(e) in events
  }

  /** Somebody subscribes to the key and does not die. */
  ghost predicate LiveSubscriber(events: seq<Event>, deaths: seq<Event>, key: seq<byte>) {
    exists e :: Subscribed(e) in events && e.key == key && Died(e.conn) !in deaths
  }

  lemma ReachedByEvents(events: seq<Event>, key: seq<byte>)
    ensures var v := Run(events, false);
      Deliveries(v.subs, v.dead, key) != [] <==> LiveSubscriber(events, events, key)
  {
    var v := Run(events, false);
    SomebodyReached(v.subs, v.dead, key);
    forall e: Entry ensures e in v.subs <==> Subscribed(e) in events {
      SubscriptionsOf(events, e);
    }
    forall conn: Handle ensures conn in v.dead <==> Died(conn) in events {
      DeathsOf(events, false, conn);
    }
  }

  /** A map found empty has lost every subscriber of its past. */
  lemma EmptyMeansDead(before: seq<Event>, e: Entry)
    requires Run(before, true).subs == [] && Subscribed(e) in before
    ensures Died(e.conn) in before
  {
    SameLiveEntries(before);
    SubscriptionsOf(before, e);
    LiveIsExact(Run(before, false).subs, Run(before, false).dead, e);
    DeathsOf(before, false, e.conn);
  }

  /** With the two sections apart the cleaner can be seen: exactly when the passes have left the
      map empty at the first section, although somebody had subscribed, and between the sections
      somebody subscribes to the key who never dies. */
  lemma CleanerVisibleExactly(before: seq<Event>, between: seq<Event>, key: seq<byte>)
    ensures Published(before, between, key, true) != Published(before, between, key, false) <==>
      && Run(before, true).subs == [] && Subscribes(before)
      && LiveSubscriber(between, before + between, key)
  {
    var all := before + between;
    CleanerIsInvisible(all, key);
    ReachedByEvents(all, key);
    NobodyToClean(before);
    if Run(before, true).subs == [] {
      forall e | Subscribed(e) in before ensures Died(e.conn) in all {
        EmptyMeansDead(before, e);
      }
      assert LiveSubscriber(all, all, key) <==> LiveSubscriber(between, all, key);
    }
  }

  lemma NobodyToClean(before: seq<Event>)
    ensures Run(before, false).subs != [] <==> Subscribes(before)
    ensures Run(before, false).subs == [] ==> Run(before, true).subs == []
  {
    forall e: Entry ensures e in Run(before, false).subs <==> Subscribed(e) in before {
      SubscriptionsOf(before, e);
    }
    if Run(before, false).subs != [] {
      assert Run(before, false).subs[0] in Run(before, false).subs;
    }
    CleanedIsNoLonger(before);
  }

  lemma {:induction false} PrunedIsNoLonger(subs: seq<Entry>, k: nat, dead: set<Handle>, erased: seq<bool>)
    requires k <= |subs|
    ensures |Pruned(subs, k, dead, erased)| <= k
  {
    if k > 0 {
      PrunedIsNoLonger(subs, k - 1, dead, erased);
    }
  }

  lemma {:induction false} CleanedIsNoLonger(events: seq<Event>)
    ensures |Run(events, true).subs| <= |Run(events, false).subs|
  {
    if events != [] {
      CleanedIsNoLonger(events[..|events| - 1]);
      var w := Run(events[..|events| - 1], true);
      if events[|events| - 1].Cleaned? {
        PrunedIsNoLonger(w.subs, |w.subs|, w.dead, events[|events| - 1].erased);
      }
    }
  }

  /** One dead subscriber, a pass, and a new subscriber between the two sections: without the
      pass it is served, with it it is not. */
  lemma CleanerCanBeSeen(key: seq<byte>)
    ensures var before, between := [Subscribed(Entry(key, 0)), Died(0), Cleaned([true])], [Subscribed(Entry(key, 1))];
      Published(before, between, key, true) == [] && Published(before, between, key, false) == [1]
  {
    var a, b, c, d := Subscribed(Entry(key, 0)), Died(0), Cleaned([true]), Subscribed(Entry(key, 1));
    RunThree(a, b, c, true);
    RunThree(a, b, c, false);
    RunOne([a, b, c], d, false);
    assert [] + [Entry(key, 0)] == [Entry(key, 0)];
    assert Step(Step(World([], {}), a, true), b, true) == World([Entry(key, 0)], {0});
    assert Pruned([Entry(key, 0)], 1, {0}, [true]) == [];
    assert Run([a, b, c], true).subs == [];
    var w := Run([a, b, c] + [d], false);
    assert w.subs == [Entry(key, 0)] + [Entry(key, 1)] && w.dead == {0};
    DeliveriesCons(Entry(key, 0), [Entry(key, 1)], {0}, key);
    DeliveriesOne(Entry(key, 1), {0}, key);
  }

  lemma DeliveriesOne(e: Entry, dead: set<Handle>, key: seq<byte>)
    ensures Deliveries([e], dead, key) == Served(e, dead, key)
  {
    DeliveriesCons(e, [], dead, key);
    assert [e] + [] == [e];
  }

  lemma RunThree(a: Event, b: Event, c: Event, cleaning: bool)
    ensures Run([a, b, c], cleaning) == Step(Step(Step(World([], {}), a, cleaning), b, cleaning), c, cleaning)
  {
    RunOne([], a, cleaning);
    RunOne([a], b, cleaning);
    RunOne([a, b], c, cleaning);
    assert [] + [a] == [a] && [a] + [b] == [a, b] && [a, b] + [c] == [a, b, c];
  }

  lemma RunOne(events: seq<Event>, ev: Event, cleaning: bool)
    ensures Run(events + [ev], cleaning) == Step(Run(events, cleaning), ev, cleaning)
  {
    assert (events + [ev])[..|events|] == events;
  }

  // The registries themselves.

  lemma SendStep(sent: seq<Handle>, subs: seq<Entry>, k: nat, dead: set<Handle>, key: seq<byte>)
    requires k < |subs|
    ensures sent + Deliveries(subs[k..], dead, key) ==
      (if subs[k].key == key && subs[k].conn !in dead then sent + [subs[k].conn] else sent)
        + Deliveries(subs[k + 1..], dead, key)
  {
    assert subs[k..] == [subs[k]] + subs[k + 1..];
    DeliveriesCons(subs[k], subs[k + 1..], dead, key);
  }

  /** The tokens that occur in the key of no erased entry. */
  function Spared(tokens: set<seq<byte>>, subs: seq<Entry>, erased: seq<bool>): set<seq<byte>> {
    set t | t in tokens && forall i :: 0 <= i < |subs| && i < |erased| && erased[i] ==> !Occurs(t, subs[i].key)
  }

  /** A token survives exactly if no erased key contains it. */
  lemma SparedExactly(tokens: set<seq<byte>>, subs: seq<Entry>, erased: seq<bool>, t: seq<byte>)
    requires |erased| == |subs|
    ensures t in Spared(tokens, subs, erased) <==>
      t in tokens && !exists i, a, b :: 0 <= i < |subs| && erased[i] && subs[i].key == a + t + b
  {
    forall i | 0 <= i < |subs|
      ensures Occurs(t, subs[i].key) <==> exists a, b :: subs[i].key == a + t + b
    {
      OccursIsInfix(t, subs[i].key);
    }
  }

  /** After a pass no token is left that is the second part of an erased key. */
  lemma TokensGone(tokens: set<seq<byte>>, subs: seq<Entry>, erased: seq<bool>, k: seq<byte>, t: seq<byte>, i: nat)
    requires |erased| == |subs| && i < |subs| && erased[i] && subs[i].key == k + t
    ensures t !in Spared(tokens, subs, erased)
  {
    SparedExactly(tokens, subs, erased, t);
    assert subs[i].key == k + t + [];
  }

  lemma {:induction false} PrunedByPast(subs: seq<Entry>, k: nat, dead: set<Handle>, erased: seq<bool>, more: seq<bool>)
    requires k <= |subs| && k <= |erased|
    ensures Pruned(subs, k, dead, erased + more) == Pruned(subs, k, dead, erased)
  {
    if k > 0 {
      PrunedByPast(subs, k - 1, dead, erased, more);
    }
  }

  /** One turn of the cleaner's loop: the entries looked at so far are one more. */
  lemma PassStep(subs: seq<Entry>, k: nat, dead: set<Handle>, erased: seq<bool>, erase: bool)
    requires k == |erased| < |subs| && (erase ==> subs[k].conn in dead)
    ensures Pruned(subs, k + 1, dead, erased + [erase]) ==
      Pruned(subs, k, dead, erased) + if erase then [] else [subs[k]]
  {
    PrunedByPast(subs, k, dead, erased, [erase]);
  }

  lemma AtSeam(left: seq<Entry>, subs: seq<Entry>, k: nat, kept: seq<Entry>)
    requires k < |subs|
    ensures var now := left + subs[k..];
      && now[|left|] == subs[k]
      && now[..|left|] + kept + now[|left| + 1..] == left + kept + subs[k + 1..]
  {
  }

  lemma TokenStep(tokens: set<seq<byte>>, subs: seq<Entry>, erased: seq<bool>, erase: bool)
    requires |erased| < |subs|
    ensures Spared(tokens, subs, erased + [erase]) ==
      if erase then WithoutOccurring(Spared(tokens, subs, erased), subs[|erased|].key) else Spared(tokens, subs, erased)
  {
  }

  ghost predicate Marked(subs: seq<Entry>, low: set<Handle>, high: set<Handle>, erased: seq<bool>) {
    && |erased| <= |subs|
    && (forall i :: 0 <= i < |erased| && subs[i].conn in low ==> erased[i])
    && (forall i :: 0 <= i < |erased| && erased[i] ==> subs[i].conn in high)
  }

  lemma MarkedOn(subs: seq<Entry>, low: set<Handle>, high: set<Handle>, erased: seq<bool>, e: Entry, dead: bool)
    requires Marked(subs, low, high, erased) && |erased| < |subs| && subs[|erased|] == e
    requires (e.conn in low ==> dead) && (dead ==> e.conn in high)
    ensures Marked(subs, low, high, erased + [dead])
  {
  }

  /** Where a pass stands that has looked at the first entries of `subs`, one per mark. */
  ghost predicate Passed(subs: seq<Entry>, tokens: set<seq<byte>>, high: set<Handle>, erased: seq<bool>,
                         now: seq<Entry>, left: set<seq<byte>>, it: nat)
    requires |erased| <= |subs|
  {
    && it == |Pruned(subs, |erased|, high, erased)|
    && now == Pruned(subs, |erased|, high, erased) + subs[|erased|..]
    && left == Spared(tokens, subs, erased)
  }

  lemma PassedOn(subs: seq<Entry>, tokens: set<seq<byte>>, high: set<Handle>, erased: seq<bool>, now: seq<Entry>,
                 left: set<seq<byte>>, it: nat, erase: bool)
    requires |erased| <= |subs| && Passed(subs, tokens, high, erased, now, left, it) && it < |now|
    requires erase ==> now[it].conn in high
    ensures |erased| < |subs| && now[it] == subs[|erased|]
    ensures Passed(subs, tokens, high, erased + [erase], now[..it] + (if erase then [] else [now[it]]) + now[it + 1..],
                   if erase then WithoutOccurring(left, now[it].key) else left, if erase then it else it + 1)
  {
    PassStep(subs, |erased|, high, erased, erase);
    AtSeam(Pruned(subs, |erased|, high, erased), subs, |erased|, if erase then [] else [subs[|erased|]]);
    TokenStep(tokens, subs, erased, erase);
  }

  lemma PassedAll(subs: seq<Entry>, tokens: set<seq<byte>>, high: set<Handle>, erased: seq<bool>, now: seq<Entry>,
                  left: set<seq<byte>>, it: nat)
    requires |erased| <= |subs| && Passed(subs, tokens, high, erased, now, left, it) && it >= |now|
    ensures |erased| == |subs| && now == Pruned(subs, |subs|, high, erased)
  {
  }

  /** A pass that finds the same connections dead from its start to its end leaves exactly the
      live entries and exactly the tokens that occur in no dead entry's key. */
  lemma {:induction false} SnapshotPass(subs: seq<Entry>, k: nat, dead: set<Handle>, erased: seq<bool>)
    requires k <= |erased| == |subs| && forall i :: 0 <= i < |subs| ==> (erased[i] <==> subs[i].conn in dead)
    ensures Pruned(subs, k, dead, erased) == Live(subs[..k], dead)
  {
    if k > 0 {
      var n: nat := k - 1;
      SnapshotPass(subs, n, dead, erased);
      LiveLast(subs[..n], subs[n], dead);
      assert subs[..k] == subs[..n] + [subs[n]];
    }
  }

  lemma SnapshotTokens(tokens: set<seq<byte>>, subs: seq<Entry>, dead: set<Handle>, erased: seq<bool>)
    requires |erased| == |subs| && forall i :: 0 <= i < |subs| ==> (erased[i] <==> subs[i].conn in dead)
    ensures Spared(tokens, subs, erased) == KeptTokens(tokens, subs, dead)
  {
    forall t | t in tokens
      ensures t in Spared(tokens, subs, erased) <==> t in KeptTokens(tokens, subs, dead)
    {
      if t in Spared(tokens, subs, erased) {
        forall e | e in subs && e.conn in dead ensures !Occurs(t, e.key) {
          var i :| 0 <= i < |subs| && subs[i] == e;
        }
      }
    }
  }

  ghost predicate NoDuplicates(s: seq<nat>) {
    forall i, j :: 0 <= i < j < |s| ==> s[i] != s[j]
  }

  class RpcServer {
    var connections: map<nat, Handle>
    var nextId: nat
    // The id each connection object was given.
    var connId: map<Handle, nat>
    var subMap: seq<Entry>
    var tokenList: set<seq<byte>>
    // Ids passed to the timeout callback, and the connections found closed when they were.
    ghost var reported: seq<nat>
    ghost var foundClosed: set<Handle>

    /** Every id ever given is either registered under its own connection or has been reported,
        not both; ids are never reused and reports never repeat. */
    ghost predicate RegistryValid()
      reads this`connections, this`nextId, this`connId, this`reported, this`foundClosed
    {
      && (forall id :: id in connections ==> id < nextId && connections[id] in connId && connId[connections[id]] == id)
      && (forall c :: c in connId ==> connId[c] < nextId)
      && (forall c :: c in connId ==>
            if connId[c] in connections then connections[connId[c]] == c else c in foundClosed)
      && (forall id :: id in reported ==> id < nextId && id !in connections)
      && (forall id: nat :: id < nextId ==> id in connections || id in reported)
      && NoDuplicates(reported)
    }

    constructor ()
      ensures RegistryValid() && connections == map[] && reported == [] && nextId == 0 && subMap == []
        && tokenList == {}
    {
      connections, nextId, connId := map[], 0, map[];
      subMap, tokenList := [], {};
      reported, foundClosed := [], {};
    }

    /** The accept handler's bookkeeping for a new connection object. */
    method Accept(conn: Handle) returns (id: nat)
      requires RegistryValid() && conn !in connId
      modifies this`connections, this`nextId, this`connId
      ensures RegistryValid() && id == old(nextId) && nextId == id + 1
      ensures connections == old(connections)[id := conn] && connId == old(connId)[conn := id]
      ensures id !in old(connections) && id !in reported
    {
      id := nextId;
      connId := connId[conn := id];
      connections := connections[id := conn];
      nextId := nextId + 1;
    }

    /** One entry of the cleaner's pass whose connection was found closed. */
    method Expire(id: nat)
      requires RegistryValid() && id in connections
      modifies this`connections, this`reported, this`foundClosed
      ensures RegistryValid() && connections == old(connections) - {id}
      ensures reported == old(reported) + [id]
      ensures foundClosed == old(foundClosed) + {old(connections)[id]}
    {
      var conn := connections[id];
      reported := reported + [connId[conn]];
      foundClosed := foundClosed + {conn};
      connections := connections - {id};
    }

    /** One pass of the connection cleaner. A connection may close while the pass runs: `low`
        are those closed from the start, `high` those closed by the end. `removed` is returned
        for the caller's reasoning only. */
    method Clean(low: set<Handle>, high: set<Handle>) returns (ghost removed: set<nat>)
      requires RegistryValid() && low <= high
      modifies this`connections, this`reported, this`foundClosed
      ensures RegistryValid() && connections == old(connections) - removed && removed <= old(connections).Keys
      ensures forall id :: id in old(connections) && old(connections)[id] in low ==> id in removed
      ensures forall id :: id in removed ==> old(connections)[id] in high
      ensures foundClosed <= old(foundClosed) + high
      ensures old(reported) <= reported && forall id :: id in reported[|old(reported)|..] <==> id in removed
    {
      var todo := connections.Keys;
      ghost var log: seq<nat> := [];
      removed := {};
      while todo != {}
        invariant RegistryValid() && todo <= connections.Keys
        invariant connections == old(connections) - removed && removed <= old(connections).Keys
        invariant forall id :: id in old(connections) && old(connections)[id] in low ==> id in todo || id in removed
        invariant forall id :: id in removed ==> old(connections)[id] in high
        invariant foundClosed <= old(foundClosed) + high
        invariant reported == old(reported) + log
        invariant forall id :: id in log <==> id in removed
        decreases todo
      {
        var id :| id in todo;
        todo := todo - {id};
        var closed: bool :| (connections[id] in low ==> closed) && (closed ==> connections[id] in high);
        if closed {
          Expire(id);
          log := log + [id];
          removed := removed + {id};
        }
      }
    }

    /** The subscription callback. */
    method Subscribe(key: seq<byte>, token: seq<byte>, conn: Handle)
      modifies this`subMap, this`tokenList
      ensures subMap == old(subMap) + [Entry(key + token, conn)]
      ensures tokenList == if token == [] then old(tokenList) else old(tokenList) + {token}
    {
      subMap := subMap + [Entry(key + token, conn)];
      if token != [] {
        tokenList := tokenList + {token};
      }
    }

    /** Erases the tokens that occur in a dead entry's key. */
    method EraseTokens(key: seq<byte>)
      modifies this`tokenList
      ensures tokenList == WithoutOccurring(old(tokenList), key)
      ensures forall t :: t in tokenList <==> t in old(tokenList) && !exists a, b :: key == a + t + b
    {
      var todo := tokenList;
      while todo != {}
        invariant todo <= tokenList <= old(tokenList)
        invariant forall t :: t in old(tokenList) && t !in todo ==> (t in tokenList <==> !Occurs(t, key))
        decreases todo
      {
        var t :| t in todo;
        todo := todo - {t};
        if Occurs(t, key) {
          tokenList := tokenList - {t};
        }
      }
      forall t: seq<byte> ensures Occurs(t, key) <==> exists a, b :: key == a + t + b {
        OccursIsInfix(t, key);
      }
    }

    /** One turn of the cleaner's loop: erase the entry and its tokens, or move on. */
    method Visit(it: nat, dead: bool) returns (next: nat)
      requires it < |subMap|
      modifies this`subMap, this`tokenList
      ensures next == if dead then it else it + 1
      ensures subMap == old(subMap)[..it] + (if dead then [] else [old(subMap)[it]]) + old(subMap)[it + 1..]
      ensures tokenList == if dead then WithoutOccurring(old(tokenList), old(subMap)[it].key) else old(tokenList)
    {
      next := it;
      if dead {
        EraseTokens(subMap[it].key);
        subMap := subMap[..it] + subMap[it + 1..];
        assert subMap == old(subMap)[..it] + [] + old(subMap)[it + 1..];
      } else {
        next := it + 1;
        assert subMap == subMap[..it] + [subMap[it]] + subMap[it + 1..];
      }
    }

    /** One pass of the subscription cleaner: erase-while-iterating over the multimap. A
        connection may die while the pass runs: `low` are those dead from the start, `high` those
        dead by the end. `erased` is returned for the caller's reasoning only. */
    method CleanSubPub(low: set<Handle>, high: set<Handle>) returns (ghost erased: seq<bool>)
      requires low <= high
      modifies this`subMap, this`tokenList
      ensures |erased| == |old(subMap)|
      ensures forall i :: 0 <= i < |erased| && old(subMap)[i].conn in low ==> erased[i]
      ensures forall i :: 0 <= i < |erased| && erased[i] ==> old(subMap)[i].conn in high
      ensures subMap == Pruned(old(subMap), |old(subMap)|, high, erased)
      ensures tokenList == Spared(old(tokenList), old(subMap), erased)
      ensures low == high ==>
        subMap == Live(old(subMap), high) && tokenList == KeptTokens(old(tokenList), old(subMap), high)
      ensures forall i, k, t :: 0 <= i < |old(subMap)| && old(subMap)[i].conn in low && old(subMap)[i].key == k + t ==>
        t !in tokenList
    {
      ghost var subs, tokens := subMap, tokenList;
      erased := Pass(low, high);
      forall i, k, t | 0 <= i < |subs| && subs[i].conn in low && subs[i].key == k + t
        ensures t !in Spared(tokens, subs, erased)
      {
        TokensGone(tokens, subs, erased, k, t, i);
      }
      if low == high {
        SnapshotPass(subs, |subs|, high, erased);
        assert subs[..|subs|] == subs;
        SnapshotTokens(tokens, subs, high, erased);
      }
    }

    /** The loop of the pass. */
    method Pass(low: set<Handle>, high: set<Handle>) returns (ghost erased: seq<bool>)
      requires low <= high
      modifies this`subMap, this`tokenList
      ensures |erased| == |old(subMap)| && Marked(old(subMap), low, high, erased)
      ensures subMap == Pruned(old(subMap), |old(subMap)|, high, erased)
      ensures tokenList == Spared(old(tokenList), old(subMap), erased)
    {
      var it := 0;
      erased := [];
      ghost var subs, tokens := subMap, tokenList;
      while it < |subMap|
        invariant it >= 0 && Marked(subs, low, high, erased)
        invariant Passed(subs, tokens, high, erased, subMap, tokenList, it)
        decreases |subs| - |erased|
      {
        var dead: bool :| (subMap[it].conn in low ==> dead) && (dead ==> subMap[it].conn in high);
        PassedOn(subs, tokens, high, erased, subMap, tokenList, it, dead);
        MarkedOn(subs, low, high, erased, subMap[it], dead);
        it := Visit(it, dead);
        erased := erased + [dead];
      }
      PassedAll(subs, tokens, high, erased, subMap, tokenList, it);
    }

    /** The second locked section of publish: everyone alive under the composite key. */
    method Send(key: seq<byte>, dead: set<Handle>) returns (receivers: seq<Handle>)
      ensures receivers == Deliveries(subMap, dead, key)
    {
      receivers := [];
      assert subMap[0..] == subMap;
      for i := 0 to |subMap|
        invariant receivers + Deliveries(subMap[i..], dead, key) == Deliveries(subMap, dead, key)
      {
        SendStep(receivers, subMap, i, dead, key);
        if subMap[i].key == key && subMap[i].conn !in dead {
          receivers := receivers + [subMap[i].conn];
        }
      }
    }
  }
}

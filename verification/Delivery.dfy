/** How calls end, over any run of the system: which step completes which call, with which error
    code and which data. */
module Delivery {
  import opened Bytes
  import opened Calls
  import opened Codec
  import opened Framing
  import opened Protocol
  import opened System = RpcSystem
  import Publications
  import Routers

  // Time-outs.

  /** In this step the timer of call `n` fires. */
  predicate FiredFor(s: State, a: Action, n: nat) {
    a.TimerFires? && n < |s.book.ids| && s.book.ids[n] == a.id
  }

  /** The timer of call `n` has fired before step `k`. */
  ghost predicate Late(states: seq<State>, actions: seq<Action>, k: nat, n: nat)
    requires k <= |actions| < |states|
  {
    exists j: nat :: j < k && FiredFor(states[j], actions[j], n)
  }

  /** The client's flag for call `n`. */
  predicate Flagged(b: Book, n: nat)
    requires n < |b.ids|
  {
    TimedOutAt(b.calls, b.ids[n])
  }

  /** A call that still waits was waiting before, and its flag is raised by its timer alone; a new
      call's flag is down. */
  ghost predicate FlagsFollow(s: State, a: Action, t: State) {
    && s.book.ids <= t.book.ids
    && forall n: nat :: Registered(t.book, n) ==>
         if n >= |s.book.ids| then !Flagged(t.book, n)
         else Registered(s.book, n) && (Flagged(t.book, n) <==> Flagged(s.book, n) || FiredFor(s, a, n))
  }

  lemma ParkingFlags(s: State, a: Action, t: State, d: CallMaps, id: uint64, r: Request)
    requires Parked(s.book) && Settled(s.book) && Parks(s.book.calls, d, id, |s.book.ids|) && 0 < |r.args| < MAX_BUF_LEN
    requires t.book == Ask(s.book, d, id, r) && !a.TimerFires? && !TimedOutAt(d, id)
    requires forall i :: i in Waiting(s.book.calls) ==> (TimedOutAt(d, i) <==> TimedOutAt(s.book.calls, i))
    ensures FlagsFollow(s, a, t)
  {
    AskRegisters(s.book, d, id, r);
    assert t.book.ids[|s.book.ids|] == id;
    forall n: nat | Registered(t.book, n) && n < |s.book.ids|
      ensures Registered(s.book, n) && (Flagged(t.book, n) <==> Flagged(s.book, n))
    {
      assert s.book.ids[n] in Waiting(s.book.calls);
    }
  }

  lemma FutureStep(s: State, a: Action)
    requires Enabled(s, a) && a.CallFuture? && |a.args| < MAX_BUF_LEN
    ensures Step(s, a).book == Ask(s.book, AddFuture(s.book.calls, |s.book.ids|), NextFutureId(s.book.calls.fuId),
                                   Request(Routers.Key(a.name), a.args))
  {
  }

  lemma CallbackStep(s: State, a: Action)
    requires Enabled(s, a) && a.CallCallback? && |a.args| < MAX_BUF_LEN
    ensures Step(s, a).book ==
      Ask(s.book, AddCallback(s.book.calls, |s.book.ids|), NextCallbackId(s.book.calls.callbackId),
          Request(Routers.Key(a.name), a.args))
  {
  }

  lemma FutureFlags(s: State, a: Action)
    requires Sound(s) && Enabled(s, a) && a.CallFuture? && |a.args| < MAX_BUF_LEN
    ensures FlagsFollow(s, a, Step(s, a))
  {
    var d := AddFuture(s.book.calls, |s.book.ids|);
    AddFutureParks(s.book.calls, |s.book.ids|);
    FutureStep(s, a);
    ParkingFlags(s, a, Step(s, a), d, NextFutureId(s.book.calls.fuId), Request(Routers.Key(a.name), a.args));
  }

  lemma CallbackFlags(s: State, a: Action)
    requires Sound(s) && Enabled(s, a) && a.CallCallback? && |a.args| < MAX_BUF_LEN
    ensures FlagsFollow(s, a, Step(s, a))
  {
    var d := AddCallback(s.book.calls, |s.book.ids|);
    AddCallbackParks(s.book.calls, |s.book.ids|);
    ParkedInTime(s.book.calls, |s.book.ids|);
    CallbackStep(s, a);
    ParkingFlags(s, a, Step(s, a), d, NextCallbackId(s.book.calls.callbackId), Request(Routers.Key(a.name), a.args));
  }

  lemma TimerFlags(s: State, id: uint64)
    requires Sound(s) && Enabled(s, System.TimerFires(id))
    ensures FlagsFollow(s, System.TimerFires(id), Step(s, System.TimerFires(id)))
  {
    TimerKeepsCalls(s.book.calls, id);
  }

  /** Completing a call takes it away and raises no flag. */
  lemma CompletingFlags(s: State, a: Action, ec: ErrorCode, data: seq<byte>, after: Mode)
    requires Sound(s) && Live(s.mode) && !a.TimerFires? && s.reading.Some? && s.reading.value.call.Some?
    ensures FlagsFollow(s, a, CompleteWith(s.(reading := None), s.reading.value, ec, data, after))
  {
    var n := HeldCall(s);
    FinishRegisters(s.book, n, ec, data);
    CallBackFindsTheCall(s.book.calls, s.book.ids[n], ec, data);
    var t := CompleteWith(s.(reading := None), s.reading.value, ec, data, after);
    forall m: nat | Registered(t.book, m)
      ensures Registered(s.book, m) && (Flagged(t.book, m) <==> Flagged(s.book, m))
    {
      assert s.book.ids[m] != s.book.ids[n];
    }
  }

  /** The reply being read belongs to a registered call and is its answer. */
  lemma HeldCall(s: State) returns (n: nat)
    requires Sound(s) && Live(s.mode) && s.reading.Some? && s.reading.value.call.Some?
    ensures s.reading.value.call == Some(n) && Registered(s.book, n) && n in s.book.answers
    ensures s.reading.value.m == Message(s.book.ids[n], REQ_RES, s.book.answers[n].reply, 0)
  {
    HeldBag(s);
    assert AnsweredOk(s.book, s.reading.value);
    n := s.reading.value.call.value;
  }

  lemma SameCalls(s: State, a: Action, t: State)
    requires t.book.ids == s.book.ids && t.book.calls == s.book.calls && !a.TimerFires?
    ensures FlagsFollow(s, a, t)
  {
  }

  lemma ReadingFlags(s: State, a: Action)
    requires Sound(s) && Enabled(s, a) && EndsBody(a) && Live(Step(s, a).mode)
    ensures FlagsFollow(s, a, Step(s, a))
  {
    Publications.LiveBefore(s, a);
    if s.reading.value.call.Some? {
      var n := HeldCall(s);
      match a {
        case ClientBody => CompletingFlags(s, a, NoError, s.reading.value.m.content, Running);
        case BodyError => CompletingFlags(s, a, ReadError, [], Failed);
        case BodyAborted => CompletingFlags(s, a, Aborted, [], s.mode);
      }
    } else {
      UntaggedFlags(s, a);
    }
  }

  lemma UntaggedFlags(s: State, a: Action)
    requires s.reading.Some? && s.reading.value.call.None? && EndsBody(a) && Live(s.mode)
    requires Sound(s) && Enabled(s, a) && Live(Step(s, a).mode)
    ensures FlagsFollow(s, a, Step(s, a))
  {
    match a {
      case ClientBody =>
        PublicationArrives(s);
        SameCalls(s, a, Step(s, a));
      case BodyError => BodyErrorIsSound(s, ReadError, Failed);
      case BodyAborted => BodyErrorIsSound(s, Aborted, s.mode);
    }
  }

  lemma OtherFlags(s: State, a: Action)
    requires Enabled(s, a) && !a.CallFuture? && !a.CallCallback? && !a.TimerFires? && !EndsBody(a)
    requires Live(Step(s, a).mode)
    ensures Step(s, a).book.calls == s.book.calls && Step(s, a).book.ids == s.book.ids
  {
  }

  lemma StepFlags(s: State, a: Action)
    requires Sound(s) && Enabled(s, a) && Live(Step(s, a).mode)
    ensures FlagsFollow(s, a, Step(s, a))
  {
    if a.CallFuture? {
      FutureFlags(s, a);
    } else if a.CallCallback? {
      CallbackFlags(s, a);
    } else if a.TimerFires? {
      TimerFlags(s, a.id);
    } else if EndsBody(a) {
      ReadingFlags(s, a);
    } else {
      OtherFlags(s, a);
      SameCalls(s, a, Step(s, a));
    }
  }

  /** In every live state of a run the flag of a waiting call is up exactly if its timer has fired. */
  lemma {:induction false} FlagsAreTimers(states: seq<State>, actions: seq<Action>, k: nat, n: nat)
    requires System.Run(states, actions) && k < |states| && Live(states[k].mode) && Registered(states[k].book, n)
    ensures Flagged(states[k].book, n) <==> Late(states, actions, k, n)
  {
    if k > 0 {
      var j: nat := k - 1;
      FlagsBefore(states, actions, j);
      if n < |states[j].book.ids| {
        FlagFollows(states[j], actions[j], states[k], n);
        FlagsAreTimers(states, actions, j, n);
        LateOneMore(states, actions, j, n);
      } else {
        NewFlagFollows(states[j], actions[j], states[k], n);
        NotYetLate(states, actions, k, n);
      }
    }
  }

  lemma FlagFollows(s: State, a: Action, t: State, n: nat)
    requires FlagsFollow(s, a, t) && Registered(t.book, n) && n < |s.book.ids|
    ensures Registered(s.book, n) && (Flagged(t.book, n) <==> Flagged(s.book, n) || FiredFor(s, a, n))
  {
  }

  lemma NewFlagFollows(s: State, a: Action, t: State, n: nat)
    requires FlagsFollow(s, a, t) && Registered(t.book, n) && n >= |s.book.ids|
    ensures !Flagged(t.book, n)
  {
  }

  lemma FlagsBefore(states: seq<State>, actions: seq<Action>, j: nat)
    requires System.Run(states, actions) && j < |actions| && Live(states[j + 1].mode)
    ensures Live(states[j].mode) && FlagsFollow(states[j], actions[j], states[j + 1])
  {
    Publications.NextState(states, actions, j);
    Publications.LiveBefore(states[j], actions[j]);
    StepFlags(states[j], actions[j]);
  }

  lemma LateOneMore(states: seq<State>, actions: seq<Action>, j: nat, n: nat)
    requires j < |actions| < |states|
    ensures Late(states, actions, j + 1, n) <==> Late(states, actions, j, n) || FiredFor(states[j], actions[j], n)
  {
  }

  lemma NotYetLate(states: seq<State>, actions: seq<Action>, k: nat, n: nat)
    requires System.Run(states, actions) && 0 < k < |states| && n >= |states[k - 1].book.ids|
    ensures !Late(states, actions, k, n)
  {
    forall j: nat | j < k ensures !FiredFor(states[j], actions[j], n) {
      HistoryStands(states, actions, j, k - 1);
    }
  }

  // Completions.

  /** One more completion: of this call, with this outcome or the time-out. */
  ghost predicate Ends(b: Book, c: Book, n: nat, late: bool, ec: ErrorCode, data: seq<byte>) {
    c.completions == b.completions + [if late then Completion(n, TimedOut, []) else Completion(n, ec, data)]
  }

  lemma CompletingEnds(s: State, n: nat, ec: ErrorCode, data: seq<byte>, after: Mode)
    requires Sound(s) && Live(s.mode) && s.reading.Some? && s.reading.value.call == Some(n)
    requires ec != NoError ==> data == []
    ensures n < |s.book.ids|
    ensures var t := CompleteWith(s.(reading := None), s.reading.value, ec, data, after);
      Ends(s.book, t.book, n, Flagged(s.book, n), ec, data)
  {
    var m := HeldCall(s);
    CallBackFindsTheCall(s.book.calls, s.book.ids[n], ec, data);
  }

  lemma BodyStepIs(s: State)
    requires s.mode == Running && s.reading.Some? && s.reading.value.m.reqType == REQ_RES
    ensures Enabled(s, ClientBody)
    ensures Step(s, ClientBody) ==
      CompleteWith(s.(reading := None), s.reading.value, NoError, s.reading.value.m.content, Running)
  {
  }

  lemma ErrorStepIs(s: State)
    requires s.mode == Running && s.reading.Some?
    ensures Enabled(s, BodyError)
    ensures Step(s, BodyError) == CompleteWith(s.(reading := None), s.reading.value, ReadError, [], Failed)
  {
  }

  lemma AbortedStepIs(s: State)
    requires (s.mode == SocketClosed || s.mode == OutboxCleared || s.mode == MapsCleared) && s.reading.Some?
    ensures Enabled(s, BodyAborted)
    ensures Step(s, BodyAborted) == CompleteWith(s.(reading := None), s.reading.value, Aborted, [], s.mode)
  {
  }

  lemma CompletingIsSound(states: seq<State>, actions: seq<Action>, k: nat, n: nat)
    requires System.Run(states, actions) && k < |actions| && EndsBody(actions[k]) && states[k].mode != MapsCleared
    requires states[k].reading.Some? && states[k].reading.value.call == Some(n)
    ensures Sound(states[k]) && Live(states[k].mode) && Registered(states[k].book, n)
    ensures n in states[k].book.answers
    ensures states[k].reading.value.m == Message(states[k].book.ids[n], REQ_RES, states[k].book.answers[n].reply, 0)
    ensures states[k + 1] == Step(states[k], actions[k])
    ensures Flagged(states[k].book, n) <==> Late(states, actions, k, n)
    ensures if actions[k].BodyAborted? then states[k].mode == SocketClosed || states[k].mode == OutboxCleared
            else states[k].mode == Running
  {
    Publications.NextState(states, actions, k);
    var m := HeldCall(states[k]);
    FlagsAreTimers(states, actions, k, n);
  }

  /** A body that arrives delivers: the call it answers is completed with the very reply it was
      given, unless its timer has fired before. */
  lemma BodyDelivers(states: seq<State>, actions: seq<Action>, k: nat, n: nat)
    requires System.Run(states, actions) && k < |actions| && actions[k].ClientBody?
    requires states[k].reading.Some? && states[k].reading.value.call == Some(n)
    ensures n in states[k].book.answers
    ensures Ends(states[k].book, states[k + 1].book, n, Late(states, actions, k, n), NoError,
                 states[k].book.answers[n].reply)
  {
    RunningBody(states, actions, k);
    CompletingIsSound(states, actions, k, n);
    BodyStepIs(states[k]);
    CompletingEnds(states[k], n, NoError, states[k].reading.value.m.content, Running);
  }

  lemma RunningBody(states: seq<State>, actions: seq<Action>, k: nat)
    requires System.Run(states, actions) && k < |actions| && (actions[k].ClientBody? || actions[k].BodyError?)
    ensures states[k].mode == Running
  {
  }

  /** A body that fails to arrive completes its call with the read error, under the same exception. */
  lemma BodyErrorEnds(states: seq<State>, actions: seq<Action>, k: nat, n: nat)
    requires System.Run(states, actions) && k < |actions| && actions[k].BodyError?
    requires states[k].reading.Some? && states[k].reading.value.call == Some(n)
    ensures Ends(states[k].book, states[k + 1].book, n, Late(states, actions, k, n), ReadError, [])
  {
    RunningBody(states, actions, k);
    CompletingIsSound(states, actions, k, n);
    ErrorStepIs(states[k]);
    CompletingEnds(states[k], n, ReadError, [], Failed);
  }

  /** A body aborted by a close under way completes its call as aborted, until the maps are cleared. */
  lemma BodyAbortedEnds(states: seq<State>, actions: seq<Action>, k: nat, n: nat)
    requires System.Run(states, actions) && k < |actions| && actions[k].BodyAborted? && states[k].mode != MapsCleared
    requires states[k].reading.Some? && states[k].reading.value.call == Some(n)
    ensures Ends(states[k].book, states[k + 1].book, n, Late(states, actions, k, n), Aborted, [])
  {
    CompletingIsSound(states, actions, k, n);
    AbortedStepIs(states[k]);
    CompletingEnds(states[k], n, Aborted, [], states[k].mode);
  }

  /** A completion that a failing head read owes: a waiting callback, with the read error. */
  ghost predicate Owed(b: Book, c: Completion) {
    c.ec == ReadError && c.data == [] && Registered(b, c.call) && b.ids[c.call] >= TWO_63
  }

  lemma MadeIsOwed(b: Book, ids: seq<uint64>, made: seq<Completion>, i: nat)
    requires Parked(b) && FailsAll(b.calls.callbacks, ids, made) && i < |made|
    ensures Owed(b, made[i])
  {
    assert ids[i] in b.calls.callbacks;
    assert CallOf(b.calls, ids[i]) == made[i].call;
  }

  lemma OwedIsMade(b: Book, ids: seq<uint64>, made: seq<Completion>, c: Completion)
    requires Parked(b) && FailsAll(b.calls.callbacks, ids, made) && Owed(b, c)
    ensures c in made
  {
    assert b.ids[c.call] in ids;
    var i :| 0 <= i < |ids| && ids[i] == b.ids[c.call];
    assert made[i] == c;
  }

  lemma MadeExactly(b: Book, ids: seq<uint64>, made: seq<Completion>)
    requires Parked(b) && FailsAll(b.calls.callbacks, ids, made)
    ensures forall c :: c in made <==> Owed(b, c)
  {
    forall c | c in made ensures Owed(b, c) {
      var i :| 0 <= i < |made| && made[i] == c;
      MadeIsOwed(b, ids, made, i);
    }
    forall c | Owed(b, c) ensures c in made {
      OwedIsMade(b, ids, made, c);
    }
  }

  lemma HeadErrorAppends(s: State, ids: seq<uint64>, made: seq<Completion>)
    requires Enabled(s, HeadError(ids, made))
    ensures Step(s, HeadError(ids, made)).book.completions == s.book.completions + made
  {
  }

  /** A failing head read completes the waiting callbacks, all of them and nothing else, with the
      read error. */
  lemma HeadErrorEnds(states: seq<State>, actions: seq<Action>, k: nat)
    requires System.Run(states, actions) && k < |actions| && actions[k].HeadError?
    ensures var b, d := states[k].book, states[k + 1].book;
      b.completions <= d.completions && forall c :: c in d.completions[|b.completions|..] <==> Owed(b, c)
  {
    Publications.NextState(states, actions, k);
    var b, ids, made := states[k].book, actions[k].ids, actions[k].made;
    HeadErrorAppends(states[k], ids, made);
    MadeExactly(b, ids, made);
    assert (b.completions + made)[|b.completions|..] == made;
  }

  /** No other step completes a call. */
  lemma OthersEndNothing(states: seq<State>, actions: seq<Action>, k: nat)
    requires System.Run(states, actions) && k < |actions| && !actions[k].HeadError?
    requires !EndsBody(actions[k]) || (states[k].reading.Some? && states[k].reading.value.call.None?)
    ensures states[k + 1].book.completions == states[k].book.completions
  {
    RunIsSound(states, actions, k);
    if EndsBody(actions[k]) {
      PublicationEndsNothing(states[k], actions[k]);
    } else {
      StepEndsNothing(states[k], actions[k]);
    }
  }

  lemma StepEndsNothing(s: State, a: Action)
    requires Enabled(s, a) && !a.HeadError? && !EndsBody(a)
    ensures Step(s, a).book.completions == s.book.completions
  {
  }

  lemma PublicationEndsNothing(s: State, a: Action)
    requires s.reading.Some? && s.reading.value.call.None? && EndsBody(a) && Sound(s) && Enabled(s, a)
    ensures Step(s, a).book.completions == s.book.completions
  {
    match a {
      case ClientBody => PublicationArrives(s);
      case BodyError => UntaggedAsserts(s, ReadError, Failed);
      case BodyAborted =>
        if Live(s.mode) {
          UntaggedAsserts(s, Aborted, s.mode);
        } else {
          LateBodyIsSound(s);
        }
    }
  }

  lemma UntaggedAsserts(s: State, ec: ErrorCode, after: Mode)
    requires Sound(s) && Live(s.mode) && s.reading.Some? && s.reading.value.call.None?
    ensures CompleteWith(s.(reading := None), s.reading.value, ec, [], after).book == s.book
  {
    HeldBag(s);
    assert AnsweredOk(s.book, s.reading.value);
    CallBackFindsTheCall(s.book.calls, 0, ec, []);
  }

  // What a caller makes of a failure.

  ghost predicate ErrorsEmpty(completions: seq<Completion>) {
    forall c :: c in completions && c.ec != NoError ==> c.data == []
  }

  lemma EndsEmpty(b: Book, c: Book, n: nat, late: bool, ec: ErrorCode, data: seq<byte>)
    requires ErrorsEmpty(b.completions) && Ends(b, c, n, late, ec, data) && (ec != NoError ==> data == [])
    ensures ErrorsEmpty(c.completions)
  {
  }

  lemma OwedEmpty(b: Book, c: Book)
    requires ErrorsEmpty(b.completions) && b.completions <= c.completions
    requires forall x :: x in c.completions[|b.completions|..] <==> Owed(b, x)
    ensures ErrorsEmpty(c.completions)
  {
    assert c.completions == b.completions + c.completions[|b.completions|..];
  }

  lemma StepErrorsEmpty(states: seq<State>, actions: seq<Action>, k: nat)
    requires System.Run(states, actions) && k < |actions| && ErrorsEmpty(states[k].book.completions)
    ensures ErrorsEmpty(states[k + 1].book.completions)
  {
    if actions[k].HeadError? {
      HeadErrorEnds(states, actions, k);
      OwedEmpty(states[k].book, states[k + 1].book);
    } else if EndsBody(actions[k]) {
      BodyStepEmpty(states, actions, k);
    } else {
      OthersEndNothing(states, actions, k);
    }
  }

  lemma BodyStepEmpty(states: seq<State>, actions: seq<Action>, k: nat)
    requires System.Run(states, actions) && k < |actions| && EndsBody(actions[k])
    requires ErrorsEmpty(states[k].book.completions)
    ensures ErrorsEmpty(states[k + 1].book.completions)
  {
    ReadingBody(states, actions, k);
    match states[k].reading.value.call {
      case Some(n) => BodyErrorsEmpty(states, actions, k, n);
      case None => OthersEndNothing(states, actions, k);
    }
  }

  lemma ReadingBody(states: seq<State>, actions: seq<Action>, k: nat)
    requires System.Run(states, actions) && k < |actions| && EndsBody(actions[k])
    ensures states[k].reading.Some?
  {
  }

  lemma LateEndsNothing(states: seq<State>, actions: seq<Action>, k: nat)
    requires System.Run(states, actions) && k < |actions| && actions[k].BodyAborted? && states[k].mode == MapsCleared
    ensures states[k + 1].book.completions == states[k].book.completions
  {
    Publications.NextState(states, actions, k);
    ForgottenEndNothing(states[k]);
  }

  lemma ForgottenEndNothing(s: State)
    requires Sound(s) && s.mode == MapsCleared && s.reading.Some?
    ensures Step(s, BodyAborted).book == s.book
  {
    AbortedStepIs(s);
  }

  lemma BodyErrorsEmpty(states: seq<State>, actions: seq<Action>, k: nat, n: nat)
    requires System.Run(states, actions) && k < |actions| && EndsBody(actions[k])
    requires states[k].reading.Some? && states[k].reading.value.call == Some(n)
    requires ErrorsEmpty(states[k].book.completions)
    ensures ErrorsEmpty(states[k + 1].book.completions)
  {
    var b, c := states[k].book, states[k + 1].book;
    if actions[k].ClientBody? {
      BodyDelivers(states, actions, k, n);
      EndsEmpty(b, c, n, Late(states, actions, k, n), NoError, b.answers[n].reply);
    } else if actions[k].BodyError? {
      BodyErrorEnds(states, actions, k, n);
      EndsEmpty(b, c, n, Late(states, actions, k, n), ReadError, []);
    } else if states[k].mode == MapsCleared {
      LateEndsNothing(states, actions, k);
    } else {
      BodyAbortedEnds(states, actions, k, n);
      EndsEmpty(b, c, n, Late(states, actions, k, n), Aborted, []);
    }
  }

  lemma {:induction false} AllErrorsEmpty(states: seq<State>, actions: seq<Action>, k: nat)
    requires System.Run(states, actions) && k < |states|
    ensures ErrorsEmpty(states[k].book.completions)
  {
    if k > 0 {
      AllErrorsEmpty(states, actions, k - 1);
      StepErrorsEmpty(states, actions, k - 1);
    }
  }

  /** Whatever makes a call fail, its caller reads a failure from what it is given. */
  lemma FailuresRead(states: seq<State>, actions: seq<Action>, k: nat, i: nat)
    requires System.Run(states, actions) && k < |states| && i < |states[k].book.completions|
    requires states[k].book.completions[i].ec != NoError
    ensures HasError(states[k].book.completions[i].data) == Some(true)
  {
    AllErrorsEmpty(states, actions, k);
  }
}

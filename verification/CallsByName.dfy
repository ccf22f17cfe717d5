/** What a caller of `async_call` may rely on, said of names and handlers: over any run of the
    system, a call by name gets what the function registered under that name makes of its
    arguments. */
module CallsByName {
  import opened Bytes
  import opened Calls
  import opened Codec
  import opened Framing
  import opened Protocol
  import opened System = RpcSystem
  import Routers

  /** One call of the function `h`, registered under `name`, may yield `data`. */
  ghost predicate Yields(program: Program, h: Routers.Handler, name: Routers.Name, args: seq<byte>, data: seq<byte>) {
    exists run :: (h, args, run) in program.runs && RunYields(program, h, name, args, run, data)
  }

  ghost predicate RunYields(program: Program, h: Routers.Handler, name: Routers.Name, args: seq<byte>,
                            run: Routers.Run, data: seq<byte>)
  {
    match run
    case BadArguments => Routers.Fails(data, Routers.Ascii("unpack failed:Args not match"))
    case Throws(what) =>
      if |PackStr(what)| < MAX_BUF_LEN - 2 then Routers.Fails(data, what) else TooLong(name, data)
    case Returns(packed) =>
      if h.mode == Routers.Async then (h, args, data) in program.replies
      else if |packed| < MAX_BUF_LEN then data == packed
      else TooLong(name, data)
  }

  /** A result that is too long is replaced by an error message. */
  predicate TooLong(name: Routers.Name, data: seq<byte>) {
    Routers.Fails(data, Routers.Ascii("the response result is out of range: more than 10M ") + name)
  }

  predicate NoSuchFunction(key: uint32, data: seq<byte>) {
    DecimalIsShort(key);
    Routers.Fails(data, Routers.Ascii("unknown function:") + Decimal(key))
  }

  /** With these registrations a call of `name` may yield `data`: what was done last to the name
      decides. */
  ghost predicate Gets(program: Program, history: seq<Routers.Change>, name: Routers.Name, args: seq<byte>,
                       data: seq<byte>)
  {
    && (forall m: nat :: Routers.LastNamed(history, name, m) ==>
          match history[m]
          case Register(_, _, h) => Yields(program, h, name, args, data)
          case Remove(_, _) => NoSuchFunction(Routers.Key(name), data))
    && ((forall c :: c in history ==> c.name != name) ==> NoSuchFunction(Routers.Key(name), data))
  }

  ghost predicate Unambiguous(history: seq<Routers.Change>, name: Routers.Name) {
    forall c :: c in history && Routers.Key(c.name) == Routers.Key(name) ==> c.name == name
  }

  // From the router's tables to names.

  /** The text for a key is a name that was registered under it. */
  lemma {:induction false} NamesAreRegistered(history: seq<Routers.Change>, key: uint32)
    requires key in Routers.Replay(history).names
    ensures exists c :: c in history && c.key == key && c.name == Routers.Replay(history).names[key]
  {
    var n := |history| - 1;
    if key in Routers.Replay(history[..n]).names {
      NamesAreRegistered(history[..n], key);
    } else {
      assert history[n] in history;
    }
  }

  lemma OwnName(history: seq<Routers.Change>, name: Routers.Name)
    requires Routers.WellKeyed(history) && Unambiguous(history, name)
    requires Routers.Key(name) in Routers.Replay(history).invokers
    ensures Routers.NameByKey(Routers.Replay(history), Routers.Key(name)) == name
  {
    Routers.KeySetsAgree(history);
    NamesAreRegistered(history, Routers.Key(name));
  }

  /** A missing function. */
  lemma MissingGets(program: Program, a: Answer, key: uint32, name: Routers.Name)
    requires key == Routers.Key(name) && a.served.func == key && key !in Routers.Replay(a.history).invokers
    requires MayReply(program, a)
    ensures NoSuchFunction(key, a.reply)
  {
    Routers.UnknownIsNamedByKey(a.history, key, a.run);
    Routers.RepliesExplain(Routers.Replay(a.history), key, a.run);
    Routers.KeySetsAgree(a.history);
  }

  /** A function that is there. */
  lemma FoundYields(program: Program, a: Answer, key: uint32, name: Routers.Name)
    requires Routers.WellKeyed(a.history) && Unambiguous(a.history, name)
    requires key == Routers.Key(name) && a.served.func == key && key in Routers.Replay(a.history).invokers
    requires MayRun(program, a.history, a.served, a.run) && MayReply(program, a)
    ensures Yields(program, Routers.Replay(a.history).invokers[key], name, a.served.args, a.reply)
  {
    var tables := Routers.Replay(a.history);
    OwnName(a.history, name);
    FoundReplies(program, tables, tables.invokers[key], key, name, a);
  }

  lemma FoundReplies(program: Program, tables: Routers.Tables, h: Routers.Handler, key: uint32, name: Routers.Name,
                     a: Answer)
    requires key in tables.invokers && tables.invokers[key] == h && Routers.NameByKey(tables, key) == name
    requires var routed := Routers.RouteReply(tables, key, a.run);
      routed == Some(a.reply) || (routed == None && (h, a.served.args, a.reply) in program.replies)
    ensures RunYields(program, h, name, a.served.args, a.run, a.reply)
  {
    Routers.RepliesExplain(tables, key, a.run);
  }

  lemma HonestGets(program: Program, name: Routers.Name, args: seq<byte>, a: Answer)
    requires Honest(program, Request(Routers.Key(name), args), a) && Unambiguous(a.history, name)
    ensures Gets(program, a.history, name, args, a.reply)
  {
    var key := Routers.Key(name);
    Routers.RoutingByName(a.history, name);
    if key in Routers.Replay(a.history).invokers {
      FoundYields(program, a, key, name);
    } else {
      MissingGets(program, a, key, name);
    }
  }

  // The registrations of a run.

  /** What a step does to the registry. */
  function Changes(a: Action): seq<Routers.Change> {
    match a
    case Register(name, handler) => [Routers.Register(Routers.Key(name), name, handler)]
    case Remove(name) => [Routers.Remove(Routers.Key(name), name)]
    case _ => []
  }

  function ChangesUpTo(actions: seq<Action>, k: nat): seq<Routers.Change>
    requires k <= |actions|
  {
    if k == 0 then [] else ChangesUpTo(actions, k - 1) + Changes(actions[k - 1])
  }

  lemma EndingKeepsHistory(s: State, a: Action)
    requires Enabled(s, a) && EndsBody(a)
    ensures Step(s, a).history == s.history
  {
  }

  lemma StepChanges(s: State, a: Action)
    requires Enabled(s, a)
    ensures Step(s, a).history == s.history + Changes(a)
  {
    if EndsBody(a) {
      EndingKeepsHistory(s, a);
    } else if a.ServerReads? {
      ServingKeepsHistory(s, a.run);
    } else {
      OthersChange(s, a);
    }
  }

  lemma ServingKeepsHistory(s: State, run: Routers.Run)
    requires s.c2s != []
    ensures Serve(s, run).history == s.history
  {
  }

  lemma OthersChange(s: State, a: Action)
    requires Enabled(s, a) && !EndsBody(a) && !a.ServerReads?
    ensures Step(s, a).history == s.history + Changes(a)
  {
  }

  /** The registrations at any moment are those the connection began with and then those the program
      has made and removed, in order. */
  lemma {:induction false} HistoryIsActions(states: seq<State>, actions: seq<Action>, k: nat)
    requires System.Run(states, actions) && k < |states|
    ensures states[k].history == states[0].history + ChangesUpTo(actions, k)
  {
    if k > 0 {
      var n: nat := k - 1;
      HistoryIsActions(states, actions, n);
      HistoryMoves(states, actions, n);
      Regroup(states[0].history, ChangesUpTo(actions, n), Changes(actions[n]));
    }
  }

  lemma HistoryMoves(states: seq<State>, actions: seq<Action>, n: nat)
    requires System.Run(states, actions) && n < |actions|
    ensures states[n + 1].history == states[n].history + Changes(actions[n])
  {
    StepChanges(states[n], actions[n]);
  }

  // When a request was dispatched.

  /** These were the registrations at some earlier moment, when call `n` had already been made. */
  ghost predicate When(states: seq<State>, k: nat, history: seq<Routers.Change>, n: nat) {
    exists t: nat :: t < k <= |states| && states[t].history == history && n < |states[t].book.ids|
  }

  /** An answer is made with the registrations of now, or with those a task has kept. */
  ghost predicate AnsweredNow(s: State, n: nat, a: Answer) {
    || (a.history == s.history && n < |s.book.ids|)
    || exists t :: t in s.tasks && t.p.call == Some(n) && t.history == a.history
  }

  /** Every new answer and every new task of `c` has the registrations of `s` or of its tasks. */
  ghost predicate Follows(s: State, c: State) {
    && (forall n :: n in c.book.answers && n !in s.book.answers ==> AnsweredNow(s, n, c.book.answers[n]))
    && (forall t :: t in c.tasks && t !in s.tasks ==>
          t.history == s.history && t.p.call.Some? && t.p.call.value < |s.book.ids|)
  }

  lemma StepDates(s: State, a: Action)
    requires Sound(s) && Enabled(s, a)
    ensures Follows(s, Step(s, a))
  {
    if a.ServerReads? {
      FrontIsAsked(s);
      ServeDates(s, a.run);
    } else if a.HandlerAnswers? {
      HandlerDates(s, a.i, a.reply);
    } else {
      OthersDate(s, a);
    }
  }

  lemma HandlerDates(s: State, i: nat, reply: seq<byte>)
    requires Enabled(s, HandlerAnswers(i, reply))
    ensures Follows(s, Step(s, HandlerAnswers(i, reply)))
  {
    assert s.tasks[i] in s.tasks;
  }

  lemma OthersDate(s: State, a: Action)
    requires Enabled(s, a) && !a.ServerReads? && !a.HandlerAnswers?
    ensures Follows(s, Step(s, a))
  {
    match a {
      case ClientHead =>
      case ClientBody => BodyDates(s.(reading := None), s.reading.value, NoError, s.reading.value.m.content, Running);
      case BodyError => BodyDates(s.(reading := None), s.reading.value, ReadError, [], Failed);
      case BodyAborted => BodyDates(s.(reading := None), s.reading.value, Aborted, [], s.mode);
      case _ =>
    }
  }

  lemma BodyDates(s: State, p: Packet, ec: ErrorCode, data: seq<byte>, after: Mode)
    ensures CompleteWith(s, p, ec, data, after).book.answers == s.book.answers
    ensures CompleteWith(s, p, ec, data, after).tasks == s.tasks
  {
  }

  lemma ServeDates(s: State, run: Routers.Run)
    requires Parked(s.book) && Enabled(s, ServerReads(run)) && AskedOk(s.book, s.c2s[0])
    ensures Follows(s, Step(s, ServerReads(run)))
  {
  }

  ghost predicate Dated(states: seq<State>, k: nat)
    requires k < |states|
  {
    && (forall n :: n in states[k].book.answers ==> When(states, k, states[k].book.answers[n].history, n))
    && (forall t :: t in states[k].tasks ==> t.p.call.Some? && When(states, k, t.history, t.p.call.value))
  }

  lemma {:induction false} RunDates(states: seq<State>, actions: seq<Action>, k: nat)
    requires System.Run(states, actions) && k < |states|
    ensures Dated(states, k)
  {
    if k > 0 {
      RunDates(states, actions, k - 1);
      RunIsSound(states, actions, k - 1);
      StepDates(states[k - 1], actions[k - 1]);
      OneStepGrows(states, actions, k - 1);
      DatesOn(states, k - 1);
    }
  }

  lemma DatesOn(states: seq<State>, k: nat)
    requires k + 1 < |states| && Dated(states, k)
    requires Grows(states[k].book, states[k + 1].book)
    requires Follows(states[k], states[k + 1])
    ensures Dated(states, k + 1)
  {
    var s, c := states[k], states[k + 1];
    forall history, n: nat
      ensures When(states, k, history, n) ==> When(states, k + 1, history, n)
      ensures history == s.history && n < |s.book.ids| ==> When(states, k + 1, history, n)
    {
    }
  }

  // The result.

  predicate Makes(a: Action, name: Routers.Name, args: seq<byte>) {
    (a.CallFuture? || a.CallCallback?) && a.name == name && a.args == args
  }

  lemma CallIsRecorded(states: seq<State>, actions: seq<Action>, j: nat, k: nat, name: Routers.Name, args: seq<byte>)
    requires System.Run(states, actions) && j < |actions| && Makes(actions[j], name, args)
    requires j < k < |states| && |args| < MAX_BUF_LEN
    ensures var n := |states[j].book.ids|;
      n < |states[k].book.requests| && states[k].book.requests[n] == Request(Routers.Key(name), args)
  {
    RunIsSound(states, actions, j);
    HistoryStands(states, actions, j + 1, k);
  }

  /** A call whose arguments are too long is not made at all. */
  lemma TooLongIsNotMade(states: seq<State>, actions: seq<Action>, j: nat, k: nat, name: Routers.Name, args: seq<byte>)
    requires System.Run(states, actions) && j < |actions| && Makes(actions[j], name, args)
    requires j < k < |states| && |args| >= MAX_BUF_LEN
    ensures states[k].book == states[j].book
  {
    TooLongStops(states, actions, j, name, args);
    if j + 1 < |actions| {
      AssertionsExactly(states, actions, j + 1);
    }
  }

  lemma TooLongStops(states: seq<State>, actions: seq<Action>, j: nat, name: Routers.Name, args: seq<byte>)
    requires System.Run(states, actions) && j < |actions|
    requires Makes(actions[j], name, args) && |args| >= MAX_BUF_LEN
    ensures states[j + 1] == states[j].(mode := Asserted)
  {
    TooLongAsserts(states[j], actions[j], name, args);
  }

  lemma TooLongAsserts(s: State, a: Action, name: Routers.Name, args: seq<byte>)
    requires Enabled(s, a) && Makes(a, name, args) && |args| >= MAX_BUF_LEN
    ensures Step(s, a) == s.(mode := Asserted)
  {
  }

  /** Over every interleaving: the call made at step `j`, if it is completed without an error by
      step `k`, got what the function had to say that was registered under its name at some moment
      in between, for the call's own arguments; or that there was no such function. */
  lemma CorrelationByName(states: seq<State>, actions: seq<Action>, j: nat, k: nat, i: nat, name: Routers.Name,
                          args: seq<byte>)
    requires System.Run(states, actions) && j < |actions| && Makes(actions[j], name, args)
    requires j < k < |states| && i < |states[k].book.completions|
    requires states[k].book.completions[i].call == |states[j].book.ids|
    requires states[k].book.completions[i].ec == NoError
    requires Unambiguous(states[k].history, name)
    ensures exists t: nat :: j < t < k && GetsAt(states, t, name, args, states[k].book.completions[i].data)
  {
    var b, n := states[k].book, |states[j].book.ids|;
    Correlation(states, actions, k, i);
    if |args| >= MAX_BUF_LEN {
      TooLongIsNotMade(states, actions, j, k, name, args);
      RunIsSound(states, actions, j);
    }
    CallIsRecorded(states, actions, j, k, name, args);
    var t := Moment(states, actions, j, k, n);
    MomentIsUnambiguous(states, actions, t, k, name);
    assert Honest(b.program, Request(Routers.Key(name), args), b.answers[n]) by {
      RunIsSound(states, actions, k);
    }
    HonestGets(b.program, name, args, b.answers[n]);
    assert GetsAt(states, t, name, args, states[k].book.completions[i].data);
  }

  ghost predicate GetsAt(states: seq<State>, t: nat, name: Routers.Name, args: seq<byte>, data: seq<byte>)
    requires t < |states|
  {
    Gets(states[t].book.program, states[t].history, name, args, data)
  }

  lemma MomentIsUnambiguous(states: seq<State>, actions: seq<Action>, t: nat, k: nat, name: Routers.Name)
    requires System.Run(states, actions) && t <= k < |states| && Unambiguous(states[k].history, name)
    ensures Unambiguous(states[t].history, name) && states[t].book.program == states[k].book.program
  {
    HistoryStands(states, actions, t, k);
  }

  lemma Moment(states: seq<State>, actions: seq<Action>, j: nat, k: nat, n: nat) returns (t: nat)
    requires System.Run(states, actions) && j < k < |states| && n == |states[j].book.ids| && n in states[k].book.answers
    ensures j < t < k && states[t].history == states[k].book.answers[n].history
  {
    RunDates(states, actions, k);
    var history := states[k].book.answers[n].history;
    assert When(states, k, history, n);
    t :| t < k && states[t].history == history && n < |states[t].book.ids|;
    if t <= j {
      HistoryStands(states, actions, t, j);
    }
  }
}

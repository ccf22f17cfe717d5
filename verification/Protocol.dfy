/** What a connection's calls, replies and publications keep, wherever they are: the requests not
    yet answered and the replies not yet handed over are two bags of packets. */
module Protocol {
  import opened Bytes
  import opened Calls
  import opened Codec
  import opened Framing
  import Routers

  /** A message with the call it belongs to, which no byte on the wire says. Heartbeats,
      subscriptions and publications belong to none. */
  datatype Packet = Packet(m: Message, call: Option<nat>)

  datatype Request = Request(func: uint32, args: seq<byte>)

  /** What the program's handlers may do: the runs of a handler on the bytes of a request, and
      the replies an asynchronous one may send for them later. */
  datatype Program = Program(
    runs: iset<(Routers.Handler, seq<byte>, Routers.Run)>,
    replies: iset<(Routers.Handler, seq<byte>, seq<byte>)>)

  /** What the server made of a call: the registrations at the time, the request as it was
      dispatched, the run of the handler, and the reply sent. */
  datatype Answer = Answer(history: seq<Routers.Change>, served: Request, run: Routers.Run, reply: seq<byte>)

  /** The client's call maps and the histories: each call's id and request by serial number, the
      answers, the completions; the handlers by composite key, the keys the server holds for this
      connection, what the handlers were given, and the publications that found none. */
  datatype Book = Book(
    program: Program,
    calls: CallMaps, ids: seq<uint64>, requests: seq<Request>, answers: map<nat, Answer>,
    completions: seq<Completion>,
    subs: map<seq<byte>, nat>, entries: set<seq<byte>>, handed: seq<(nat, seq<byte>)>, lost: nat)

  function EmptyBook(program: Program, subs: map<seq<byte>, nat>): Book {
    Book(program, NO_CALLS, [], [], map[], [], subs, {}, [], 0)
  }

  /** Call `n` is registered under its id. */
  ghost predicate Registered(b: Book, n: nat) {
    n < |b.ids| && b.ids[n] in Waiting(b.calls) && CallOf(b.calls, b.ids[n]) == n
  }

  ghost predicate Done(b: Book, n: nat) {
    exists i :: 0 <= i < |b.completions| && b.completions[i].call == n
  }

  function Question(b: Book, n: nat): Packet
    requires n < |b.ids| == |b.requests|
  {
    Packet(Message(b.ids[n], REQ_RES, b.requests[n].args, b.requests[n].func), Some(n))
  }

  function Reply(b: Book, n: nat): Packet
    requires n < |b.ids| && n in b.answers
  {
    Packet(Message(b.ids[n], REQ_RES, b.answers[n].reply, 0), Some(n))
  }

  // The invariant.

  ghost predicate Parked(b: Book) {
    && SpacesApart(b.calls) && 0 !in b.ids
    && |b.ids| == |b.requests| && (forall r :: r in b.requests ==> 0 < |r.args| < MAX_BUF_LEN)
    && (forall n :: n in b.answers ==> n < |b.ids|)
    && (forall id :: id in Waiting(b.calls) ==> CallOf(b.calls, id) < |b.ids| && b.ids[CallOf(b.calls, id)] == id)
  }

  /** Every call is registered or completed, not both, and completed once. */
  ghost predicate Settled(b: Book) {
    && (forall n: nat :: n < |b.ids| ==> (Registered(b, n) <==> !Done(b, n)))
    && (forall i, j :: 0 <= i < j < |b.completions| ==> b.completions[i].call != b.completions[j].call)
    && (forall i :: 0 <= i < |b.completions| ==> b.completions[i].call < |b.ids|)
  }

  /** Every call completed without an error got the answer to its own request. */
  ghost predicate Correlated(b: Book) {
    && |b.ids| == |b.requests|
    && (forall n :: n in b.answers ==> n < |b.requests| && Honest(b.program, b.requests[n], b.answers[n]))
    && (forall i :: 0 <= i < |b.completions| ==> RightData(b, b.completions[i]))
  }

  /** The handler found for a request, if any, may run like this on the request's bytes. */
  ghost predicate MayRun(program: Program, history: seq<Routers.Change>, r: Request, run: Routers.Run) {
    var found := Routers.Replay(history).invokers;
    r.func in found ==> (found[r.func], r.args, run) in program.runs
  }

  /** The reply is the router's for this run, unless an asynchronous handler returned: then it is
      one that this handler may send for the request. */
  ghost predicate MayReply(program: Program, a: Answer) {
    var tables := Routers.Replay(a.history);
    var routed := Routers.RouteReply(tables, a.served.func, a.run);
    || routed == Some(a.reply)
    || (routed == None && a.served.func in tables.invokers
        && (tables.invokers[a.served.func], a.served.args, a.reply) in program.replies)
  }

  /** An answer to this very request: it is what was dispatched, and run and reply are such as the
      handler registered for its function id gives for its arguments. */
  ghost predicate Honest(program: Program, r: Request, a: Answer) {
    && a.served == r && Routers.WellKeyed(a.history)
    && MayRun(program, a.history, r, a.run) && MayReply(program, a)
    && |a.reply| < MAX_BUF_LEN
  }

  ghost predicate RightData(b: Book, c: Completion) {
    c.ec == NoError ==> c.call in b.answers && c.data == b.answers[c.call].reply
  }

  ghost predicate AskedOk(b: Book, p: Packet)
    requires |b.ids| == |b.requests|
  {
    match p.call
    case Some(n) => Registered(b, n) && p == Question(b, n) && n !in b.answers
    case None => p.m.reqId == 0 && |p.m.content| < MAX_BUF_LEN && (p.m.content == [] || SubscriptionOk(b.subs, p.m))
  }

  ghost predicate SubscriptionOk(subs: map<seq<byte>, nat>, m: Message) {
    && m.reqType == SUB_PUB && UnpackPair(m.content).Some?
    && UnpackPair(m.content).value.0 + UnpackPair(m.content).value.1 in subs
  }

  ghost predicate AnsweredOk(b: Book, p: Packet) {
    match p.call
    case Some(n) => Registered(b, n) && n in b.answers && p == Reply(b, n)
    case None => p.m.reqId == 0 && |p.m.content| < MAX_BUF_LEN && PublicationOk(b.subs, p.m)
  }

  ghost predicate PublicationOk(subs: map<seq<byte>, nat>, m: Message) {
    && m.reqType == SUB_PUB && m.content != [] && UnpackPublication(m.content).Some?
    && UnpackPublication(m.content).value.0 in subs
  }

  /** Each registered call is in exactly one place: its question among the asked, once, until it
      is answered; then its reply among the answered, once. Nothing else bears an id. */
  ghost predicate Conserved(b: Book, asked: multiset<Packet>, answered: multiset<Packet>) {
    && |b.ids| == |b.requests|
    && (forall p :: p in asked ==> AskedOk(b, p))
    && (forall p :: p in answered ==> AnsweredOk(b, p))
    && (forall n: nat :: Registered(b, n) ==>
          if n in b.answers then answered[Reply(b, n)] == 1 else asked[Question(b, n)] == 1)
  }

  ghost predicate Topical(b: Book) {
    b.entries <= b.subs.Keys && b.lost == 0
  }

  ghost predicate Inv(b: Book, asked: multiset<Packet>, answered: multiset<Packet>) {
    Parked(b) && Settled(b) && Correlated(b) && Conserved(b, asked, answered) && Topical(b)
  }

  lemma EmptyIsFine(program: Program, subs: map<seq<byte>, nat>)
    ensures Inv(EmptyBook(program, subs), multiset{}, multiset{})
  {
  }

  /** `c` knows what `b` knows, with the same answers, and has registered what `b` has. */
  ghost predicate Extends(b: Book, c: Book) {
    && |b.ids| == |b.requests| && |c.ids| == |c.requests|
    && b.ids <= c.ids && b.requests <= c.requests && b.answers == c.answers && b.subs.Keys <= c.subs.Keys
    && forall n: nat :: Registered(b, n) ==> Registered(c, n)
  }

  lemma StillAsked(b: Book, c: Book, p: Packet)
    requires Extends(b, c) && AskedOk(b, p)
    ensures AskedOk(c, p)
  {
  }

  lemma StillAnswered(b: Book, c: Book, p: Packet)
    requires Extends(b, c) && AnsweredOk(b, p)
    ensures AnsweredOk(c, p)
  {
  }

  lemma StillOk(b: Book, c: Book, asked: multiset<Packet>, answered: multiset<Packet>)
    requires Extends(b, c) && Conserved(b, asked, answered)
    ensures (forall p :: p in asked ==> AskedOk(c, p)) && (forall p :: p in answered ==> AnsweredOk(c, p))
  {
    forall p | p in asked ensures AskedOk(c, p) {
      StillAsked(b, c, p);
    }
    forall p | p in answered ensures AnsweredOk(c, p) {
      StillAnswered(b, c, p);
    }
  }

  // Calling.

  function Ask(b: Book, d: CallMaps, id: uint64, r: Request): Book {
    b.(calls := d, ids := b.ids + [id], requests := b.requests + [r])
  }

  /** Parking one more call leaves the others registered as they were. */
  lemma AskRegisters(b: Book, d: CallMaps, id: uint64, r: Request)
    requires Parked(b) && Settled(b) && Parks(b.calls, d, id, |b.ids|) && 0 < |r.args| < MAX_BUF_LEN
    ensures var c := Ask(b, d, id, r);
      && Parked(c) && Registered(c, |b.ids|)
      && forall n: nat :: n < |b.ids| ==> (Registered(c, n) <==> Registered(b, n))
  {
    var c := Ask(b, d, id, r);
    forall n: nat | n < |b.ids|
      ensures Registered(c, n) <==> Registered(b, n)
    {
      if b.ids[n] == id {
        assert !Registered(b, n);
      }
    }
  }

  lemma AskSettles(b: Book, d: CallMaps, id: uint64, r: Request)
    requires Parked(b) && Settled(b) && Parks(b.calls, d, id, |b.ids|) && 0 < |r.args| < MAX_BUF_LEN
    ensures Settled(Ask(b, d, id, r))
  {
    var c := Ask(b, d, id, r);
    AskRegisters(b, d, id, r);
    forall n: nat | n < |c.ids|
      ensures Registered(c, n) <==> !Done(c, n)
    {
      assert Done(c, n) <==> Done(b, n);
    }
  }

  lemma AskConserves(b: Book, asked: multiset<Packet>, answered: multiset<Packet>, d: CallMaps, id: uint64, r: Request)
    requires Parked(b) && Settled(b) && Conserved(b, asked, answered) && Parks(b.calls, d, id, |b.ids|)
      && 0 < |r.args| < MAX_BUF_LEN
    ensures var c := Ask(b, d, id, r);
      Conserved(c, asked + multiset{Question(c, |b.ids|)}, answered)
  {
    var c := Ask(b, d, id, r);
    AskRegisters(b, d, id, r);
    assert !Registered(b, |b.ids|);
    assert Question(c, |b.ids|) !in asked;
    StillOk(b, c, asked, answered);
  }

  lemma AskKeeps(b: Book, asked: multiset<Packet>, answered: multiset<Packet>, d: CallMaps, id: uint64, r: Request)
    requires Inv(b, asked, answered) && Parks(b.calls, d, id, |b.ids|) && 0 < |r.args| < MAX_BUF_LEN
    ensures var c := Ask(b, d, id, r);
      Inv(c, asked + multiset{Question(c, |b.ids|)}, answered)
  {
    AskRegisters(b, d, id, r);
    AskSettles(b, d, id, r);
    AskConserves(b, asked, answered, d, id, r);
  }

  // Answering.

  function Answered(b: Book, n: nat, a: Answer): Book {
    b.(answers := b.answers[n := a])
  }

  /** The reply sent for a request id; the call goes with it unseen. */
  function ReplyPacket(reqId: uint64, call: Option<nat>, reply: seq<byte>): Packet {
    Packet(Message(reqId, REQ_RES, reply, 0), call)
  }

  /** A question answered: its place among the asked goes to its reply among the answered. */
  lemma AnswerKeeps(b: Book, asked: multiset<Packet>, answered: multiset<Packet>, p: Packet, a: Answer)
    requires Inv(b, asked, answered) && p in asked && p.call.Some?
    requires Honest(b.program, Request(p.m.funcId, p.m.content), a)
    ensures Inv(Answered(b, p.call.value, a), asked - multiset{p},
                answered + multiset{ReplyPacket(p.m.reqId, p.call, a.reply)})
  {
    var n := p.call.value;
    assert AskedOk(b, p);
    AnswerConserves(b, asked, answered, n, a);
    AnswerSettles(b, n, a);
    AnswerCorrelates(b, n, a);
  }

  lemma AnswerSettles(b: Book, n: nat, a: Answer)
    requires Parked(b) && Settled(b) && n < |b.ids|
    ensures Parked(Answered(b, n, a)) && Settled(Answered(b, n, a))
  {
    var c := Answered(b, n, a);
    assert forall m: nat :: Registered(c, m) <==> Registered(b, m);
    assert forall m: nat :: Done(c, m) <==> Done(b, m);
  }

  lemma AnswerCorrelates(b: Book, n: nat, a: Answer)
    requires Correlated(b) && n < |b.ids| && n !in b.answers && Honest(b.program, b.requests[n], a)
    ensures Correlated(Answered(b, n, a))
  {
    var c := Answered(b, n, a);
    forall i | 0 <= i < |b.completions| ensures RightData(c, c.completions[i]) {
      assert RightData(b, b.completions[i]);
    }
  }

  lemma AnswerConserves(b: Book, asked: multiset<Packet>, answered: multiset<Packet>, n: nat, a: Answer)
    requires Parked(b) && Conserved(b, asked, answered) && Registered(b, n) && n !in b.answers
    ensures Conserved(Answered(b, n, a), asked - multiset{Question(b, n)},
                      answered + multiset{Reply(Answered(b, n, a), n)})
  {
    var c := Answered(b, n, a);
    var q, r := Question(b, n), Reply(c, n);
    assert asked[q] == 1;
    forall p | p in asked - multiset{q} ensures AskedOk(c, p) {
      assert AskedOk(b, p) && p != q;
    }
    forall p | p in answered ensures AnsweredOk(c, p) && p != r {
      assert AnsweredOk(b, p);
    }
  }

  // Completing.

  /** `call_back` for a reply that has arrived, or whose body could not be read. */
  function Finish(b: Book, r: Completed): Book
    requires r.Completes?
  {
    b.(calls := r.calls, completions := b.completions + [r.completion])
  }

  lemma FinishRegisters(b: Book, n: nat, ec: ErrorCode, data: seq<byte>)
    requires Parked(b) && Registered(b, n)
    ensures var r := CallBack(b.calls, b.ids[n], ec, data);
      && r.Completes? && r.completion.call == n && Parked(Finish(b, r))
      && (r.completion.ec == NoError ==> r.completion.data == data && ec == NoError)
      && forall m: nat :: Registered(Finish(b, r), m) <==> Registered(b, m) && m != n
  {
    CallBackFindsTheCall(b.calls, b.ids[n], ec, data);
    var r := CallBack(b.calls, b.ids[n], ec, data);
    var c := Finish(b, r);
    forall m: nat ensures Registered(c, m) <==> Registered(b, m) && m != n {
      if m < |b.ids| && b.ids[m] == b.ids[n] && m != n {
        assert !Registered(b, m);
      }
    }
  }

  lemma FinishSettles(b: Book, n: nat, ec: ErrorCode, data: seq<byte>)
    requires Parked(b) && Settled(b) && Registered(b, n)
    ensures var r := CallBack(b.calls, b.ids[n], ec, data); r.Completes? && Settled(Finish(b, r))
  {
    FinishRegisters(b, n, ec, data);
    var r := CallBack(b.calls, b.ids[n], ec, data);
    var c := Finish(b, r);
    assert !Done(b, n);
    forall m: nat | m < |c.ids| ensures Registered(c, m) <==> !Done(c, m) {
      DoneOneMore(b, c, r.completion, m);
    }
  }

  lemma DoneOneMore(b: Book, c: Book, last: Completion, m: nat)
    requires c.completions == b.completions + [last]
    ensures Done(c, m) <==> Done(b, m) || m == last.call
  {
    if Done(b, m) {
      var i :| 0 <= i < |b.completions| && b.completions[i].call == m;
      assert c.completions[i].call == m;
    }
    if m == last.call {
      assert c.completions[|b.completions|].call == m;
    }
  }

  lemma FinishConserves(b: Book, asked: multiset<Packet>, answered: multiset<Packet>, n: nat, ec: ErrorCode,
                        data: seq<byte>)
    requires Parked(b) && Conserved(b, asked, answered) && Registered(b, n) && n in b.answers
    ensures var r := CallBack(b.calls, b.ids[n], ec, data);
      r.Completes? && Conserved(Finish(b, r), asked, answered - multiset{Reply(b, n)})
  {
    FinishRegisters(b, n, ec, data);
    var r := CallBack(b.calls, b.ids[n], ec, data);
    var c := Finish(b, r);
    assert answered[Reply(b, n)] == 1;
    forall p | p in asked ensures AskedOk(c, p) {
      assert AskedOk(b, p);
    }
    forall p | p in answered - multiset{Reply(b, n)} ensures AnsweredOk(c, p) {
      assert AnsweredOk(b, p);
    }
  }

  /** A reply handed over, or whose body failed to arrive, completes its own call, without a
      failing assertion. */
  lemma FinishKeeps(b: Book, asked: multiset<Packet>, answered: multiset<Packet>, p: Packet, ec: ErrorCode,
                    data: seq<byte>)
    requires Inv(b, asked, answered) && p in answered && p.call.Some? && (ec == NoError ==> data == p.m.content)
    ensures var r := CallBack(b.calls, p.m.reqId, ec, data);
      && r.Completes? && r.completion.call == p.call.value
      && Inv(Finish(b, r), asked, answered - multiset{p})
  {
    var n := p.call.value;
    assert AnsweredOk(b, p);
    FinishRegisters(b, n, ec, data);
    FinishSettles(b, n, ec, data);
    FinishConserves(b, asked, answered, n, ec, data);
    FinishCorrelates(b, n, ec, data);
  }

  lemma FinishCorrelates(b: Book, n: nat, ec: ErrorCode, data: seq<byte>)
    requires Parked(b) && Correlated(b) && Registered(b, n) && n in b.answers
    requires ec == NoError ==> data == b.answers[n].reply
    ensures var r := CallBack(b.calls, b.ids[n], ec, data); r.Completes? && Correlated(Finish(b, r))
  {
    FinishRegisters(b, n, ec, data);
    var r := CallBack(b.calls, b.ids[n], ec, data);
    var c := Finish(b, r);
    forall i | 0 <= i < |c.completions| ensures RightData(c, c.completions[i]) {
      if i < |b.completions| {
        assert RightData(b, b.completions[i]);
      }
    }
  }

  // The rest.

  lemma TimerKeeps(b: Book, asked: multiset<Packet>, answered: multiset<Packet>, id: uint64)
    requires Inv(b, asked, answered) && id in b.calls.callbacks
    ensures Inv(b.(calls := TimerFires(b.calls, id)), asked, answered)
  {
    TimerKeepsCalls(b.calls, id);
    var c := b.(calls := TimerFires(b.calls, id));
    assert forall n: nat :: Registered(c, n) <==> Registered(b, n);
    assert forall n: nat :: Done(c, n) <==> Done(b, n);
    SameRegistered(b, c, asked, answered);
  }

  lemma SameRegistered(b: Book, c: Book, asked: multiset<Packet>, answered: multiset<Packet>)
    requires Conserved(b, asked, answered) && c == b.(calls := c.calls)
    requires forall n: nat :: Registered(c, n) <==> Registered(b, n)
    ensures Conserved(c, asked, answered)
  {
    StillOk(b, c, asked, answered);
  }

  /** More handlers and entries change nothing else. */
  function Learn(b: Book, subs: map<seq<byte>, nat>, entries: set<seq<byte>>): Book {
    b.(subs := b.subs + subs, entries := b.entries + entries)
  }

  lemma LearnKeeps(b: Book, asked: multiset<Packet>, answered: multiset<Packet>, subs: map<seq<byte>, nat>,
                   entries: set<seq<byte>>)
    requires Inv(b, asked, answered) && entries <= b.subs.Keys + subs.Keys
    ensures Inv(Learn(b, subs, entries), asked, answered)
  {
    var c := Learn(b, subs, entries);
    assert forall n: nat :: Registered(c, n) <==> Registered(b, n);
    assert forall n: nat :: Done(c, n) <==> Done(b, n);
    StillOk(b, c, asked, answered);
    assert forall i :: 0 <= i < |b.completions| ==>
      (RightData(c, c.completions[i]) <==> RightData(b, b.completions[i]));
  }

  /** Packets that belong to no call come and go. */
  lemma UntaggedKeeps(b: Book, asked: multiset<Packet>, answered: multiset<Packet>,
                      asked': multiset<Packet>, answered': multiset<Packet>)
    requires Inv(b, asked, answered)
    requires forall p: Packet :: p.call.Some? ==> asked[p] == asked'[p] && answered[p] == answered'[p]
    requires forall p :: p in asked' && p.call.None? ==> AskedOk(b, p)
    requires forall p :: p in answered' && p.call.None? ==> AnsweredOk(b, p)
    ensures Inv(b, asked', answered')
  {
    forall p | p in asked' ensures AskedOk(b, p) {
      assert p.call.Some? ==> asked[p] == asked'[p];
      assert p in asked ==> AskedOk(b, p);
    }
    forall p | p in answered' ensures AnsweredOk(b, p) {
      assert p.call.Some? ==> answered[p] == answered'[p];
      assert p in answered ==> AnsweredOk(b, p);
    }
  }

  // The end.

  /** What holds of the history in any state, also after the connection has failed: completions
      are correlated, no call is completed twice, and no publication was lost. */
  ghost predicate History(b: Book) {
    && Correlated(b) && b.lost == 0
    && (forall i, j :: 0 <= i < j < |b.completions| ==> b.completions[i].call != b.completions[j].call)
  }

  /** A failing head read invokes every parked callback, which is the first completion of each. */
  lemma FailAllKeeps(b: Book, asked: multiset<Packet>, answered: multiset<Packet>, ids: seq<uint64>,
                     made: seq<Completion>)
    requires Inv(b, asked, answered) && FailsAll(b.calls.callbacks, ids, made)
    ensures History(b.(calls := Forget(b.calls), completions := b.completions + made))
  {
    var c := b.(calls := Forget(b.calls), completions := b.completions + made);
    forall i | 0 <= i < |c.completions| ensures RightData(c, c.completions[i]) {
      if i < |b.completions| {
        assert RightData(b, b.completions[i]);
      }
    }
    forall k | 0 <= k < |made|
      ensures Registered(b, made[k].call) && b.ids[made[k].call] == ids[k]
    {
      assert ids[k] in b.calls.callbacks;
      assert CallOf(b.calls, ids[k]) == made[k].call;
    }
    forall i, j | 0 <= i < j < |c.completions|
      ensures c.completions[i].call != c.completions[j].call
    {
      if i < |b.completions| <= j {
        assert Done(b, b.completions[i].call);
        assert Registered(b, made[j - |b.completions|].call);
      } else if |b.completions| <= i {
        assert ids[i - |b.completions|] != ids[j - |b.completions|];
      }
    }
  }

  lemma ForgetKeepsHistory(b: Book)
    requires History(b)
    ensures History(b.(calls := Forget(b.calls)))
  {
    var c := b.(calls := Forget(b.calls));
    forall i | 0 <= i < |c.completions| ensures RightData(c, c.completions[i]) {
      assert RightData(b, b.completions[i]);
    }
  }
}

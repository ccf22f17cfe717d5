/** The handler registry and dispatcher of include/rest_rpc/router.h. A registered function is a
    handler identity with its execution mode; one run of it is a value of type Run. */
module Routers {
  import opened Bytes
  import opened Codec
  import Framing
  import Md5

  datatype ExecMode = Sync | Async

  datatype Handler = Handler(id: nat, mode: ExecMode)

  /** What calling a handler on the request bytes did: the arguments did not unpack, it threw a
      std::exception, or it returned and its result was packed. */
  datatype Run = BadArguments | Throws(what: Text) | Returns(packed: seq<byte>)

  /** Texts leave room for the error messages built around them. */
  type Text = s: seq<byte> | |s| < 0xffff_ff00

  type Name = Text

  function Ascii(s: string): seq<byte> {
    seq(|s|, i requires 0 <= i < |s| => (s[i] as int) % 256)
  }

  /** `MD5Hash32(name.data())`. */
  function Key(name: seq<byte>): uint32 {
    Md5.MD5Hash32(name) as int
  }

  datatype Tables = Tables(invokers: map<uint32, Handler>, names: map<uint32, Name>)

  /** One change of the registry, with the key its name hashes to. */
  datatype Change = Register(key: uint32, name: Name, handler: Handler) | Remove(key: uint32, name: Name)

  ghost predicate WellKeyed(history: seq<Change>) {
    forall c :: c in history ==> c.key == Key(c.name)
  }

  /** Registering overwrites the invoker but keeps the first name. */
  function Apply(t: Tables, c: Change): Tables {
    match c
    case Register(key, name, handler) =>
      Tables(t.invokers[key := handler], if key in t.names then t.names else t.names[key := name])
    case Remove(key, _) => Tables(t.invokers - {key}, t.names - {key})
  }

  function Replay(history: seq<Change>): Tables {
    if history == [] then Tables(map[], map[])
    else Apply(Replay(history[..|history| - 1]), history[|history| - 1])
  }

  // What the tables hold, said of the history alone.

  /** Entry `i` is the last change of `key`. */
  ghost predicate LastChange(history: seq<Change>, key: uint32, i: nat) {
    && i < |history| && history[i].key == key
    && forall j :: i < j < |history| ==> history[j].key != key
  }

  ghost predicate RemovedBetween(history: seq<Change>, key: uint32, i: int, j: int)
    requires 0 <= i <= j <= |history|
  {
    exists k :: i <= k < j && history[k].Remove? && history[k].key == key
  }

  /** Entry `i` is the first registration of `key` since it was last removed. */
  ghost predicate FirstRegistration(history: seq<Change>, key: uint32, i: nat) {
    && i < |history| && history[i].Register? && history[i].key == key
    && !RemovedBetween(history, key, i, |history|)
    && forall j :: 0 <= j < i && history[j].Register? && history[j].key == key ==> RemovedBetween(history, key, j, i)
  }

  lemma {:induction false} InvokersHoldTheLatest(history: seq<Change>, key: uint32, i: nat)
    requires LastChange(history, key, i)
    ensures match history[i]
      case Register(_, _, handler) => key in Replay(history).invokers && Replay(history).invokers[key] == handler
      case Remove(_, _) => key !in Replay(history).invokers
  {
    var n := |history| - 1;
    if i < n {
      assert history[n].key != key;
      assert LastChange(history[..n], key, i);
      InvokersHoldTheLatest(history[..n], key, i);
    }
  }

  lemma {:induction false} UntouchedKeyIsAbsent(history: seq<Change>, key: uint32)
    requires forall c :: c in history ==> c.key != key
    ensures key !in Replay(history).invokers && key !in Replay(history).names
  {
    if history != [] {
      UntouchedKeyIsAbsent(history[..|history| - 1], key);
    }
  }

  /** The two tables always have the same keys. */
  lemma {:induction false} KeySetsAgree(history: seq<Change>)
    ensures Replay(history).invokers.Keys == Replay(history).names.Keys
  {
    if history != [] {
      KeySetsAgree(history[..|history| - 1]);
    }
  }

  lemma {:induction false} NamesHoldTheEarliest(history: seq<Change>, key: uint32, i: nat)
    requires FirstRegistration(history, key, i)
    ensures key in Replay(history).names && Replay(history).names[key] == history[i].name
  {
    var n := |history| - 1;
    var before := history[..n];
    if i == n {
      NoRegistrationMeansAbsent(before, key);
    } else {
      RemovalShows(history, key, i, |history|, n);
      EarlierRegistration(history, key, i);
      NamesHoldTheEarliest(before, key, i);
    }
  }

  lemma RemovalShows(history: seq<Change>, key: uint32, i: nat, j: nat, k: nat)
    requires i <= k < j <= |history|
    ensures history[k].Remove? && history[k].key == key ==> RemovedBetween(history, key, i, j)
  {
  }

  lemma LaterRemoval(history: seq<Change>, key: uint32, i: nat)
    requires i < |history|
    ensures RemovedBetween(history[..|history| - 1], key, i, |history| - 1)
      ==> RemovedBetween(history, key, i, |history|)
  {
    var before := history[..|history| - 1];
    if RemovedBetween(before, key, i, |before|) {
      var k :| i <= k < |before| && before[k].Remove? && before[k].key == key;
      RemovalShows(history, key, i, |history|, k);
    }
  }

  lemma EarlierRegistration(history: seq<Change>, key: uint32, i: nat)
    requires FirstRegistration(history, key, i) && i < |history| - 1
    ensures FirstRegistration(history[..|history| - 1], key, i)
  {
    var before := history[..|history| - 1];
    LaterRemoval(history, key, i);
    forall j | 0 <= j < i && before[j].Register? && before[j].key == key
      ensures RemovedBetween(before, key, j, i)
    {
      assert history[j].Register?;
      var k :| j <= k < i && history[k].Remove? && history[k].key == key;
      assert before[k].Remove?;
    }
  }

  /** Every registration undone: the key is in neither table. */
  lemma {:induction false} NoRegistrationMeansAbsent(history: seq<Change>, key: uint32)
    requires forall j :: 0 <= j < |history| && history[j].Register? && history[j].key == key ==>
      RemovedBetween(history, key, j, |history|)
    ensures key !in Replay(history).names
  {
    if history != [] {
      var n := |history| - 1;
      var before := history[..n];
      if history[n].Register? && history[n].key == key {
        assert false;
      } else if !(history[n].Remove? && history[n].key == key) {
        forall j | 0 <= j < n && before[j].Register? && before[j].key == key
          ensures RemovedBetween(before, key, j, n)
        {
          assert history[j].Register?;
          var k :| j <= k < |history| && history[k].Remove? && history[k].key == key;
          assert k != n && before[k].Remove?;
        }
        NoRegistrationMeansAbsent(before, key);
      }
    }
  }

  // Names instead of keys.

  /** Only the characters before the first NUL are hashed. */
  lemma KeyStopsAtNul(name: Name, other: Name)
    requires Md5.CString(name) == Md5.CString(other)
    ensures Key(name) == Key(other)
  {
  }

  ghost predicate LastNamed(history: seq<Change>, name: Name, i: nat) {
    && i < |history| && history[i].name == name
    && forall j :: i < j < |history| ==> history[j].name != name
  }

  /** No other name of the history shares this name's key. */
  ghost predicate KeyIsOwn(history: seq<Change>, name: Name, key: uint32) {
    forall i :: 0 <= i < |history| ==> (history[i].key == key <==> history[i].name == name)
  }

  lemma NamedIsLastChange(history: seq<Change>, name: Name, key: uint32, i: nat)
    requires KeyIsOwn(history, name, key)
    ensures LastNamed(history, name, i) <==> LastChange(history, key, i)
  {
  }

  lemma LatestByName(history: seq<Change>, name: Name, key: uint32, i: nat)
    requires KeyIsOwn(history, name, key) && LastNamed(history, name, i)
    ensures key in Replay(history).invokers <==> history[i].Register?
    ensures history[i].Register? ==> Replay(history).invokers[key] == history[i].handler
  {
    NamedIsLastChange(history, name, key, i);
    InvokersHoldTheLatest(history, key, i);
  }

  lemma OwnKey(history: seq<Change>, name: Name)
    requires WellKeyed(history)
    requires forall c :: c in history && Key(c.name) == Key(name) ==> c.name == name
    ensures KeyIsOwn(history, name, Key(name))
  {
  }

  /** Where no other name of the history hashes to the same key, the dispatcher finds under a
      name's key exactly what was last done to that name: its latest handler, or nothing. */
  lemma RoutingByName(history: seq<Change>, name: Name)
    requires WellKeyed(history)
    requires forall c :: c in history && Key(c.name) == Key(name) ==> c.name == name
    ensures forall i: nat :: LastNamed(history, name, i) ==>
      (Key(name) in Replay(history).invokers <==> history[i].Register?)
      && (history[i].Register? ==> Replay(history).invokers[Key(name)] == history[i].handler)
    ensures (forall c :: c in history ==> c.name != name) ==> Key(name) !in Replay(history).invokers
    ensures (exists c :: c in history && c.name == name) ==> exists i: nat :: LastNamed(history, name, i)
  {
    var key := Key(name);
    OwnKey(history, name);
    forall i: nat | LastNamed(history, name, i)
      ensures (key in Replay(history).invokers <==> history[i].Register?)
        && (history[i].Register? ==> Replay(history).invokers[key] == history[i].handler)
    {
      LatestByName(history, name, key, i);
    }
    if forall c :: c in history ==> c.name != name {
      UntouchedKeyIsAbsent(history, key);
    } else {
      var i := LastIndex(history, name);
    }
  }

  lemma {:induction false} LastIndex(history: seq<Change>, name: Name) returns (i: nat)
    requires exists c :: c in history && c.name == name
    ensures LastNamed(history, name, i)
  {
    var n := |history| - 1;
    if history[n].name == name {
      i := n;
    } else {
      var c :| c in history && c.name == name;
      assert c in history[..n] by {
        var k :| 0 <= k < |history| && history[k] == c;
        assert history[..n][k] == c;
      }
      i := LastIndex(history[..n], name);
      assert history[..n][i] == history[i];
    }
  }

  // Dispatch.

  const UNPACK_FAILED := "unpack failed:Args not match"
  const UNKNOWN := "unknown function:"
  const OUT_OF_RANGE := "the response result is out of range: more than 10M "

  /** `apply`: the result text and whether the reply is sent now. Every exception is turned
      into a synchronous failure. */
  function Invoke(h: Handler, run: Run): (seq<byte>, ExecMode) {
    match run
    case BadArguments => (PackStatus(FAIL, Ascii(UNPACK_FAILED)), Sync)
    case Throws(what) => (PackStatus(FAIL, what), Sync)
    case Returns(packed) => (packed, h.mode)
  }

  function NameByKey(t: Tables, key: uint32): Text {
    DecimalIsShort(key);
    if key in t.names then t.names[key] else Decimal(key)
  }

  /** The reply that `route` itself sends, if any. */
  function RouteReply(t: Tables, key: uint32, run: Run): Option<seq<byte>> {
    if key !in t.invokers then
      Some(PackStatus(FAIL, Ascii(UNKNOWN) + NameByKey(t, key)))
    else
      var (result, mode) := Invoke(t.invokers[key], run);
      if mode == Async then None
      else if |result| >= Framing.MAX_BUF_LEN then Some(PackStatus(FAIL, Ascii(OUT_OF_RANGE) + NameByKey(t, key)))
      else Some(result)
  }

  /** What the caller reads from a reply that reports a failure: the code 1 and the text. */
  predicate Fails(reply: seq<byte>, text: String) {
    reply == PackStatus(FAIL, text) && HasError(reply) == Some(true) && UnpackStatus(reply) == Some((1, text))
  }

  lemma PackedFailure(text: String)
    ensures Fails(PackStatus(FAIL, text), text)
  {
    UnpackPackStatus(FAIL, text);
  }

  /** The message in place of a result that is too long. */
  function TooLongText(name: Text): String {
    Ascii(OUT_OF_RANGE) + name
  }

  /** The reply says what happened: a missing function, arguments that do not unpack, an exception,
      a result that is too long, or else the result. */
  ghost predicate Explains(t: Tables, key: uint32, run: Run, reply: seq<byte>) {
    var name := NameByKey(t, key);
    if key !in t.invokers then Fails(reply, Ascii(UNKNOWN) + name)
    else
      match run
      case BadArguments => Fails(reply, Ascii(UNPACK_FAILED))
      case Throws(what) =>
        if |PackStr(what)| < Framing.MAX_BUF_LEN - 2 then Fails(reply, what) else Fails(reply, TooLongText(name))
      case Returns(packed) =>
        if |packed| < Framing.MAX_BUF_LEN then reply == packed else Fails(reply, TooLongText(name))
  }

  lemma RepliesExplain(t: Tables, key: uint32, run: Run)
    ensures RouteReply(t, key, run).Some? ==> Explains(t, key, run, RouteReply(t, key, run).value)
  {
    var name := NameByKey(t, key);
    PackedFailure(Ascii(UNKNOWN) + name);
    PackedFailure(Ascii(UNPACK_FAILED));
    PackedFailure(TooLongText(name));
    if run.Throws? {
      PackedFailure(run.what);
    }
  }

  /** An unknown function is always named by its decimal key, never by a stale name. */
  lemma UnknownIsNamedByKey(history: seq<Change>, key: uint32, run: Run)
    ensures key !in Replay(history).invokers ==>
      |Ascii(UNKNOWN) + Decimal(key)| <= 27 &&
      RouteReply(Replay(history), key, run) == Some(PackStatus(FAIL, Ascii(UNKNOWN) + Decimal(key)))
  {
    KeySetsAgree(history);
    DecimalIsShort(key);
  }

  ghost predicate Oversized(t: Tables, key: uint32, run: Run) {
    key in t.invokers && Invoke(t.invokers[key], run).1 == Sync
      && |Invoke(t.invokers[key], run).0| >= Framing.MAX_BUF_LEN
  }

  /** `response` asserts that a reply is shorter than MAX_BUF_LEN. It is, for every run of every
      handler, except when an oversized result meets a function name too long for the error
      message that replaces it. */
  lemma RepliesFit(t: Tables, key: uint32, run: Run)
    requires t.invokers.Keys == t.names.Keys
    ensures RouteReply(t, key, run).Some? ==>
      (|RouteReply(t, key, run).value| < Framing.MAX_BUF_LEN <==>
        !Oversized(t, key, run) || |t.names[key]| < Framing.MAX_BUF_LEN - 58)
  {
    DecimalIsShort(key);
  }

  class Router {
    var mapInvokers: map<uint32, Handler>
    var key2funcName: map<uint32, Name>
    ghost var history: seq<Change>

    ghost predicate Valid()
      reads this
    {
      State() == Replay(history) && WellKeyed(history)
    }

    function State(): Tables
      reads this
    {
      Tables(mapInvokers, key2funcName)
    }

    constructor ()
      ensures Valid() && history == []
    {
      mapInvokers, key2funcName, history := map[], map[], [];
    }

    method RegisterHandler(name: Name, handler: Handler)
      requires Valid()
      modifies this
      ensures Valid() && history == old(history) + [Register(Key(name), name, handler)]
    {
      var key := Key(name);
      if key !in key2funcName {
        key2funcName := key2funcName[key := name];
      }
      mapInvokers := mapInvokers[key := handler];
      history := history + [Register(key, name, handler)];
      assert history[..|history| - 1] == old(history);
    }

    method RemoveHandler(name: Name)
      requires Valid()
      modifies this
      ensures Valid() && history == old(history) + [Remove(Key(name), name)]
    {
      var key := Key(name);
      mapInvokers := mapInvokers - {key};
      key2funcName := key2funcName - {key};
      history := history + [Remove(key, name)];
      assert history[..|history| - 1] == old(history);
    }

    method GetNameByKey(key: uint32) returns (name: Text)
      requires Valid()
      ensures name == NameByKey(Replay(history), key)
    {
      if key in key2funcName {
        return key2funcName[key];
      }
      DecimalIsShort(key);
      return Decimal(key);
    }

    /** Dispatches request `reqId` of a connection that may have expired. `run` is what the found
        handler does with it, `sent` what `response` is called with: nothing for an expired
        connection or an asynchronous handler that returned, else exactly one reply. */
    method Route(key: uint32, reqId: uint64, expired: bool, run: Run) returns (sent: seq<(uint64, seq<byte>)>)
      requires Valid()
      ensures |sent| ==
        (if expired || (key in mapInvokers && run.Returns? && mapInvokers[key].mode == Async) then 0 else 1)
      ensures sent != [] ==> RouteReply(Replay(history), key, run) == Some(sent[0].1) && sent[0].0 == reqId
      ensures sent != [] ==> Explains(Replay(history), key, run, sent[0].1)
      ensures sent == [] && !expired ==> RouteReply(Replay(history), key, run) == None
    {
      RepliesExplain(Replay(history), key, run);
      sent := [];
      if expired {
        return;
      }
      if key !in mapInvokers {
        var name := GetNameByKey(key);
        sent := sent + [(reqId, PackStatus(FAIL, Ascii(UNKNOWN) + name))];
        return;
      }
      var (result, model) := Invoke(mapInvokers[key], run);
      if model == Sync {
        if |result| >= Framing.MAX_BUF_LEN {
          var name := GetNameByKey(key);
          result := PackStatus(FAIL, Ascii(OUT_OF_RANGE) + name);
        }
        sent := sent + [(reqId, result)];
      }
    }
  }
}

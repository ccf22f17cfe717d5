/** The client (include/rest_rpc/rpc_client.hpp) on one connection: the outbox with its
    asynchronous write, the two call maps, the read loop that completes calls, and the
    subscriptions. Each mutex-protected section and each completion handler is a method; what
    the network does between them is a parameter. */
module RpcClients {
  import opened Bytes
  import opened Calls
  import CallRules = Calls
  import opened Codec
  import opened Framing
  import opened Outboxes
  import Routers
  import WQ = WriteQueues

  /** The asynchronous read in progress, if any. */
  datatype Reading = NoRead | ReadHead | ReadBody(reqId: uint64, reqType: byte, size: uint32)

  /** The client's read after a header. It does not look at the magic number; it closes on an
      empty body; a length of exactly MAX_BUF_LEN leads nowhere. */
  function ReadAfter(h: RpcHeader): Reading {
    if 0 < h.bodyLen < MAX_BUF_LEN then ReadBody(h.reqId, h.reqType, h.bodyLen) else NoRead
  }

  /** The calls after `close`, which forgets them only if the client counts as connected. */
  function AfterClose(c: CallMaps, forgets: bool): CallMaps {
    if forgets then Forget(c) else c
  }

  /** The outbox after a `close` that clears it, or one that does not. */
  function Cleared(q: WQ.WriteQueue<Message>, clears: bool): WQ.WriteQueue<Message> {
    if clears then WQ.WriteQueue([], q.inFlight, false) else q
  }

  predicate ClosesOn(h: RpcHeader) {
    h.bodyLen == 0 || h.bodyLen > MAX_BUF_LEN
  }

  /** The three outcomes of a header by its length: the body is read, the client closes, or, for one
      length alone, nothing is done at all. */
  lemma HeaderOutcomes(h: RpcHeader)
    ensures ReadAfter(h).ReadBody? <==> 0 < h.bodyLen < 10485760
    ensures ClosesOn(h) <==> h.bodyLen == 0 || h.bodyLen > 10485760
    ensures ReadAfter(h) == NoRead && !ClosesOn(h) <==> h.bodyLen == 10485760
    ensures ReadAfter(h).ReadBody? ==> ReadAfter(h) == ReadBody(h.reqId, h.reqType, h.bodyLen)
  {
  }

  /** A subscription of this client: the pair kept for resending, under the composite key. */
  datatype Topic = Topic(key: String, token: String)

  function Composite(t: Topic): seq<byte> {
    t.key + t.token
  }

  /** The handlers are filed under exactly the composites of the pairs, each under its own. */
  ghost predicate Subscribed(subMap: map<seq<byte>, nat>, keyTokenSet: set<Topic>) {
    && (forall k :: k in subMap <==> exists t :: t in keyTokenSet && Composite(t) == k)
    && (forall t, u :: t in keyTokenSet && u in keyTokenSet && Composite(t) == Composite(u) ==> t == u)
    && AllSendable(keyTokenSet)
  }

  ghost predicate AllSendable(topics: set<Topic>) {
    forall t :: t in topics ==> Sendable(t)
  }

  /** The frame of one subscription. */
  function SubscribeMessage(t: Topic): Message {
    Message(0, SUB_PUB, PackPair(t.key, t.token), Routers.Key(t.key))
  }

  predicate Sendable(t: Topic) {
    |PackPair(t.key, t.token)| < MAX_BUF_LEN
  }

  /** Where the read loop stands, given how the bytes read so far parse. */
  ghost predicate ReaderAt(p: Parsed, reading: Reading, stopped: bool) {
    match reading
    case ReadHead => p.rest == []
    case ReadBody(reqId, reqType, size) =>
      && |p.rest| == HEAD_LEN
      && Cast(p.rest) == RpcHeader(MAGIC_NUM, reqType, size, reqId, Cast(p.rest).funcId)
    case NoRead => stopped
  }

  /** While the server sends frames, what the loop has received is what they parse as. */
  ghost predicate Reads(consumed: seq<byte>, received: seq<Message>, reading: Reading, stopped: bool) {
    forall p :: ParsesAs(consumed, p) && p.end == Open ==>
      SameContents(received, p.messages) && ReaderAt(p, reading, stopped)
  }

  /** The client ignores a frame's function id. */
  ghost predicate SameContents(received: seq<Message>, sent: seq<Message>) {
    && |received| == |sent|
    && forall i :: 0 <= i < |sent| ==> received[i] == sent[i].(funcId := 0)
  }

  lemma HeaderStands(consumed: seq<byte>, received: seq<Message>, data: seq<byte>, stopped: bool)
    requires Reads(consumed, received, ReadHead, false) && |data| == HEAD_LEN
    requires ClosesOn(Cast(data)) ==> stopped
    ensures Reads(consumed + data, received, ReadAfter(Cast(data)), stopped)
  {
    assert ParsesAs(consumed, Parse(consumed));
    if Parse(consumed).end == Open {
      HeaderAfter(consumed, data);
    } else {
      ParseResumes(consumed, data);
    }
  }

  lemma BodyStands(consumed: seq<byte>, received: seq<Message>, reading: Reading, data: seq<byte>, next: Reading,
                   stopped: bool)
    requires reading.ReadBody? && Reads(consumed, received, reading, false)
    requires 0 < |data| == reading.size < MAX_BUF_LEN && !next.ReadBody? && (next.NoRead? ==> stopped)
    ensures Reads(consumed + data, received + [Message(reading.reqId, reading.reqType, data, 0)], next, stopped)
  {
    assert ParsesAs(consumed, Parse(consumed));
    if Parse(consumed).end == Open {
      BodyAfter(consumed, data);
    } else {
      ParseResumes(consumed, data);
    }
  }

  lemma NewTopic(subMap: map<seq<byte>, nat>, topics: set<Topic>, t: Topic, handler: nat)
    requires Subscribed(subMap, topics) && Sendable(t) && Composite(t) !in subMap
    ensures Subscribed(subMap[Composite(t) := handler], topics + {t})
  {
    var after := subMap[Composite(t) := handler];
    forall k | k in after
      ensures exists u :: u in topics + {t} && Composite(u) == k
    {
      if k == Composite(t) {
        assert t in topics + {t};
      } else {
        var u :| u in topics && Composite(u) == k;
        assert u in topics + {t};
      }
    }
  }

  /** The topics in the order of a resending loop: each once. */
  ghost predicate Enumerates(order: seq<Topic>, topics: set<Topic>) {
    && (forall t :: t in order <==> t in topics)
    && forall i, j :: 0 <= i < j < |order| ==> order[i] != order[j]
  }

  function PushAll(q: WQ.WriteQueue<Message>, topics: seq<Topic>): WQ.WriteQueue<Message> {
    if topics == [] then q
    else WQ.Push(PushAll(q, topics[..|topics| - 1]), SubscribeMessage(topics[|topics| - 1]))
  }

  ghost predicate OnlyAt(order: seq<Topic>, key: seq<byte>, i: int) {
    forall j :: 0 <= j < |order| ==> (Composite(order[j]) == key <==> j == i)
  }

  /** One turn of the resending loop. */
  lemma OneMore(order: seq<Topic>, topics: set<Topic>, todo: set<Topic>, t: Topic, q: WQ.WriteQueue<Message>)
    requires Enumerates(order, topics - todo) && t in todo && todo <= topics
    ensures Enumerates(order + [t], topics - (todo - {t}))
    ensures PushAll(q, order + [t]) == WQ.Push(PushAll(q, order), SubscribeMessage(t))
  {
    assert (order + [t])[..|order|] == order;
  }

  /** Resending queues exactly one frame per handler. */
  lemma OneFramePerHandler(subMap: map<seq<byte>, nat>, topics: set<Topic>, order: seq<Topic>, key: seq<byte>)
    requires Subscribed(subMap, topics) && Enumerates(order, topics) && key in subMap
    ensures exists i :: 0 <= i < |order| && OnlyAt(order, key, i)
  {
    var t :| t in topics && Composite(t) == key;
    var i :| 0 <= i < |order| && order[i] == t;
    forall j | 0 <= j < |order|
      ensures Composite(order[j]) == key <==> j == i
    {
      assert order[j] in topics;
    }
    assert OnlyAt(order, key, i);
  }

  class RpcClient {
    const box: Outbox
    // Calls.
    var fuId: uint64
    var callbackId: uint64
    var futureMap: map<uint64, nat>
    var callbackMap: map<uint64, CallT>
    ghost var completions: seq<Completion>
    // The connection and its read loop.
    var hasConnected: bool
    var socketOpen: bool
    var head: seq<byte>
    var body: seq<byte>
    var reading: Reading
    // Subscriptions: handlers by composite key, and the pairs to send again.
    var subMap: map<seq<byte>, nat>
    var keyTokenSet: set<Topic>
    // Bytes of completed reads, the frames they held, what subscription handlers were given,
    // and whether an assertion has failed.
    ghost var consumed: seq<byte>
    ghost var received: seq<Message>
    ghost var handed: seq<(nat, seq<byte>)>
    ghost var aborted: bool

    function Calls(): CallMaps
      reads this`fuId, this`callbackId, this`futureMap, this`callbackMap
    {
      CallMaps(fuId, callbackId, futureMap, callbackMap)
    }

    constructor ()
      ensures fresh(box) && box.Valid() && box.Value() == WQ.Idle() && !box.cleared
      ensures Calls() == NO_CALLS && completions == []
      ensures Subscribed(subMap, keyTokenSet) && subMap == map[]
      ensures ReaderValid() && !hasConnected && reading == NoRead && consumed == [] && !aborted
    {
      box := new Outbox();
      fuId, callbackId, futureMap, callbackMap, completions := 0, 0, map[], map[], [];
      hasConnected, socketOpen, reading := false, false, NoRead;
      head, body := seq(HEAD_LEN, _ => 0), seq(INIT_BUF_SIZE, _ => 0);
      subMap, keyTokenSet := map[], {};
      consumed, received, handed, aborted := [], [], [], false;
    }

    /** Completion of a write. After a failed one `close` does nothing, because of the first
        assignment: the queue and the calls stay. */
    method OnWrite(failed: bool, k: nat, gap1: seq<byte>, gap2: seq<byte>)
      requires box.Valid() && k < box.inFlight && |gap1| == 2 && |gap2| == 4
      requires !failed && !box.cleared ==> box.writer.sent == HEAD_LEN + box.writeSize
      modifies box, this`futureMap, this`callbackMap, this`hasConnected, this`socketOpen
      ensures box.Valid() && Calls() == old(Calls()) && socketOpen == old(socketOpen)
      ensures hasConnected == (old(hasConnected) && !failed)
      ensures box.Value() == if failed then WQ.Stop(old(box.Value())) else WQ.Complete(old(box.Value()))
      ensures failed ==> box.freed == old(box.freed)
    {
      if failed {
        box.OnWriteError(k);
        hasConnected := false;
        Close();
      } else {
        box.OnWrite(k, gap1, gap2);
      }
    }

    method Close()
      requires box.Valid()
      modifies box, this`futureMap, this`callbackMap, this`hasConnected, this`socketOpen
      ensures box.Valid() && !hasConnected && Calls() == AfterClose(old(Calls()), old(hasConnected))
      ensures old(hasConnected) ==>
        (!socketOpen && box.cleared && box.Value() == WQ.Clear(old(box.Value()))
          && box.freed == old(box.freed) + Bufs(old(box.outbox)))
      ensures !old(hasConnected) ==> socketOpen == old(socketOpen) && unchanged(box)
    {
      if !hasConnected {
        return;
      }
      hasConnected := false;
      socketOpen := false;
      ClearCache();
    }

    /** Frees every queued buffer and forgets every call. */
    method ClearCache()
      requires box.Valid()
      modifies box, this`futureMap, this`callbackMap
      ensures box.Valid() && box.cleared && Calls() == Forget(old(Calls()))
      ensures futureMap == map[] && callbackMap == map[] && fuId == old(fuId) && callbackId == old(callbackId)
      ensures box.Value() == WQ.Clear(old(box.Value())) && box.freed == old(box.freed) + Bufs(old(box.outbox))
    {
      box.Clear();
      callbackMap := map[];
      futureMap := map[];
    }

    // Calls.

    /** The locked section of a call that returns a future. */
    method ParkFuture(call: nat) returns (id: uint64)
      modifies this`fuId, this`futureMap
      ensures Calls() == AddFuture(old(Calls()), call) && id == NextFutureId(old(fuId))
    {
      fuId := (fuId + 1) % TWO_64;
      id := fuId;
      if id !in futureMap {
        futureMap := futureMap[id := call];
      }
    }

    /** The locked section of a call that takes a callback. */
    method ParkCallback(call: nat) returns (id: uint64)
      modifies this`callbackId, this`callbackMap
      ensures Calls() == AddCallback(old(Calls()), call) && id == NextCallbackId(old(callbackId))
    {
      callbackId := (callbackId + 1) % TWO_64;
      callbackId := SetTopBit(callbackId);
      id := callbackId;
      if id !in callbackMap {
        callbackMap := callbackMap[id := CallT(call, false)];
      }
    }

    /** The call's timer fires: the parked object is shared with the timer. */
    method TimerFires(id: uint64)
      requires id in callbackMap
      modifies this`callbackMap
      ensures Calls() == CallRules.TimerFires(old(Calls()), id)
    {
      callbackMap := callbackMap[id := callbackMap[id].(hasTimeout := true)];
    }

    /** A call that returns a future. */
    method AsyncCallFuture(call: nat, rpcName: seq<byte>, args: seq<byte>, gap1: seq<byte>, gap2: seq<byte>)
      returns (id: uint64)
      requires box.Valid() && |args| < MAX_BUF_LEN && |gap1| == 2 && |gap2| == 4
      modifies this`fuId, this`futureMap, box
      ensures box.Valid() && Calls() == AddFuture(old(Calls()), call) && id == NextFutureId(old(fuId))
      ensures box.Value() == WQ.Push(old(box.Value()), Message(id, REQ_RES, args, Routers.Key(rpcName)))
    {
      id := ParkFuture(call);
      box.Write(id, REQ_RES, args, Routers.Key(rpcName), gap1, gap2);
    }

    /** A call that takes a callback; without a connection the callback is invoked at once. */
    method AsyncCallCallback(call: nat, rpcName: seq<byte>, args: seq<byte>, gap1: seq<byte>, gap2: seq<byte>)
      requires box.Valid() && |args| < MAX_BUF_LEN && |gap1| == 2 && |gap2| == 4
      modifies this`callbackId, this`callbackMap, this`completions, box
      ensures box.Valid()
      ensures if hasConnected
        then (Calls() == AddCallback(old(Calls()), call) && completions == old(completions)
              && box.Value() == WQ.Push(old(box.Value()), Message(callbackId, REQ_RES, args, Routers.Key(rpcName))))
        else (Calls() == old(Calls()) && box.Value() == old(box.Value())
              && completions == old(completions) + [Completion(call, NotConnected, Routers.Ascii("not connected"))])
    {
      if !hasConnected {
        completions := completions + [Completion(call, NotConnected, Routers.Ascii("not connected"))];
        return;
      }
      var id := ParkCallback(call);
      box.Write(id, REQ_RES, args, Routers.Key(rpcName), gap1, gap2);
    }

    /** Completes the call waiting under an id; false if the assertion fails. */
    method CallBack(reqId: uint64, ec: ErrorCode, data: seq<byte>) returns (ok: bool)
      modifies this`futureMap, this`callbackMap, this`completions
      ensures var r := CallRules.CallBack(old(Calls()), reqId, ec, data);
        if r.Completes? then ok && Calls() == r.calls && completions == old(completions) + [r.completion]
        else !ok && Calls() == old(Calls()) && completions == old(completions)
    {
      if reqId / TWO_63 != 0 {
        if reqId !in callbackMap {
          return false;
        }
        var cl := callbackMap[reqId];
        if !cl.hasTimeout {
          completions := completions + [Completion(cl.call, ec, data)];
        } else {
          completions := completions + [Completion(cl.call, TimedOut, [])];
        }
        callbackMap := callbackMap - {reqId};
      } else {
        if ec != NoError {
          if reqId in futureMap {
            completions := completions + [Completion(futureMap[reqId], ec, [])];
            futureMap := futureMap - {reqId};
            return true;
          }
        }
        if reqId !in futureMap {
          return false;
        }
        completions := completions + [Completion(futureMap[reqId], ec, data)];
        futureMap := futureMap - {reqId};
      }
      ok := true;
    }

    /** Invokes every parked callback with the read error, and leaves it parked. */
    method FailCallbacks() returns (ghost ids: seq<uint64>)
      modifies this`completions
      ensures old(completions) <= completions
      ensures FailsAll(callbackMap, ids, completions[|old(completions)|..])
    {
      var todo := callbackMap.Keys;
      ids := [];
      ghost var made: seq<Completion> := [];
      while todo != {}
        invariant todo <= callbackMap.Keys
        invariant forall id :: id in callbackMap <==> id in todo || id in ids
        invariant forall id :: id in ids ==> id !in todo
        invariant forall i, j :: 0 <= i < j < |ids| ==> ids[i] != ids[j]
        invariant |made| == |ids| && completions == old(completions) + made
        invariant forall i :: 0 <= i < |ids| ==>
          ids[i] in callbackMap && made[i] == Completion(callbackMap[ids[i]].call, ReadError, [])
        decreases todo
      {
        var id :| id in todo;
        todo := todo - {id};
        completions := completions + [Completion(callbackMap[id].call, ReadError, [])];
        ids := ids + [id];
        made := made + [Completion(callbackMap[id].call, ReadError, [])];
      }
    }

    // The read loop.

    ghost predicate ReaderValid()
      reads this`body, this`reading, this`hasConnected, this`socketOpen, this`consumed, this`received, this`aborted
    {
      && (hasConnected ==> socketOpen)
      && (reading.ReadBody? ==> 0 < reading.size < MAX_BUF_LEN && reading.size <= |body|)
      && Reads(consumed, received, reading, !hasConnected || aborted)
    }

    /** With a server that sends frames, a connected client whose assertions hold always has one
        read outstanding, and has received, in order, a prefix of the frames with a body. */
    lemma ConformingServer(fs: seq<Frame>)
      requires ReaderValid() && (forall f :: f in fs ==> WellFormed(f)) && consumed <= WireBytes(fs)
      ensures hasConnected && !aborted ==> reading != NoRead
      ensures |received| <= |Delivered(fs)| && SameContents(received, Delivered(fs)[..|received|])
    {
      assert WireBytes(fs)[..|consumed|] == consumed;
      PrefixDelivers(fs, |consumed|);
      assert ParsesAs(consumed, Parse(consumed));
    }

    /** The socket connects. */
    method OnConnected(gap1: seq<byte>, gap2: seq<byte>) returns (ghost order: seq<Topic>)
      requires box.Valid() && ReaderValid() && Subscribed(subMap, keyTokenSet)
      requires !hasConnected && reading == NoRead && consumed == [] && |gap1| == 2 && |gap2| == 4
      modifies this`hasConnected, this`socketOpen, this`reading, box
      ensures box.Valid() && ReaderValid() && hasConnected && socketOpen && reading == ReadHead
      ensures Enumerates(order, keyTokenSet) && box.Value() == PushAll(old(box.Value()), order)
    {
      hasConnected, socketOpen := true, true;
      reading := ReadHead;
      order := ResendSubscribe(gap1, gap2);
    }

    /** Completion of a head read, with the 24 bytes read. */
    method OnHead(failed: bool, data: seq<byte>) returns (ghost ids: seq<uint64>)
      requires box.Valid() && ReaderValid() && reading == ReadHead && |data| == HEAD_LEN
      modifies this`head, this`body, this`reading, this`consumed, this`hasConnected, this`socketOpen, box,
        this`futureMap, this`callbackMap, this`completions
      ensures box.Valid() && ReaderValid()
      ensures hasConnected ==> old(hasConnected) && !failed
      ensures !old(socketOpen) ==> reading == NoRead && Calls() == old(Calls()) && completions == old(completions)
      ensures old(socketOpen) && failed ==> reading == NoRead && Calls() == AfterClose(old(Calls()), old(hasConnected))
      ensures old(socketOpen) && failed ==> old(completions) <= completions
      ensures old(socketOpen) && failed ==> FailsAll(old(callbackMap), ids, completions[|old(completions)|..])
      ensures old(socketOpen) && !failed ==> reading == ReadAfter(Cast(data)) && consumed == old(consumed) + data
      ensures old(socketOpen) && !failed ==> completions == old(completions)
      ensures old(socketOpen) && !failed ==>
        Calls() == AfterClose(old(Calls()), ClosesOn(Cast(data)) && old(hasConnected))
      ensures old(socketOpen) && !failed ==> (hasConnected <==> old(hasConnected) && !ClosesOn(Cast(data)))
      ensures box.Value() ==
        Cleared(old(box.Value()), old(hasConnected && socketOpen) && (failed || ClosesOn(Cast(data))))
    {
      ids := [];
      reading := NoRead;
      if !socketOpen {
        hasConnected := false;
        return;
      }
      if failed {
        ids := FailCallbacks();
        Close();
      } else {
        HandleHeader(data);
      }
    }

    /** The error-free part of the head handler. */
    method HandleHeader(data: seq<byte>)
      requires box.Valid() && reading == NoRead && |data| == HEAD_LEN
      requires Reads(consumed, received, ReadHead, false) && (hasConnected ==> socketOpen)
      modifies this`head, this`body, this`reading, this`consumed, this`hasConnected, this`socketOpen, box,
        this`futureMap, this`callbackMap
      ensures box.Valid() && ReaderValid()
      ensures reading == ReadAfter(Cast(data)) && consumed == old(consumed) + data
      ensures Calls() == AfterClose(old(Calls()), ClosesOn(Cast(data)) && old(hasConnected))
      ensures hasConnected <==> old(hasConnected) && !ClosesOn(Cast(data))
      ensures box.Value() == Cleared(old(box.Value()), ClosesOn(Cast(data)) && old(hasConnected))
    {
      HeaderStands(consumed, received, data, ClosesOn(Cast(data)) || !hasConnected || aborted);
      consumed := consumed + data;
      head := data;
      ActOnHeader(Cast(head));
    }

    /** What a header leads to: a body read, a close, or nothing. */
    method ActOnHeader(h: RpcHeader)
      requires box.Valid() && reading == NoRead && (hasConnected ==> socketOpen)
      modifies this`body, this`reading, this`hasConnected, this`socketOpen, box, this`futureMap, this`callbackMap
      ensures box.Valid() && (hasConnected ==> socketOpen) && reading == ReadAfter(h)
      ensures reading.ReadBody? ==> reading.size <= |body|
      ensures Calls() == AfterClose(old(Calls()), ClosesOn(h) && old(hasConnected))
      ensures hasConnected <==> old(hasConnected) && !ClosesOn(h)
      ensures box.Value() == Cleared(old(box.Value()), ClosesOn(h) && old(hasConnected))
    {
      var bodyLen := h.bodyLen;
      if bodyLen > 0 && bodyLen < MAX_BUF_LEN {
        if |body| < bodyLen {
          body := body + seq(bodyLen - |body|, _ => 0);
        }
        reading := ReadBody(h.reqId, h.reqType, bodyLen);
        return;
      }
      if bodyLen == 0 || bodyLen > MAX_BUF_LEN {
        Close();
      }
    }

    /** Completion of a body read. */
    method OnBody(failed: bool, data: seq<byte>) returns (ok: bool)
      requires box.Valid() && ReaderValid() && reading.ReadBody? && |data| == reading.size && !aborted
      modifies this`body, this`reading, this`consumed, this`received, this`handed, this`aborted, this`hasConnected,
        this`socketOpen, box, this`futureMap, this`callbackMap, this`completions
      ensures box.Valid() && ReaderValid() && aborted == !ok
      ensures old(socketOpen) && !failed ==> consumed == old(consumed) + data
      ensures old(socketOpen) && !failed ==>
        received == old(received) + [Message(old(reading.reqId), old(reading.reqType), data, 0)]
      ensures (!old(socketOpen) || failed || old(reading.reqType) == REQ_RES) ==>
        (var ec := if !old(socketOpen) then Aborted else if failed then ReadError else NoError;
         var r := CallRules.CallBack(old(Calls()), old(reading.reqId), ec, if ec == NoError then data else []);
         && (ok <==> r.Completes?)
         && (ok ==> Calls() == r.calls && completions == old(completions) + [r.completion])
         && (reading == if ok && ec == NoError then ReadHead else NoRead))
      ensures old(socketOpen) && !failed && old(reading.reqType) != REQ_RES ==> ok && completions == old(completions)
      ensures old(socketOpen) && !failed && old(reading.reqType) <= SUB_PUB ==> hasConnected == old(hasConnected)
      ensures !old(socketOpen) || failed || old(reading.reqType) != SUB_PUB ==> handed == old(handed)
      ensures !old(socketOpen) || failed ==> !hasConnected
      ensures box.Value() == Cleared(old(box.Value()),
        old(hasConnected && socketOpen && reading.reqType > SUB_PUB) && !failed)
      ensures old(socketOpen) && !failed && old(reading.reqType) == SUB_PUB ==>
        (reading == ReadHead && Calls() == old(Calls()) && handed == old(handed) + Handed(subMap, data))
      ensures old(socketOpen) && !failed && old(reading.reqType) > SUB_PUB ==>
        (reading == NoRead && !hasConnected && Calls() == AfterClose(old(Calls()), old(hasConnected)))
    {
      if !socketOpen {
        ok := AbortBody();
      } else if failed {
        ok := FailBody();
      } else {
        ok := HandleBody(data);
      }
    }

    /** The error-free part of the body handler. */
    method HandleBody(data: seq<byte>) returns (ok: bool)
      requires box.Valid() && ReaderValid() && reading.ReadBody? && |data| == reading.size && !aborted
      modifies this`body, this`reading, this`consumed, this`received, this`handed, this`aborted, this`hasConnected,
        this`socketOpen, box, this`futureMap, this`callbackMap, this`completions
      ensures box.Valid() && ReaderValid() && aborted == !ok
      ensures consumed == old(consumed) + data
      ensures received == old(received) + [Message(old(reading.reqId), old(reading.reqType), data, 0)]
      ensures reading == if ok && old(reading.reqType) <= SUB_PUB then ReadHead else NoRead
      ensures old(reading.reqType) == REQ_RES ==>
        (var r := CallRules.CallBack(old(Calls()), old(reading.reqId), NoError, data);
         && (ok <==> r.Completes?)
         && (ok ==> Calls() == r.calls && completions == old(completions) + [r.completion]))
      ensures old(reading.reqType) != REQ_RES ==> ok && completions == old(completions)
      ensures old(reading.reqType) <= SUB_PUB ==> hasConnected == old(hasConnected)
      ensures old(reading.reqType) != SUB_PUB ==> handed == old(handed)
      ensures old(reading.reqType) == SUB_PUB ==>
        Calls() == old(Calls()) && handed == old(handed) + Handed(subMap, data)
      ensures old(reading.reqType) > SUB_PUB ==> !hasConnected && Calls() == AfterClose(old(Calls()), old(hasConnected))
      ensures box.Value() == Cleared(old(box.Value()), old(hasConnected && reading.reqType > SUB_PUB))
    {
      var reqId, reqType, size := reading.reqId, reading.reqType, reading.size;
      body := data + body[size..];
      assert body[..size] == data;
      ok := Dispatch(reqId, reqType, body[..size]);
      NextRead(data, ok);
    }

    /** Reads the next header unless the loop has ended. */
    method NextRead(data: seq<byte>, ok: bool)
      requires reading.ReadBody? && 0 < |data| == reading.size < MAX_BUF_LEN
      requires Reads(consumed, received, reading, false) && (ok && reading.reqType > SUB_PUB ==> !hasConnected)
      modifies this`reading, this`consumed, this`received, this`aborted
      ensures reading == if ok && old(reading.reqType) <= SUB_PUB then ReadHead else NoRead
      ensures consumed == old(consumed) + data
      ensures received == old(received) + [Message(old(reading.reqId), old(reading.reqType), data, 0)]
      ensures aborted == !ok && Reads(consumed, received, reading, !hasConnected || aborted)
    {
      var next := if ok && reading.reqType <= SUB_PUB then ReadHead else NoRead;
      BodyStands(consumed, received, reading, data, next, !hasConnected || !ok);
      consumed, received := consumed + data, received + [Message(reading.reqId, reading.reqType, data, 0)];
      reading, aborted := next, !ok;
    }

    /** What a frame leads to, by its type. */
    method Dispatch(reqId: uint64, reqType: byte, content: seq<byte>) returns (ok: bool)
      requires box.Valid() && (hasConnected ==> socketOpen)
      modifies this`handed, this`hasConnected, this`socketOpen, box, this`futureMap, this`callbackMap, this`completions
      ensures box.Valid() && (hasConnected ==> socketOpen)
      ensures reqType == REQ_RES ==>
        (var r := CallRules.CallBack(old(Calls()), reqId, NoError, content);
         && (ok <==> r.Completes?)
         && (ok ==> Calls() == r.calls && completions == old(completions) + [r.completion]))
      ensures reqType != REQ_RES ==> ok && completions == old(completions)
      ensures reqType != SUB_PUB ==> handed == old(handed)
      ensures reqType == SUB_PUB ==> Calls() == old(Calls()) && handed == old(handed) + Handed(subMap, content)
      ensures reqType > SUB_PUB ==> !hasConnected && Calls() == AfterClose(old(Calls()), old(hasConnected))
      ensures reqType <= SUB_PUB ==> hasConnected == old(hasConnected)
      ensures box.Value() == Cleared(old(box.Value()), reqType > SUB_PUB && old(hasConnected))
    {
      ok := true;
      if reqType == REQ_RES {
        ok := CallBack(reqId, NoError, content);
      } else if reqType == SUB_PUB {
        CallbackSub(content);
      } else {
        Close();
      }
    }

    /** A body read that found the socket closed. */
    method AbortBody() returns (ok: bool)
      requires ReaderValid() && reading.ReadBody? && !aborted && !socketOpen
      modifies this`reading, this`aborted, this`futureMap, this`callbackMap, this`completions
      ensures ReaderValid() && aborted == !ok && reading == NoRead
      ensures var r := CallRules.CallBack(old(Calls()), old(reading.reqId), Aborted, []);
        && (ok <==> r.Completes?)
        && (ok ==> Calls() == r.calls && completions == old(completions) + [r.completion])
    {
      ok := CallBack(reading.reqId, Aborted, []);
      StopLoop(!ok);
    }

    /** A body read that failed. `close` does nothing, because of the first assignment. */
    method FailBody() returns (ok: bool)
      requires box.Valid() && ReaderValid() && reading.ReadBody? && !aborted
      modifies this`reading, this`aborted, this`hasConnected, this`socketOpen, box, this`futureMap,
               this`callbackMap, this`completions
      ensures box.Valid() && ReaderValid() && aborted == !ok && reading == NoRead && !hasConnected
      ensures var r := CallRules.CallBack(old(Calls()), old(reading.reqId), ReadError, []);
        && (ok <==> r.Completes?)
        && (ok ==> Calls() == r.calls && completions == old(completions) + [r.completion])
      ensures box.Value() == old(box.Value())
    {
      hasConnected := false;
      ok := CallBack(reading.reqId, ReadError, []);
      StopLoop(!ok);
      if ok {
        Close();
      }
    }

    method StopLoop(asserted: bool)
      requires !hasConnected && reading.ReadBody? && Reads(consumed, received, reading, false)
      modifies this`reading, this`aborted
      ensures reading == NoRead && aborted == asserted && Reads(consumed, received, reading, true)
    {
      reading, aborted := NoRead, asserted;
    }

    // Subscriptions.

    method SendSubscribe(t: Topic, gap1: seq<byte>, gap2: seq<byte>)
      requires box.Valid() && Sendable(t) && |gap1| == 2 && |gap2| == 4
      modifies box
      ensures box.Valid() && box.Value() == WQ.Push(old(box.Value()), SubscribeMessage(t))
    {
      box.Write(0, SUB_PUB, PackPair(t.key, t.token), Routers.Key(t.key), gap1, gap2);
    }

    /** A second subscription under the same composite key is dropped, whatever its parts. */
    method Subscribe(key: String, token: String, handler: nat, gap1: seq<byte>, gap2: seq<byte>)
      requires box.Valid() && Subscribed(subMap, keyTokenSet) && Sendable(Topic(key, token))
      requires |gap1| == 2 && |gap2| == 4
      modifies this`subMap, this`keyTokenSet, box
      ensures box.Valid() && Subscribed(subMap, keyTokenSet)
      ensures if key + token in old(subMap)
        then (subMap == old(subMap) && keyTokenSet == old(keyTokenSet) && box.Value() == old(box.Value()))
        else (subMap == old(subMap)[key + token := handler] && keyTokenSet == old(keyTokenSet) + {Topic(key, token)}
              && box.Value() == WQ.Push(old(box.Value()), SubscribeMessage(Topic(key, token))))
    {
      var compositeKey := key + token;
      if compositeKey in subMap {
        return;
      }
      NewTopic(subMap, keyTokenSet, Topic(key, token), handler);
      subMap := subMap[compositeKey := handler];
      SendSubscribe(Topic(key, token), gap1, gap2);
      keyTokenSet := keyTokenSet + {Topic(key, token)};
    }

    /** Queues the frame of every pair, in the set's order. */
    method ResendSubscribe(gap1: seq<byte>, gap2: seq<byte>) returns (ghost order: seq<Topic>)
      requires box.Valid() && AllSendable(keyTokenSet) && |gap1| == 2 && |gap2| == 4
      modifies box
      ensures box.Valid() && Enumerates(order, keyTokenSet) && box.Value() == PushAll(old(box.Value()), order)
    {
      order := [];
      var todo := keyTokenSet;
      ghost var q := box.Value();
      while todo != {}
        invariant box.Valid() && todo <= keyTokenSet
        invariant Enumerates(order, keyTokenSet - todo)
        invariant box.Value() == PushAll(q, order)
        decreases todo
      {
        var t :| t in todo;
        OneMore(order, keyTokenSet, todo, t, q);
        todo := todo - {t};
        order := order + [t];
        SendSubscribe(t, gap1, gap2);
      }
      assert keyTokenSet - {} == keyTokenSet;
    }

    /** Hands a publication to its handler, if it unpacks and there is one. */
    method CallbackSub(result: seq<byte>)
      modifies this`handed
      ensures handed == old(handed) + Handed(subMap, result)
    {
      match UnpackPublication(result) {
        case None =>
        case Some((key, data)) =>
          if key in subMap {
            handed := handed + [(subMap[key], data)];
          }
      }
    }
  }

  /** What a publication hands to which handler. */
  function Handed(subMap: map<seq<byte>, nat>, result: seq<byte>): seq<(nat, seq<byte>)> {
    match UnpackPublication(result)
    case None => []
    case Some((key, data)) => if key in subMap then [(subMap[key], data)] else []
  }
}

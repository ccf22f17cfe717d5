/** The way back, from the server's reply queue to the client's read loop. The client acts on a
    header before the frame's body is sent, so the system may be one packet ahead of the bytes:
    the one the client is reading. */
module ReplyRefinement {
  import opened Bytes
  import opened Calls
  import opened Codec
  import opened Framing
  import opened Protocol
  import opened WriteQueues
  import opened Wires
  import opened Refinement
  import W = Writers
  import System = RpcSystem
  import Client = RpcClients

  /** The packet that the system has sent and the bytes have not, if any. */
  function Early(q: WriteQueue<Packet>, w: W.Writer, queue: seq<Message>): seq<Message>
    requires WellFormed(w.current)
  {
    if q.sent && queue != [] && Front(w, queue) == [] then [queue[0]] else []
  }

  /** The client's loop stands where the bytes it has read put it. */
  ghost predicate ReadsOn(reading: Option<Packet>, consumed: seq<byte>) {
    var rest := Parse(consumed).rest;
    match reading
    case None => rest == []
    case Some(p) => |rest| == HEAD_LEN && 0 < |p.m.content| < MAX_BUF_LEN && HeaderOf(p.m) == Cast(rest)
  }

  /** The system's queue is the sender's; the packet being read and those on the wire are the frames
      in transit and the early one, which can only be the packet being read. */
  ghost predicate LinkedBack(q: WriteQueue<Packet>, wire: seq<Packet>, reading: Option<Packet>,
                             w: W.Writer, queue: seq<Message>, consumed: seq<byte>)
  {
    && W.Describes(w, queue) && consumed <= w.wire && Contents(q.queue) == queue
    && (Front(w, queue) != [] ==> q.sent) && (q.sent ==> queue != [])
    && Contents(System.Held(reading) + wire) == Transit(w.wire, consumed) + Early(q, w, queue)
    && (Early(q, w, queue) != [] ==> reading.Some? && wire == [])
    && ReadsOn(reading, consumed)
  }

  // The server's queue.

  lemma PushLinks(q: WriteQueue<Packet>, wire: seq<Packet>, reading: Option<Packet>,
                  w: W.Writer, queue: seq<Message>, consumed: seq<byte>, p: Packet, f: Frame)
    requires LinkedBack(q, wire, reading, w, queue, consumed)
    requires |p.m.content| < MAX_BUF_LEN && WellFormed(f) && f.m == p.m
    ensures var v := W.Enqueue(w, p.m);
      LinkedBack(Push(q, p), wire, reading, if queue == [] then W.Begin(v, f) else v, queue + [p.m], consumed)
  {
    if queue == [] {
      PushBegins(q, wire, reading, w, consumed, p, f);
    } else {
      W.BehindFront(w, queue, p.m);
      SameFront(w, W.Enqueue(w, p.m), queue, p.m);
      assert Contents(Push(q, p).queue) == queue + [p.m];
    }
  }

  lemma PushBegins(q: WriteQueue<Packet>, wire: seq<Packet>, reading: Option<Packet>,
                   w: W.Writer, consumed: seq<byte>, p: Packet, f: Frame)
    requires LinkedBack(q, wire, reading, w, [], consumed)
    requires |p.m.content| < MAX_BUF_LEN && WellFormed(f) && f.m == p.m
    ensures LinkedBack(Push(q, p), wire, reading, W.Begin(W.Enqueue(w, p.m), f), [p.m], consumed)
  {
    W.IntoEmpty(w, f);
    NothingSent(q, p, W.Begin(W.Enqueue(w, p.m), f));
    assert Contents(Push(q, p).queue) == [p.m];
  }

  lemma NothingSent(q: WriteQueue<Packet>, p: Packet, v: W.Writer)
    requires WellFormed(v.current) && v.sent == 0 && q.queue == []
    ensures Front(v, [p.m]) == [] && Early(Push(q, p), v, [p.m]) == []
  {
  }

  lemma SameFront(w: W.Writer, v: W.Writer, queue: seq<Message>, m: Message)
    requires WellFormed(w.current) && v.current == w.current && v.sent == w.sent && queue != []
    ensures Front(v, queue + [m]) == Front(w, queue)
  {
  }

  /** Bytes leaving: the last one of a frame sends it in the system, unless it has been sent. */
  lemma BytesLink(q: WriteQueue<Packet>, wire: seq<Packet>, reading: Option<Packet>,
                  w: W.Writer, queue: seq<Message>, consumed: seq<byte>, k: nat)
    requires LinkedBack(q, wire, reading, w, queue, consumed) && queue != []
    requires w.sent + k <= |FrameBytes(w.current)|
    ensures var v := W.Transmit(w, k);
      if !q.sent && v.sent == |FrameBytes(w.current)|
      then LinkedBack(Send(q), wire + [q.queue[0]], reading, v, queue, consumed)
      else LinkedBack(q, wire, reading, v, queue, consumed)
  {
    var v := W.Transmit(w, k);
    SendingBrings(w, queue, consumed, k);
    if !q.sent && v.sent == |FrameBytes(w.current)| {
      assert Wires.Completed(w, queue, k) == [queue[0]];
      OneMore(wire, reading, q.queue[0]);
    } else {
      StillAhead(q, w, v, queue, k);
      Regroup(Transit(w.wire, consumed), Wires.Completed(w, queue, k), Early(q, v, queue));
    }
  }

  lemma OneMore(wire: seq<Packet>, reading: Option<Packet>, p: Packet)
    ensures Contents(System.Held(reading) + (wire + [p])) == Contents(System.Held(reading) + wire) + [p.m]
  {
    assert System.Held(reading) + (wire + [p]) == System.Held(reading) + wire + [p];
  }

  /** What was early is completed or still early. */
  lemma StillAhead(q: WriteQueue<Packet>, w: W.Writer, v: W.Writer, queue: seq<Message>, k: nat)
    requires WellFormed(w.current) && v.current == w.current && v.sent == w.sent + k <= |FrameBytes(w.current)|
    requires queue != [] && (Front(w, queue) != [] ==> q.sent)
    requires q.sent || v.sent < |FrameBytes(w.current)|
    ensures Wires.Completed(w, queue, k) + Early(q, v, queue) == Early(q, w, queue)
  {
  }

  lemma DoneLinks(q: WriteQueue<Packet>, wire: seq<Packet>, reading: Option<Packet>,
                  w: W.Writer, queue: seq<Message>, consumed: seq<byte>, f: Frame)
    requires LinkedBack(q, wire, reading, w, queue, consumed) && queue != [] && q.inFlight > 0
    requires w.sent == |FrameBytes(w.current)| && WellFormed(f) && (queue[1..] != [] ==> f.m == queue[1])
    ensures var v := W.Finish(w);
      LinkedBack(Complete(q), wire, reading, if queue[1..] == [] then v else W.Begin(v, f), queue[1..], consumed)
  {
    assert Contents(q.queue[1..]) == queue[1..];
    if queue[1..] == [] {
      W.LastDone(w, queue);
    } else {
      W.NextBegins(w, queue, f);
    }
  }

  // The client's read loop.

  /** The packet whose header is read next: the first on the wire, or the one being sent. */
  function Next(s: System.State): Packet
    requires s.s2c != [] || s.replies.queue != []
  {
    if s.s2c != [] then s.s2c[0] else s.replies.queue[0]
  }

  /** ServerSends. */
  function Sent(s: System.State): System.State
    requires s.replies.queue != []
  {
    s.(replies := Send(s.replies), s2c := s.s2c + [s.replies.queue[0]])
  }

  /** ClientHead; with nothing on the wire, the reply being sent goes there first. */
  function AfterHead(s: System.State): System.State
    requires s.s2c != [] || s.replies.queue != []
  {
    System.ReadHead(if s.s2c != [] then s else Sent(s))
  }

  /** Those are steps. */
  lemma AfterHeadIsSteps(s: System.State)
    requires s.mode == System.Running && s.reading.None? && System.OneWriter(s.replies)
    requires s.s2c == [] ==> s.replies.queue != [] && !s.replies.sent
    ensures s.s2c == [] ==> System.Enabled(s, System.ServerSends) && Sent(s) == System.Step(s, System.ServerSends)
    ensures var before := if s.s2c != [] then s else Sent(s);
      System.Enabled(before, System.ClientHead) && AfterHead(s) == System.Step(before, System.ClientHead)
  {
  }

  lemma NextHeader(s: System.State, w: W.Writer, queue: seq<Message>, consumed: seq<byte>, head: seq<byte>)
    requires LinkedBack(s.replies, s.s2c, s.reading, w, queue, consumed) && s.reading.None?
    requires |head| == HEAD_LEN && consumed + head <= w.wire
    ensures s.s2c == [] ==> s.replies.queue != [] && !s.replies.sent
    ensures |Next(s).m.content| < MAX_BUF_LEN && HeaderOf(Next(s).m) == Cast(head)
  {
    assert System.Held(s.reading) + s.s2c == s.s2c;
    HeaderIsNext(w, queue, consumed, head);
    FirstContents(s.s2c);
    FirstContents(s.replies.queue);
  }

  lemma HeadTaken(wire: seq<Packet>, reading: Option<Packet>, w: W.Writer, queue: seq<Message>, consumed: seq<byte>,
                  head: seq<byte>)
    requires W.Describes(w, queue) && consumed + head <= w.wire && |head| == HEAD_LEN
    requires Parse(consumed).rest == [] && 0 < Cast(head).bodyLen
    requires reading.Some? && |reading.value.m.content| < MAX_BUF_LEN && HeaderOf(reading.value.m) == Cast(head)
    ensures Transit(w.wire, consumed + head) == Transit(w.wire, consumed) && ReadsOn(reading, consumed + head)
  {
    HeaderTakes(w, queue, consumed, head);
    ReadIsOpen(w, queue, consumed);
    HeaderAfter(consumed, head);
  }

  lemma HeadFromWire(q: WriteQueue<Packet>, wire: seq<Packet>, w: W.Writer, queue: seq<Message>, consumed: seq<byte>,
                     head: seq<byte>)
    requires LinkedBack(q, wire, None, w, queue, consumed) && wire != [] && |head| == HEAD_LEN
    requires consumed + head <= w.wire && Cast(head).bodyLen > 0
    requires |wire[0].m.content| < MAX_BUF_LEN && HeaderOf(wire[0].m) == Cast(head)
    ensures LinkedBack(q, wire[1..], Some(wire[0]), w, queue, consumed + head)
  {
    HeadTaken(wire, Some(wire[0]), w, queue, consumed, head);
    assert System.Held(None) + wire == wire == System.Held(Some(wire[0])) + wire[1..];
  }

  lemma HeadFromQueue(q: WriteQueue<Packet>, w: W.Writer, queue: seq<Message>, consumed: seq<byte>, head: seq<byte>)
    requires LinkedBack(q, [], None, w, queue, consumed) && queue != [] && !q.sent && |head| == HEAD_LEN
    requires consumed + head <= w.wire && Cast(head).bodyLen > 0
    requires |q.queue[0].m.content| < MAX_BUF_LEN && HeaderOf(q.queue[0].m) == Cast(head)
    ensures LinkedBack(Send(q), [], Some(q.queue[0]), w, queue, consumed + head)
  {
    var p := q.queue[0];
    HeadTaken([], Some(p), w, queue, consumed, head);
    assert Contents(q.queue)[0] == p.m;
    assert System.Held(None) + [] == [] && System.Held(Some(p)) + [] == [p];
    assert Contents([p]) == [p.m];
  }

  /** A header announcing a body is the system's ClientHead, if need be after ServerSends. */
  lemma HeadLinks(s: System.State, w: W.Writer, queue: seq<Message>, consumed: seq<byte>, head: seq<byte>)
    requires LinkedBack(s.replies, s.s2c, s.reading, w, queue, consumed) && s.reading.None?
    requires |head| == HEAD_LEN && consumed + head <= w.wire && Cast(head).bodyLen > 0
    ensures s.s2c == [] ==> s.replies.queue != [] && !s.replies.sent
    ensures var t := AfterHead(s);
      && t.mode == s.mode && t.book == s.book && t.outbox == s.outbox && t.reading == Some(Next(s))
      && |Next(s).m.content| < MAX_BUF_LEN && HeaderOf(Next(s).m) == Cast(head)
      && LinkedBack(t.replies, t.s2c, t.reading, w, queue, consumed + head)
  {
    NextHeader(s, w, queue, consumed, head);
    if s.s2c != [] {
      System.HeadRead(s);
      HeadFromWire(s.replies, s.s2c, w, queue, consumed, head);
    } else {
      System.HeadRead(Sent(s));
      HeadFromQueue(s.replies, w, queue, consumed, head);
    }
  }

  /** A body read is that of the packet being read, and nothing is early any more. */
  lemma BodyLinks(q: WriteQueue<Packet>, wire: seq<Packet>, reading: Option<Packet>,
                  w: W.Writer, queue: seq<Message>, consumed: seq<byte>, body: seq<byte>)
    requires LinkedBack(q, wire, reading, w, queue, consumed) && reading.Some?
    requires |body| == |reading.value.m.content| && consumed + body <= w.wire
    ensures body == reading.value.m.content && LinkedBack(q, wire, None, w, queue, consumed + body)
  {
    var p := reading.value;
    ReadIsOpen(w, queue, consumed);
    BodyTakes(w, queue, consumed, body);
    BodyAfter(consumed, body);
    InTransit([p] + wire, Message(p.m.reqId, p.m.reqType, body, p.m.funcId),
              Transit(w.wire, consumed + body) + Early(q, w, queue));
    assert ([p] + wire)[1..] == wire && System.Held(None) + wire == wire;
  }

  // The client as an object.

  /** The connected client is where the system says. */
  ghost predicate ClientAt(s: System.State, client: Client.RpcClient)
    reads client
  {
    && s.mode == System.Running && client.hasConnected && client.socketOpen && !client.aborted
    && SameBook(s, client)
    && (match s.reading
        case None => client.reading == Client.ReadHead
        case Some(p) =>
          && client.reading.ReadBody? && client.reading.size == |p.m.content|
          && client.reading.reqId == p.m.reqId && client.reading.reqType == p.m.reqType)
  }

  ghost predicate SameBook(s: System.State, client: Client.RpcClient)
    reads client
  {
    && s.book.calls == client.Calls() && s.book.completions == client.completions
    && s.book.handed == client.handed && s.book.subs == client.subMap
  }

  ghost predicate SameOutbox(s: System.State, client: Client.RpcClient)
    reads client, client.box
  {
    client.box.Value() == Untagged(s.outbox)
  }

  /** An empty frame makes the system close, too. */
  lemma EmptyHeadCloses(s: System.State)
    requires (s.s2c == [] ==> s.replies.queue != []) && Next(s).m.content == []
    ensures var t := AfterHead(s); t.mode == System.Failed && t.book == s.book.(calls := Forget(s.book.calls))
    ensures Untagged(AfterHead(s).outbox) == Client.Cleared(Untagged(s.outbox), true)
  {
    ClearUntagged(s.outbox);
    System.HeadRead(if s.s2c != [] then s else Sent(s));
  }

  /** Where the system's steps for a header lead. */
  lemma HeadFollows(s: System.State, w: W.Writer, queue: seq<Message>, consumed: seq<byte>, head: seq<byte>)
    requires LinkedBack(s.replies, s.s2c, s.reading, w, queue, consumed) && s.reading.None?
    requires |head| == HEAD_LEN && consumed + head <= w.wire
    ensures s.s2c == [] ==> s.replies.queue != [] && !s.replies.sent
    ensures Cast(head).bodyLen > 0 ==>
      var t := AfterHead(s);
      && t.mode == s.mode && t.book == s.book && t.outbox == s.outbox
      && LinkedBack(t.replies, t.s2c, t.reading, w, queue, consumed + head)
      && t.reading.Some? && 0 < |t.reading.value.m.content| < MAX_BUF_LEN && HeaderOf(t.reading.value.m) == Cast(head)
    ensures Cast(head).bodyLen == 0 ==>
      var t := AfterHead(s);
      && t.mode == System.Failed && t.book == s.book.(calls := Forget(s.book.calls))
      && Untagged(t.outbox) == Client.Cleared(Untagged(s.outbox), true)
  {
    NextHeader(s, w, queue, consumed, head);
    if Cast(head).bodyLen > 0 {
      HeadLinks(s, w, queue, consumed, head);
    } else {
      EmptyHeadCloses(s);
    }
  }

  /** The head handler does what the system's steps do. */
  method ReadsHead(client: Client.RpcClient, ghost s: System.State, ghost w: W.Writer, ghost queue: seq<Message>,
                   data: seq<byte>)
    requires client.box.Valid() && client.ReaderValid() && ClientAt(s, client) && SameOutbox(s, client)
    requires s.reading.None?
    requires LinkedBack(s.replies, s.s2c, s.reading, w, queue, client.consumed)
    requires |data| == HEAD_LEN && client.consumed + data <= w.wire
    modifies client, client.box
    ensures client.box.Valid() && client.ReaderValid()
    ensures s.s2c == [] ==> s.replies.queue != [] && !s.replies.sent
    ensures var t := AfterHead(s);
      && SameBook(t, client) && SameOutbox(t, client)
      && (Cast(data).bodyLen > 0 ==>
            ClientAt(t, client) && LinkedBack(t.replies, t.s2c, t.reading, w, queue, client.consumed))
      && (Cast(data).bodyLen == 0 ==> t.mode == System.Failed && !client.hasConnected)
  {
    ghost var consumed := client.consumed;
    ghost var ids := client.OnHead(false, data);
    HeadFollows(s, w, queue, consumed, data);
  }

  /** A failing head read is the system's HeadError. */
  method FailsHead(client: Client.RpcClient, ghost s: System.State, data: seq<byte>)
    returns (ghost ids: seq<uint64>, ghost made: seq<Completion>)
    requires client.box.Valid() && client.ReaderValid() && ClientAt(s, client) && SameOutbox(s, client)
    requires s.reading.None?
    requires |data| == HEAD_LEN
    modifies client, client.box
    ensures client.box.Valid() && client.ReaderValid() && !client.hasConnected
    ensures System.Enabled(s, System.HeadError(ids, made))
    ensures var t := System.Step(s, System.HeadError(ids, made));
      SameBook(t, client) && SameOutbox(t, client) && t.mode == System.Failed
  {
    ghost var before := client.completions;
    ClearUntagged(s.outbox);
    ids := client.OnHead(true, data);
    made := client.completions[|before|..];
  }

  lemma ReadBodyIsStep(s: System.State)
    requires s.mode == System.Running && s.reading.Some?
    ensures System.Enabled(s, System.ClientBody) && System.Step(s, System.ClientBody) == System.ReadBody(s)
  {
  }

  /** The body handler does what the system's step does, assertions included. */
  method ReadsBody(client: Client.RpcClient, ghost s: System.State, ghost w: W.Writer, ghost queue: seq<Message>,
                   data: seq<byte>)
    returns (ok: bool, ghost t: System.State)
    requires client.box.Valid() && client.ReaderValid() && ClientAt(s, client) && SameOutbox(s, client)
    requires s.reading.Some?
    requires LinkedBack(s.replies, s.s2c, s.reading, w, queue, client.consumed)
    requires |data| == client.reading.size && client.consumed + data <= w.wire
    modifies client, client.box
    ensures client.box.Valid() && client.ReaderValid()
    ensures t == System.ReadBody(s)
    ensures (ok <==> t.mode != System.Asserted) && (ok ==> SameBook(t, client) && SameOutbox(t, client))
    ensures ok && s.reading.value.m.reqType <= SUB_PUB ==>
      ClientAt(t, client) && LinkedBack(t.replies, t.s2c, t.reading, w, queue, client.consumed)
    ensures ok && s.reading.value.m.reqType > SUB_PUB ==> t.mode == System.Failed && !client.hasConnected
  {
    t := System.ReadBody(s);
    ClearUntagged(s.outbox);
    BodyLinks(s.replies, s.s2c, s.reading, w, queue, client.consumed, data);
    ok := client.OnBody(false, data);
  }

  /** A failing body read is the system's BodyError. */
  method FailsBody(client: Client.RpcClient, ghost s: System.State, data: seq<byte>)
    returns (ok: bool, ghost t: System.State)
    requires client.box.Valid() && client.ReaderValid() && ClientAt(s, client) && SameOutbox(s, client)
    requires s.reading.Some?
    requires |data| == client.reading.size
    modifies client, client.box
    ensures client.box.Valid() && client.ReaderValid()
    ensures System.Enabled(s, System.BodyError) && t == System.Step(s, System.BodyError)
    ensures (ok <==> t.mode != System.Asserted) && SameOutbox(t, client)
    ensures ok ==> SameBook(t, client) && !client.hasConnected && t.mode == System.Failed
  {
    t := System.Step(s, System.BodyError);
    ok := client.OnBody(true, data);
  }

  /** A body handler that finds the socket closed is the system's BodyAborted. */
  method AbortsBody(client: Client.RpcClient, ghost s: System.State, ghost p: Packet, data: seq<byte>)
    returns (ok: bool, ghost t: System.State)
    requires client.box.Valid() && client.ReaderValid() && SameBook(s, client) && !client.aborted && !client.socketOpen
    requires s.mode == System.SocketClosed || s.mode == System.OutboxCleared || s.mode == System.MapsCleared
    requires s.reading == Some(p) && |data| < MAX_BUF_LEN
    requires client.reading == Client.ReadBody(p.m.reqId, p.m.reqType, |data|)
    modifies client, client.box
    ensures client.box.Valid() && client.ReaderValid()
    ensures System.Enabled(s, System.BodyAborted) && t == System.Step(s, System.BodyAborted)
    ensures (ok <==> t.mode != System.Asserted) && (ok ==> SameBook(t, client))
  {
    t := System.Step(s, System.BodyAborted);
    ok := client.OnBody(false, data);
  }
}

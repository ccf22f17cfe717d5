/** From bytes to frames: what is in transit between a sender's queue and a receiver's read loop,
    what the steps of the two do to it, and what therefore has arrived. It is for the bytes of
    Outboxes, Connections and RpcClients what the frame lists are in RpcSystem. */
module Wires {
  import opened Bytes
  import opened Framing
  import opened Writers
  import WQ = WriteQueues
  import Boxes = Outboxes
  import Server = Connections
  import Client = RpcClients

  /** The messages of the frames completely contained in a stream, also the empty ones. */
  function Whole(stream: seq<byte>): seq<Message>
    decreases |stream|
  {
    match FirstTurn(stream)
    case Got(_, m, rest) => [m] + Whole(rest)
    case _ => []
  }

  function NonEmpty(ms: seq<Message>): seq<Message> {
    if ms == [] then [] else Skip(ms[0]) + NonEmpty(ms[1..])
  }

  /** The frames completely sent and not completely read. */
  function Transit(wire: seq<byte>, consumed: seq<byte>): seq<Message>
    requires consumed <= wire
  {
    Whole(Parse(consumed).rest + wire[|consumed|..])
  }

  /** What of the queue is on the wire completely. */
  function Front(w: Writer, queue: seq<Message>): seq<Message>
    requires WellFormed(w.current)
  {
    if queue != [] && w.sent == |FrameBytes(w.current)| then [queue[0]] else []
  }

  // Whole frames.

  lemma {:induction false} NonEmptySplits(a: seq<Message>, b: seq<Message>)
    ensures NonEmpty(a + b) == NonEmpty(a) + NonEmpty(b)
  {
    if a == [] {
      assert a + b == b;
    } else {
      NonEmptySplits(a[1..], b);
      assert (a + b)[0] == a[0] && (a + b)[1..] == a[1..] + b;
      Regroup(Skip(a[0]), NonEmpty(a[1..]), NonEmpty(b));
    }
  }

  lemma WholeGot(stream: seq<byte>, head: seq<byte>, m: Message, rest: seq<byte>)
    requires FirstTurn(stream) == Got(head, m, rest)
    ensures Whole(stream) == [m] + Whole(rest)
  {
  }

  /** What the read loop delivers are the whole frames with a body. */
  lemma {:induction false} ParseIsWhole(stream: seq<byte>)
    ensures Parse(stream).messages == NonEmpty(Whole(stream))
    decreases |stream|
  {
    match FirstTurn(stream) {
      case Got(head, m, rest) =>
        ParseIsWhole(rest);
        ParseGot(stream, head, m, rest);
        assert ([m] + Whole(rest))[1..] == Whole(rest);
      case _ =>
    }
  }

  ghost predicate Splits(a: seq<byte>, b: seq<byte>) {
    Whole(a + b) == Whole(a) + Whole(Parse(a).rest + b)
  }

  lemma GotSplits(a: seq<byte>, b: seq<byte>, head: seq<byte>, m: Message, rest: seq<byte>)
    requires FirstTurn(a) == Got(head, m, rest) && FirstTurn(a + b) == Got(head, m, rest + b)
    requires Splits(rest, b)
    ensures Splits(a, b)
  {
    ParseGot(a, head, m, rest);
    WholeGot(a, head, m, rest);
    WholeGot(a + b, head, m, rest + b);
    OneMore(Whole(a), Whole(a + b), m, Whole(rest), Whole(rest + b), Whole(Parse(rest).rest + b));
  }

  lemma OneMore<T>(a: seq<T>, ab: seq<T>, m: T, r: seq<T>, rb: seq<T>, x: seq<T>)
    requires a == [m] + r && ab == [m] + rb && rb == r + x
    ensures ab == a + x
  {
  }

  lemma WaitsSplits(a: seq<byte>, b: seq<byte>)
    requires FirstTurn(a).Waits?
    ensures Splits(a, b)
  {
    assert Whole(a) == [] && Parse(a).rest == a;
  }

  lemma OpenAfterGot(a: seq<byte>, head: seq<byte>, m: Message, rest: seq<byte>)
    requires FirstTurn(a) == Got(head, m, rest)
    ensures Parse(rest).end == Parse(a).end
  {
    ParseGot(a, head, m, rest);
  }

  /** The whole frames of an open stream and those of its unread rest with what follows. */
  lemma {:induction false} WholeResumes(a: seq<byte>, b: seq<byte>)
    requires Parse(a).end == Open
    ensures Splits(a, b)
    decreases |a|
  {
    TurnResumes(a, b);
    match FirstTurn(a) {
      case Got(head, m, rest) =>
        OpenAfterGot(a, head, m, rest);
        WholeResumes(rest, b);
        GotSplits(a, b, head, m, rest);
      case Waits => WaitsSplits(a, b);
      case Ends(_) =>
    }
  }

  lemma MessagesFront(fs: seq<Frame>)
    requires fs != []
    ensures Messages(fs) == [fs[0].m] + Messages(fs[1..])
  {
  }

  lemma {:induction false} WholeOfFrames(fs: seq<Frame>)
    requires forall f :: f in fs ==> WellFormed(f)
    ensures Whole(WireBytes(fs)) == Messages(fs)
  {
    if fs != [] {
      WholeOfFrames(fs[1..]);
      var f, rest := fs[0], WireBytes(fs[1..]);
      FrameTurn(f, rest);
      WholeGot(FrameBytes(f) + rest, Layout(HeaderOf(f.m), f.gap1, f.gap2), f.m, rest);
      MessagesFront(fs);
    }
  }

  lemma WholeOfPart(f: Frame, k: nat)
    requires WellFormed(f) && k <= |FrameBytes(f)|
    ensures Whole(FrameBytes(f)[..k]) == if k == |FrameBytes(f)| then [f.m] else []
  {
    var part := FrameBytes(f)[..k];
    if k < |FrameBytes(f)| {
      PartialFrameWaits(f, k);
    } else {
      assert part == FrameBytes(f) + [];
      FrameTurn(f, []);
      WholeGot(part, Layout(HeaderOf(f.m), f.gap1, f.gap2), f.m, []);
    }
  }

  lemma WholeOfWire(w: Writer, queue: seq<Message>)
    requires Describes(w, queue)
    ensures Whole(w.wire) == Messages(w.done) + Front(w, queue)
  {
    var k := if queue == [] then 0 else w.sent;
    WholeOfFramesAndPart(w.done, w.current, k);
  }

  lemma WholeOfFramesAndPart(fs: seq<Frame>, f: Frame, k: nat)
    requires (forall g :: g in fs ==> WellFormed(g)) && WellFormed(f) && k <= |FrameBytes(f)|
    ensures Whole(WireBytes(fs) + FrameBytes(f)[..k]) == Messages(fs) + if k == |FrameBytes(f)| then [f.m] else []
  {
    var part := FrameBytes(f)[..k];
    ReadBack(fs);
    WholeResumes(WireBytes(fs), part);
    assert Parse(WireBytes(fs)).rest + part == part;
    WholeOfFrames(fs);
    WholeOfPart(f, k);
  }

  // What has been read of a conforming sender's bytes.

  lemma ReadIsOpen(w: Writer, queue: seq<Message>, consumed: seq<byte>)
    requires Describes(w, queue) && consumed <= w.wire
    ensures Parse(consumed).end == Open
  {
    var fs := Started(w, queue);
    WireIsInOrder(w, queue);
    assert WireBytes(fs)[..|consumed|] == consumed;
    PrefixDelivers(fs, |consumed|);
  }

  lemma ReadAndTransit(wire: seq<byte>, consumed: seq<byte>)
    requires consumed <= wire && Parse(consumed).end == Open
    ensures Whole(consumed) + Transit(wire, consumed) == Whole(wire)
  {
    var rest := wire[|consumed|..];
    WholeResumes(consumed, rest);
    assert consumed + rest == wire;
  }

  /** Read, in transit, and still to be sent: together these are the messages queued. */
  lemma NothingElse(w: Writer, queue: seq<Message>, consumed: seq<byte>)
    requires Describes(w, queue) && consumed <= w.wire
    ensures Whole(consumed) + Transit(w.wire, consumed) == Messages(w.done) + Front(w, queue)
    ensures Whole(consumed) + Transit(w.wire, consumed) + queue[|Front(w, queue)|..] == w.enqueued
  {
    ReadIsOpen(w, queue, consumed);
    ReadAndTransit(w.wire, consumed);
    WholeOfWire(w, queue);
    Regrouped(Messages(w.done), Front(w, queue), queue);
  }

  lemma Regrouped<T>(done: seq<T>, front: seq<T>, queue: seq<T>)
    requires front <= queue
    ensures done + front + queue[|front|..] == done + queue
  {
  }

  // The steps.

  /** The last byte of a frame brings it into transit; no other byte does. */
  lemma SendingBrings(w: Writer, queue: seq<Message>, consumed: seq<byte>, k: nat)
    requires Describes(w, queue) && queue != [] && consumed <= w.wire
    requires w.sent + k <= |FrameBytes(w.current)|
    ensures var v := Writers.Transmit(w, k);
      && Describes(v, queue) && consumed <= v.wire
      && Transit(v.wire, consumed) == Transit(w.wire, consumed) + Completed(w, queue, k)
  {
    var v := Writers.Transmit(w, k);
    MoreSent(w, queue, k);
    NothingElse(w, queue, consumed);
    NothingElse(v, queue, consumed);
    assert Front(v, queue) == Front(w, queue) + Completed(w, queue, k);
    LongerTail(Whole(consumed), Transit(w.wire, consumed), Transit(v.wire, consumed),
               Messages(w.done), Front(w, queue), Completed(w, queue, k));
  }

  /** The front, if these bytes are its last ones. */
  function Completed(w: Writer, queue: seq<Message>, k: nat): seq<Message>
    requires WellFormed(w.current) && queue != []
  {
    if w.sent < w.sent + k == |FrameBytes(w.current)| then [queue[0]] else []
  }

  lemma LongerTail<T>(read: seq<T>, was: seq<T>, now: seq<T>, done: seq<T>, front: seq<T>, more: seq<T>)
    requires read + was == done + front && read + now == done + (front + more)
    ensures now == was + more
  {
    assert read + now == (done + front) + more;
    assert read + now == read + (was + more);
    assert now == (read + now)[|read|..];
    assert was + more == (read + (was + more))[|read|..];
  }

  /** Reading a header takes an empty frame out of transit and leaves any other there. */
  lemma HeaderTakes(w: Writer, queue: seq<Message>, consumed: seq<byte>, head: seq<byte>)
    requires Describes(w, queue) && Parse(consumed).rest == [] && |head| == HEAD_LEN && consumed + head <= w.wire
    ensures var h := Cast(head);
      && h.magic == MAGIC_NUM && h.bodyLen < MAX_BUF_LEN
      && Transit(w.wire, consumed) ==
           (if h.bodyLen == 0 then [Message(h.reqId, h.reqType, [], h.funcId)] else [])
             + Transit(w.wire, consumed + head)
  {
    ReadIsOpen(w, queue, consumed);
    ReadIsOpen(w, queue, consumed + head);
    HeaderAfter(consumed, head);
    var after := w.wire[|consumed + head|..];
    Unread(w.wire, consumed, head);
    if Cast(head).bodyLen == 0 {
      FrameFirst(head, [], after);
      assert [] + after == after;
    }
  }

  lemma Unread(wire: seq<byte>, consumed: seq<byte>, more: seq<byte>)
    requires consumed + more <= wire
    ensures wire[|consumed|..] == more + wire[|consumed + more|..]
    ensures Parse(consumed).rest == [] ==> Parse(consumed).rest + wire[|consumed|..] == more + wire[|consumed + more|..]
  {
  }

  /** Reading the body a header announced takes that frame out of transit. */
  lemma BodyTakes(w: Writer, queue: seq<Message>, consumed: seq<byte>, body: seq<byte>)
    requires Describes(w, queue) && consumed + body <= w.wire
    requires var p := Parse(consumed);
      |p.rest| == HEAD_LEN && Cast(p.rest).magic == MAGIC_NUM && 0 < |body| == Cast(p.rest).bodyLen < MAX_BUF_LEN
    ensures var h := Cast(Parse(consumed).rest);
      Transit(w.wire, consumed) == [Message(h.reqId, h.reqType, body, h.funcId)] + Transit(w.wire, consumed + body)
  {
    ReadIsOpen(w, queue, consumed);
    BodyAfter(consumed, body);
    var head := Parse(consumed).rest;
    var after := w.wire[|consumed + body|..];
    Unread(w.wire, consumed, body);
    FrameFirst(head, body, after);
  }

  lemma FrameFirst(head: seq<byte>, body: seq<byte>, after: seq<byte>)
    requires |head| == HEAD_LEN && Cast(head).magic == MAGIC_NUM && |body| == Cast(head).bodyLen < MAX_BUF_LEN
    ensures var h := Cast(head);
      Whole(head + (body + after)) == [Message(h.reqId, h.reqType, body, h.funcId)] + Whole([] + after)
  {
    var h := Cast(head);
    var stream := head + (body + after);
    assert stream[..HEAD_LEN] == head && stream[HEAD_LEN..] == body + after && [] + after == after;
    assert (body + after)[..h.bodyLen] == body && (body + after)[h.bodyLen..] == after;
    WholeGot(stream, head, Message(h.reqId, h.reqType, body, h.funcId), after);
  }

  /** A header read is that of the frame first in transit, or, when none is, of the frame being
      sent: the client acts on it before the body is there. */
  lemma HeaderIsNext(w: Writer, queue: seq<Message>, consumed: seq<byte>, head: seq<byte>)
    requires Describes(w, queue) && Parse(consumed).rest == [] && |head| == HEAD_LEN && consumed + head <= w.wire
    ensures var next := Transit(w.wire, consumed) + queue[|Front(w, queue)|..];
      && next != [] && |next[0].content| < MAX_BUF_LEN && HeaderOf(next[0]) == Cast(head)
      && (Transit(w.wire, consumed) == [] ==> Front(w, queue) == [])
  {
    if queue != [] && w.sent < |FrameBytes(w.current)| {
      var k := |FrameBytes(w.current)| - w.sent;
      SendingBrings(w, queue, consumed, k);
      HeaderIsFirst(Writers.Transmit(w, k), queue, consumed, head);
    } else {
      HeaderIsFirst(w, queue, consumed, head);
    }
  }

  lemma NothingPartial(w: Writer, queue: seq<Message>)
    requires Describes(w, queue) && (queue != [] ==> w.sent == |FrameBytes(w.current)|)
    ensures Parse(w.wire).rest == []
  {
    var fs := Started(w, queue);
    WireIsFrames(w, queue);
    ReadBack(fs);
  }

  lemma WireIsFrames(w: Writer, queue: seq<Message>)
    requires Describes(w, queue) && (queue != [] ==> w.sent == |FrameBytes(w.current)|)
    ensures (forall f :: f in Started(w, queue) ==> WellFormed(f)) && w.wire == WireBytes(Started(w, queue))
  {
    var image := FrameBytes(w.current);
    if queue != [] {
      assert image[..w.sent] == image;
      WireAppend(w.done, w.current);
    } else {
      assert image[..0] == [] && Started(w, queue) == w.done;
      assert w.wire == WireBytes(w.done) + [];
    }
  }

  lemma HeaderIsFirst(w: Writer, queue: seq<Message>, consumed: seq<byte>, head: seq<byte>)
    requires Describes(w, queue) && (queue != [] ==> w.sent == |FrameBytes(w.current)|)
    requires Parse(consumed).rest == [] && |head| == HEAD_LEN && consumed + head <= w.wire
    ensures var ms := Transit(w.wire, consumed);
      ms != [] && |ms[0].content| < MAX_BUF_LEN && HeaderOf(ms[0]) == Cast(head)
  {
    var unread := w.wire[|consumed|..];
    ReadIsOpen(w, queue, consumed);
    ReadIsOpen(w, queue, w.wire);
    NothingPartial(w, queue);
    ParseResumes(consumed, unread);
    assert consumed + unread == w.wire;
    Unread(w.wire, consumed, head);
    NotWaiting(unread, head);
  }

  lemma NotWaiting(unread: seq<byte>, head: seq<byte>)
    requires |head| == HEAD_LEN && head <= unread && Parse(unread).rest == [] && Parse(unread).end == Open
    ensures Whole(unread) != [] && |Whole(unread)[0].content| < MAX_BUF_LEN && HeaderOf(Whole(unread)[0]) == Cast(head)
  {
    assert unread[..HEAD_LEN] == head;
    assert FirstTurn(unread).Got?;
    var t := FirstTurn(unread);
    WholeGot(unread, t.head, t.m, t.rest);
  }

  // End to end.

  lemma Conserved(w: Writer, queue: seq<Message>, consumed: seq<byte>)
    requires Describes(w, queue) && consumed <= w.wire
    ensures Parse(consumed).end == Open
    ensures Parse(consumed).messages + NonEmpty(Transit(w.wire, consumed)) + NonEmpty(queue[|Front(w, queue)|..])
      == NonEmpty(w.enqueued)
  {
    ReadIsOpen(w, queue, consumed);
    ParseIsWhole(consumed);
    NothingElse(w, queue, consumed);
    NonEmptySplits(Whole(consumed), Transit(w.wire, consumed));
    NonEmptySplits(Whole(consumed) + Transit(w.wire, consumed), queue[|Front(w, queue)|..]);
  }

  /** Requests: whatever bytes of the client's outbox the server has read so far, what it has
      dispatched, what is in transit and what is not completely sent are together the requests
      queued, in order; and the open server is reading on. */
  lemma RequestsArrive(box: Boxes.Outbox, conn: Server.Connection)
    requires box.Valid() && !box.cleared && conn.ReaderValid() && conn.consumed <= box.writer.wire
    ensures conn.dispatched + NonEmpty(Transit(box.writer.wire, conn.consumed)) + NonEmpty(WQ.Unsent(box.Value()))
      == NonEmpty(box.writer.enqueued)
    ensures !conn.hasClosed && !conn.readFailed ==> conn.reading != Server.NoRead
  {
    Conserved(box.writer, Boxes.Queue(box.outbox), conn.consumed);
  }

  /** Replies and publications: the same from the server's queue to the client, which ignores the
      function ids. */
  lemma RepliesArrive(conn: Server.Connection, client: Client.RpcClient)
    requires conn.WriterValid() && client.ReaderValid() && client.consumed <= conn.writer.wire
    ensures var read := Parse(client.consumed).messages;
      && Client.SameContents(client.received, read)
      && read + NonEmpty(Transit(conn.writer.wire, client.consumed)) + NonEmpty(WQ.Unsent(conn.Queue()))
         == NonEmpty(conn.writer.enqueued)
    ensures client.hasConnected && !client.aborted ==> client.reading != Client.NoRead
  {
    Conserved(conn.writer, conn.writeQueue, client.consumed);
    assert ParsesAs(client.consumed, Parse(client.consumed));
  }
}

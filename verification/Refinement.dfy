/** The queues and wires of RpcSystem are abstractions of bytes: whatever a sender's and a
    receiver's handlers do to the bytes of one direction is the step the system takes, or
    nothing. */
module Refinement {
  import opened Bytes
  import opened Framing
  import opened Protocol
  import opened WriteQueues
  import opened Wires
  import W = Writers
  import System = RpcSystem
  import Server = Connections

  function Contents(ps: seq<Packet>): (ms: seq<Message>)
    ensures |ms| == |ps|
  {
    seq(|ps|, i requires 0 <= i < |ps| => ps[i].m)
  }

  /** A queue without the tags. */
  function Untagged(q: WriteQueue<Packet>): WriteQueue<Message> {
    WriteQueue(Contents(q.queue), q.inFlight, q.sent)
  }

  lemma ClearUntagged(q: WriteQueue<Packet>)
    ensures Untagged(Clear(q)) == WriteQueue([], q.inFlight, false)
  {
    FirstContents([]);
  }

  /** The system's queue is the sender's, and its wire the frames in transit. */
  ghost predicate Linked(q: WriteQueue<Packet>, wire: seq<Packet>, w: W.Writer, queue: seq<Message>,
                         consumed: seq<byte>)
  {
    && W.Describes(w, queue) && consumed <= w.wire
    && Contents(q.queue) == queue && (q.sent <==> Front(w, queue) != [])
    && Contents(wire) == Transit(w.wire, consumed)
  }

  lemma InTransit(wire: seq<Packet>, m: Message, rest: seq<Message>)
    requires Contents(wire) == [m] + rest
    ensures wire != [] && wire[0].m == m && Contents(wire[1..]) == rest
  {
    assert Contents(wire)[0] == m;
    assert Contents(wire[1..]) == Contents(wire)[1..];
  }

  // The sender.

  /** Queueing: `f` is the frame begun when nothing was queued. */
  lemma PushIsPush(q: WriteQueue<Packet>, wire: seq<Packet>, w: W.Writer, queue: seq<Message>, consumed: seq<byte>,
                   p: Packet, f: Frame)
    requires Linked(q, wire, w, queue, consumed) && |p.m.content| < MAX_BUF_LEN && WellFormed(f) && f.m == p.m
    ensures var v := W.Enqueue(w, p.m);
      Linked(Push(q, p), wire, if queue == [] then W.Begin(v, f) else v, queue + [p.m], consumed)
  {
    assert Contents(Push(q, p).queue) == queue + [p.m];
    if queue == [] {
      W.IntoEmpty(w, f);
    } else {
      W.BehindFront(w, queue, p.m);
    }
  }

  /** Bytes leaving: only the last one of a frame is a step of the system. */
  lemma LastByteIsSend(q: WriteQueue<Packet>, wire: seq<Packet>, w: W.Writer, queue: seq<Message>, consumed: seq<byte>,
                       k: nat)
    requires Linked(q, wire, w, queue, consumed) && System.Sending(q) && w.sent + k <= |FrameBytes(w.current)|
    ensures var v := W.Transmit(w, k);
      if v.sent == |FrameBytes(w.current)| then Linked(Send(q), wire + [q.queue[0]], v, queue, consumed)
      else Linked(q, wire, v, queue, consumed)
  {
    SendingBrings(w, queue, consumed, k);
    assert Contents(wire + [q.queue[0]]) == Contents(wire) + [queue[0]];
  }

  /** A write completed: `f` is the frame begun if more is queued. */
  lemma WriteDoneIsComplete(q: WriteQueue<Packet>, wire: seq<Packet>, w: W.Writer, queue: seq<Message>,
                            consumed: seq<byte>, f: Frame)
    requires Linked(q, wire, w, queue, consumed) && System.Sent(q)
    requires WellFormed(f) && (queue[1..] != [] ==> f.m == queue[1])
    ensures var v := W.Finish(w);
      Linked(Complete(q), wire, if queue[1..] == [] then v else W.Begin(v, f), queue[1..], consumed)
  {
    assert Contents(q.queue[1..]) == queue[1..];
    if queue[1..] == [] {
      W.LastDone(w, queue);
    } else {
      W.NextBegins(w, queue, f);
    }
  }

  // The receiver.

  /** A header read: an empty frame has been read with it, and the system's wire loses it. */
  lemma HeaderIsFront(q: WriteQueue<Packet>, wire: seq<Packet>, w: W.Writer, queue: seq<Message>, consumed: seq<byte>,
                      head: seq<byte>)
    requires Linked(q, wire, w, queue, consumed)
    requires Parse(consumed).rest == [] && |head| == HEAD_LEN && consumed + head <= w.wire
    ensures var h := Cast(head);
      && h.magic == MAGIC_NUM && h.bodyLen < MAX_BUF_LEN
      && if h.bodyLen > 0 then Linked(q, wire, w, queue, consumed + head)
         else wire != [] && wire[0].m == Message(h.reqId, h.reqType, [], h.funcId)
              && Linked(q, wire[1..], w, queue, consumed + head)
  {
    HeaderTakes(w, queue, consumed, head);
    var h := Cast(head);
    if h.bodyLen == 0 {
      InTransit(wire, Message(h.reqId, h.reqType, [], h.funcId), Transit(w.wire, consumed + head));
    }
  }

  /** A body read: it is the front of the system's wire. */
  lemma BodyIsFront(q: WriteQueue<Packet>, wire: seq<Packet>, w: W.Writer, queue: seq<Message>, consumed: seq<byte>,
                    body: seq<byte>)
    requires Linked(q, wire, w, queue, consumed) && consumed + body <= w.wire
    requires var p := Parse(consumed);
      |p.rest| == HEAD_LEN && Cast(p.rest).magic == MAGIC_NUM && 0 < |body| == Cast(p.rest).bodyLen < MAX_BUF_LEN
    ensures var h := Cast(Parse(consumed).rest);
      wire != [] && wire[0].m == Message(h.reqId, h.reqType, body, h.funcId)
      && Linked(q, wire[1..], w, queue, consumed + body)
  {
    BodyTakes(w, queue, consumed, body);
    var h := Cast(Parse(consumed).rest);
    InTransit(wire, Message(h.reqId, h.reqType, body, h.funcId), Transit(w.wire, consumed + body));
  }

  /** The client acts on a header. It is that of the system's first packet on the way back or, when
      there is none, of the reply being sent, which the system may put on the wire at once. */
  lemma HeaderIsHeld(s: System.State, w: W.Writer, queue: seq<Message>, consumed: seq<byte>, head: seq<byte>)
    requires Linked(s.replies, s.s2c, w, queue, consumed)
    requires Parse(consumed).rest == [] && |head| == HEAD_LEN && consumed + head <= w.wire
    ensures s.s2c == [] ==> s.replies.queue != [] && !s.replies.sent
    ensures var p := if s.s2c != [] then s.s2c[0] else s.replies.queue[0];
      |p.m.content| < MAX_BUF_LEN && HeaderOf(p.m) == Cast(head)
  {
    HeaderIsNext(w, queue, consumed, head);
    FirstContents(s.s2c);
    FirstContents(s.replies.queue);
  }

  lemma FirstContents(ps: seq<Packet>)
    ensures ps != [] ==> Contents(ps)[0] == ps[0].m
    ensures ps == [] <==> Contents(ps) == []
  {
  }

  // The server's handlers, as objects.

  /** The request the server dispatches after a body is the one the system serves next, whatever
      the bytes before it were: with this body the handler returns `DispatchOf` of the front of
      the system's wire. */
  lemma DispatchIsServed(s: System.State, w: W.Writer, queue: seq<Message>, conn: Server.Connection, body: seq<byte>)
    requires Linked(s.outbox, s.c2s, w, queue, conn.consumed) && conn.ReaderValid() && conn.reading.ReadBody?
    requires |body| == conn.reading.size && conn.consumed + body <= w.wire
    ensures s.c2s != [] && s.c2s[0].m == Message(conn.reqId, conn.reqType, body, conn.reading.funcId)
    ensures Linked(s.outbox, s.c2s[1..], w, queue, conn.consumed + body)
  {
    BodyIsFront(s.outbox, s.c2s, w, queue, conn.consumed, body);
  }
}

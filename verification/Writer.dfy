/** What a sender has put on the wire so far, byte by byte: the history behind a queue whose
    front is written with one asynchronous write. */
module Writers {
  import opened Bytes
  import opened Framing

  /** Every message queued, the frames completed, the frame being written with the number of
      its bytes sent, and everything on the wire. */
  datatype Writer = Writer(enqueued: seq<Message>, done: seq<Frame>, current: Frame, sent: nat, wire: seq<byte>)

  const NOTHING_WRITTEN := Writer([], [], Frame(Message(0, 0, [], 0), [0, 0], [0, 0, 0, 0]), 0, [])

  /** The completed frames and the queue are the history, in order; the frame being written is
      the queue's front; on the wire are the completed frames and a prefix of the current one. */
  ghost predicate Describes(w: Writer, queue: seq<Message>) {
    && (forall m :: m in queue ==> |m.content| < MAX_BUF_LEN)
    && (forall f :: f in w.done ==> WellFormed(f)) && WellFormed(w.current)
    && Messages(w.done) + queue == w.enqueued
    && (queue != [] ==> w.current.m == queue[0] && w.sent <= |FrameBytes(w.current)|)
    && (queue == [] ==> w.sent == 0)
    && w.wire == WireBytes(w.done) + FrameBytes(w.current)[..if queue == [] then 0 else w.sent]
  }

  function Enqueue(w: Writer, m: Message): Writer {
    w.(enqueued := w.enqueued + [m])
  }

  function Begin(w: Writer, f: Frame): Writer {
    w.(current := f, sent := 0)
  }

  function Transmit(w: Writer, k: nat): Writer
    requires WellFormed(w.current) && w.sent + k <= |FrameBytes(w.current)|
  {
    w.(sent := w.sent + k, wire := w.wire + FrameBytes(w.current)[w.sent..w.sent + k])
  }

  function Finish(w: Writer): Writer {
    w.(done := w.done + [w.current], sent := 0)
  }

  lemma BehindFront(w: Writer, queue: seq<Message>, m: Message)
    requires Describes(w, queue) && queue != [] && |m.content| < MAX_BUF_LEN
    ensures Describes(Enqueue(w, m), queue + [m])
  {
    Regroup(Messages(w.done), queue, [m]);
  }

  lemma IntoEmpty(w: Writer, f: Frame)
    requires Describes(w, []) && WellFormed(f)
    ensures Describes(Begin(Enqueue(w, f.m), f), [f.m])
  {
    Regroup(Messages(w.done), [], [f.m]);
    assert FrameBytes(w.current)[..0] == FrameBytes(f)[..0];
  }

  lemma MoreSent(w: Writer, queue: seq<Message>, k: nat)
    requires Describes(w, queue) && queue != [] && w.sent + k <= |FrameBytes(w.current)|
    ensures Describes(Transmit(w, k), queue)
  {
    SendMore(WireBytes(w.done), FrameBytes(w.current), w.sent, w.sent + k);
  }

  /** A frame completely sent leaves the queue. */
  lemma FrontDone(w: Writer, queue: seq<Message>)
    requires Describes(w, queue) && queue != [] && w.sent == |FrameBytes(w.current)|
    ensures (forall f :: f in Finish(w).done ==> WellFormed(f))
    ensures Messages(Finish(w).done) + queue[1..] == w.enqueued
    ensures w.wire == WireBytes(Finish(w).done)
  {
    WireAppend(w.done, w.current);
    assert queue == [queue[0]] + queue[1..];
    assert Messages(w.done + [w.current]) == Messages(w.done) + [queue[0]];
  }

  lemma LastDone(w: Writer, queue: seq<Message>)
    requires Describes(w, queue) && queue != [] && w.sent == |FrameBytes(w.current)| && queue[1..] == []
    ensures Describes(Finish(w), [])
  {
    FrontDone(w, queue);
    assert w.wire == WireBytes(Finish(w).done) + FrameBytes(w.current)[..0];
  }

  lemma NextBegins(w: Writer, queue: seq<Message>, f: Frame)
    requires Describes(w, queue) && queue != [] && w.sent == |FrameBytes(w.current)|
    requires queue[1..] != [] && f.m == queue[1] && WellFormed(f)
    ensures Describes(Begin(Finish(w), f), queue[1..])
  {
    FrontDone(w, queue);
    assert w.wire == WireBytes(Finish(w).done) + FrameBytes(f)[..0];
  }

  /** The frames of which anything has been sent. */
  function Started(w: Writer, queue: seq<Message>): seq<Frame> {
    w.done + if queue == [] then [] else [w.current]
  }

  /** The wire carries the frames of the enqueued messages, in order, and the peer has read
      exactly those completely sent. */
  lemma WireIsInOrder(w: Writer, queue: seq<Message>)
    requires Describes(w, queue)
    ensures (forall f :: f in Started(w, queue) ==> WellFormed(f)) && w.wire <= WireBytes(Started(w, queue))
    ensures Messages(Started(w, queue)) <= w.enqueued
    ensures Parse(w.wire).end == Open
    ensures Parse(w.wire).messages == Delivered(w.done) +
      if queue != [] && w.sent == |FrameBytes(w.current)| then Skip(w.current.m) else []
  {
    var k := if queue == [] then 0 else w.sent;
    LastByteDelivers(w.done, w.current, k);
    if queue != [] {
      PartOfWire(w.done, w.current, k);
      MessagesPrefix(w.done, w.current, queue);
    } else {
      assert FrameBytes(w.current)[..0] == [];
      assert Started(w, queue) == w.done;
    }
  }
}

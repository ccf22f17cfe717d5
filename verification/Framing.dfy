/** The wire format of include/rest_rpc/const_vars.h: a fixed header and a body, and the pure
    meaning of a byte stream for the server's read loop. */
module Framing {
  import opened Bytes

  const MAGIC_NUM: byte := 39
  const MAX_BUF_LEN: nat := 10485760
  const HEAD_LEN: nat := 24
  const INIT_BUF_SIZE: nat := 2048

  const REQ_RES: byte := 0
  const SUB_PUB: byte := 1

  datatype RpcHeader = RpcHeader(magic: byte, reqType: byte, bodyLen: uint32, reqId: uint64, funcId: uint32)

  /** The 24 bytes of an `rpc_header`. The compiler's two padding gaps (2 and 4 bytes) hold
      whatever the struct copy left there. */
  function Layout(h: RpcHeader, gap1: seq<byte>, gap2: seq<byte>): (s: seq<byte>)
    requires |gap1| == 2 && |gap2| == 4
    ensures |s| == HEAD_LEN
  {
    [h.magic, h.reqType] + gap1 + PutLE(h.bodyLen, 4) + PutLE(h.reqId, 8) + PutLE(h.funcId, 4) + gap2
  }

  /** Reading the buffer through a header pointer. */
  function Cast(head: seq<byte>): RpcHeader
    requires |head| == HEAD_LEN
  {
    GetBound(head[4..8]);
    GetBound(head[8..16]);
    GetBound(head[16..20]);
    FieldWidths();
    RpcHeader(head[0], head[1], GetLE(head[4..8]), GetLE(head[8..16]), GetLE(head[16..20]))
  }

  lemma Fields(h: RpcHeader, gap1: seq<byte>, gap2: seq<byte>)
    requires |gap1| == 2 && |gap2| == 4
    ensures var s := Layout(h, gap1, gap2);
      && s[0] == h.magic && s[1] == h.reqType
      && s[4..8] == PutLE(h.bodyLen, 4) && s[8..16] == PutLE(h.reqId, 8) && s[16..20] == PutLE(h.funcId, 4)
  {
  }

  lemma FieldValue(v: nat, n: nat)
    requires v < Pow256(n)
    ensures GetLE(PutLE(v, n)) == v
  {
    GetPut(v, n);
  }

  lemma CastLayout(h: RpcHeader, gap1: seq<byte>, gap2: seq<byte>)
    requires |gap1| == 2 && |gap2| == 4
    ensures Cast(Layout(h, gap1, gap2)) == h
  {
    Fields(h, gap1, gap2);
    FieldWidths();
    FieldValue(h.bodyLen, 4);
    FieldValue(h.reqId, 8);
    FieldValue(h.funcId, 4);
  }

  /** Every header buffer is the layout of what is read from it. */
  lemma LayoutCast(head: seq<byte>)
    requires |head| == HEAD_LEN
    ensures Layout(Cast(head), head[2..4], head[20..24]) == head
  {
    PutGet(head[4..8]);
    PutGet(head[8..16]);
    PutGet(head[16..20]);
    assert head == [head[0], head[1]] + head[2..4] + head[4..8] + head[8..16] + head[16..20] + head[20..24];
  }

  /** A message as either side queues it. */
  datatype Message = Message(reqId: uint64, reqType: byte, content: seq<byte>, funcId: uint32)

  type SmallMessage = m: Message | |m.content| < MAX_BUF_LEN witness Message(0, 0, [], 0)

  function HeaderOf(m: SmallMessage): RpcHeader {
    RpcHeader(MAGIC_NUM, m.reqType, |m.content|, m.reqId, m.funcId)
  }

  /** One frame on the wire, with its gap bytes. */
  datatype Frame = Frame(m: SmallMessage, gap1: seq<byte>, gap2: seq<byte>)

  predicate WellFormed(f: Frame) {
    |f.gap1| == 2 && |f.gap2| == 4
  }

  function FrameBytes(f: Frame): (s: seq<byte>)
    requires WellFormed(f)
    ensures |s| == HEAD_LEN + |f.m.content|
  {
    Layout(HeaderOf(f.m), f.gap1, f.gap2) + f.m.content
  }

  function WireBytes(fs: seq<Frame>): seq<byte>
    requires forall f :: f in fs ==> WellFormed(f)
  {
    if fs == [] then [] else FrameBytes(fs[0]) + WireBytes(fs[1..])
  }

  /** The messages with a body; an empty body is a heartbeat and is skipped. */
  function Delivered(fs: seq<Frame>): seq<Message> {
    if fs == [] then [] else Skip(fs[0].m) + Delivered(fs[1..])
  }

  // What the read loop makes of a stream.

  /** Open: waiting for more bytes; Closed: bad magic; Stalled: a length the loop ignores. */
  datatype LoopEnd = Open | Closed | Stalled

  datatype Parsed = Parsed(messages: seq<Message>, rest: seq<byte>, end: LoopEnd)

  /** The first turn of the loop: a complete frame, not enough bytes yet, or an end. */
  datatype Turn = Got(head: seq<byte>, m: Message, rest: seq<byte>) | Waits | Ends(how: LoopEnd)

  function FirstTurn(stream: seq<byte>): (t: Turn)
    ensures t.Got? ==> |t.rest| < |stream| && |t.m.content| < MAX_BUF_LEN && |t.head| == HEAD_LEN
    ensures t.Ends? ==> t.how != Open
  {
    if |stream| < HEAD_LEN then Waits
    else
      var h := Cast(stream[..HEAD_LEN]);
      var after := stream[HEAD_LEN..];
      if h.magic != MAGIC_NUM then Ends(Closed)
      else if h.bodyLen >= MAX_BUF_LEN then Ends(Stalled)
      else if |after| < h.bodyLen then Waits
      else Got(stream[..HEAD_LEN], Message(h.reqId, h.reqType, after[..h.bodyLen], h.funcId), after[h.bodyLen..])
  }

  function Parse(stream: seq<byte>): Parsed
    decreases |stream|
  {
    match FirstTurn(stream)
    case Waits => Parsed([], stream, Open)
    case Ends(how) => Parsed([], stream, how)
    case Got(_, m, rest) =>
      var p := Parse(rest);
      p.(messages := Skip(m) + p.messages)
  }

  ghost predicate ParsesAs(stream: seq<byte>, p: Parsed) {
    p == Parse(stream)
  }

  function Skip(m: Message): seq<Message> {
    if m.content == [] then [] else [m]
  }

  lemma FrameTurn(f: Frame, rest: seq<byte>)
    requires WellFormed(f)
    ensures FirstTurn(FrameBytes(f) + rest) == Got(Layout(HeaderOf(f.m), f.gap1, f.gap2), f.m, rest)
  {
    var stream := FrameBytes(f) + rest;
    CastLayout(HeaderOf(f.m), f.gap1, f.gap2);
    assert stream[..HEAD_LEN] == Layout(HeaderOf(f.m), f.gap1, f.gap2);
    assert stream[HEAD_LEN..] == f.m.content + rest;
  }

  /** The round trip: any list of messages, laid out with any gap bytes, is read back as its
      non-empty messages in order, and every byte is used. */
  lemma {:induction false} ReadBack(fs: seq<Frame>)
    requires forall f :: f in fs ==> WellFormed(f)
    ensures Parse(WireBytes(fs)) == Parsed(Delivered(fs), [], Open)
  {
    if fs != [] {
      ReadBack(fs[1..]);
      FrameTurn(fs[0], WireBytes(fs[1..]));
    }
  }

  // Reading as the bytes arrive.

  lemma TurnResumes(a: seq<byte>, b: seq<byte>)
    ensures match FirstTurn(a)
      case Waits => true
      case Ends(how) => FirstTurn(a + b) == Ends(how)
      case Got(head, m, rest) => FirstTurn(a + b) == Got(head, m, rest + b)
  {
    if |a| >= HEAD_LEN {
      var h, after := Cast(a[..HEAD_LEN]), a[HEAD_LEN..];
      assert (a + b)[..HEAD_LEN] == a[..HEAD_LEN] && (a + b)[HEAD_LEN..] == after + b;
      if |after| >= h.bodyLen {
        assert (after + b)[..h.bodyLen] == after[..h.bodyLen];
        assert (after + b)[h.bodyLen..] == after[h.bodyLen..] + b;
      }
    }
  }

  lemma ParseGot(stream: seq<byte>, head: seq<byte>, m: Message, rest: seq<byte>)
    requires FirstTurn(stream) == Got(head, m, rest)
    ensures Parse(stream) == Parse(rest).(messages := Skip(m) + Parse(rest).messages)
  {
  }

  /** `q` is what `p` becomes when its unread rest, with more bytes behind it, parses as `x`. */
  ghost predicate Continues(p: Parsed, q: Parsed, x: Parsed) {
    if p.end == Open then q == x.(messages := p.messages + x.messages)
    else q.messages == p.messages && q.end == p.end
  }

  ghost predicate Resumes(a: seq<byte>, b: seq<byte>) {
    Continues(Parse(a), Parse(a + b), Parse(Parse(a).rest + b))
  }

  lemma ContinuesAfter(s: seq<Message>, p: Parsed, q: Parsed, x: Parsed)
    requires Continues(p, q, x)
    ensures Continues(p.(messages := s + p.messages), q.(messages := s + q.messages), x)
  {
  }

  lemma GotResumes(a: seq<byte>, b: seq<byte>, head: seq<byte>, m: Message, rest: seq<byte>)
    requires FirstTurn(a) == Got(head, m, rest) && FirstTurn(a + b) == Got(head, m, rest + b)
    requires Resumes(rest, b)
    ensures Resumes(a, b)
  {
    ParseGot(a, head, m, rest);
    ParseGot(a + b, head, m, rest + b);
    ContinuesAfter(Skip(m), Parse(rest), Parse(rest + b), Parse(Parse(rest).rest + b));
  }

  lemma WaitsResumes(a: seq<byte>, b: seq<byte>)
    requires FirstTurn(a).Waits?
    ensures Resumes(a, b)
  {
  }

  lemma EndsResumes(a: seq<byte>, b: seq<byte>, how: LoopEnd)
    requires FirstTurn(a) == Ends(how) && FirstTurn(a + b) == Ends(how)
    ensures Resumes(a, b)
  {
  }

  /** More bytes never change what has been read: an open parse resumes from its unread rest,
      and a loop that has ended stays ended. */
  lemma {:induction false} ParseResumes(a: seq<byte>, b: seq<byte>)
    ensures Resumes(a, b)
    decreases |a|
  {
    TurnResumes(a, b);
    match FirstTurn(a) {
      case Got(head, m, rest) =>
        ParseResumes(rest, b);
        GotResumes(a, b, head, m, rest);
      case Waits => WaitsResumes(a, b);
      case Ends(how) => EndsResumes(a, b, how);
    }
  }

  /** However much of a conforming sender's stream has arrived, the loop is still open and has
      delivered a prefix of the messages. */
  lemma PrefixDelivers(fs: seq<Frame>, n: nat)
    requires forall f :: f in fs ==> WellFormed(f)
    requires n <= |WireBytes(fs)|
    ensures var p := Parse(WireBytes(fs)[..n]);
      p.end == Open && p.messages <= Delivered(fs)
  {
    ReadBack(fs);
    var wire := WireBytes(fs);
    var a, b := wire[..n], wire[n..];
    ParseResumes(a, b);
    assert a + b == wire;
    OpenStaysPrefix(Parse(a), Parse(wire), Parse(Parse(a).rest + b));
  }

  lemma OpenStaysPrefix(p: Parsed, q: Parsed, x: Parsed)
    requires Continues(p, q, x) && q.end == Open
    ensures p.end == Open && p.messages <= q.messages
  {
  }

  /** The frames a stream was read as. */
  function FramesOf(stream: seq<byte>): (fs: seq<Frame>)
    ensures forall f :: f in fs ==> WellFormed(f)
    decreases |stream|
  {
    match FirstTurn(stream)
    case Got(head, m, rest) => [Frame(m, head[2..4], head[20..24])] + FramesOf(rest)
    case _ => []
  }

  lemma TurnIsFrame(stream: seq<byte>)
    requires FirstTurn(stream).Got?
    ensures var t := FirstTurn(stream);
      FrameBytes(Frame(t.m, t.head[2..4], t.head[20..24])) + t.rest == stream
  {
    var t := FirstTurn(stream);
    LayoutCast(t.head);
    assert HeaderOf(t.m) == Cast(t.head);
    assert stream == stream[..HEAD_LEN] + stream[HEAD_LEN..];
  }

  lemma FramesGot(stream: seq<byte>, head: seq<byte>, m: Message, rest: seq<byte>)
    requires FirstTurn(stream) == Got(head, m, rest)
    ensures var f := Frame(m, head[2..4], head[20..24]);
      && WellFormed(f) && WireBytes(FramesOf(stream)) == FrameBytes(f) + WireBytes(FramesOf(rest))
      && Delivered(FramesOf(stream)) == Skip(m) + Delivered(FramesOf(rest))
  {
    var f := Frame(m, head[2..4], head[20..24]);
    assert FramesOf(stream) == [f] + FramesOf(rest);
    assert FramesOf(stream)[1..] == FramesOf(rest);
  }

  ghost predicate Accounted(stream: seq<byte>, fs: seq<Frame>, p: Parsed)
    requires forall f :: f in fs ==> WellFormed(f)
  {
    stream == WireBytes(fs) + p.rest && p.messages == Delivered(fs)
  }

  lemma GotAccounted(stream: seq<byte>, head: seq<byte>, m: Message, rest: seq<byte>)
    requires FirstTurn(stream) == Got(head, m, rest)
    requires Accounted(rest, FramesOf(rest), Parse(rest))
    ensures Accounted(stream, FramesOf(stream), Parse(stream))
  {
    ParseGot(stream, head, m, rest);
    TurnIsFrame(stream);
    FramesGot(stream, head, m, rest);
    Regroup(FrameBytes(Frame(m, head[2..4], head[20..24])), WireBytes(FramesOf(rest)), Parse(rest).rest);
  }

  /** Conversely, the bytes the loop has used are exactly the layout of frames whose non-empty
      messages it delivered. */
  lemma {:induction false} UsedBytesAreFrames(stream: seq<byte>)
    requires Parse(stream).end == Open
    ensures Accounted(stream, FramesOf(stream), Parse(stream))
    decreases |stream|
  {
    match FirstTurn(stream) {
      case Got(head, m, rest) =>
        UsedBytesAreFrames(rest);
        GotAccounted(stream, head, m, rest);
      case Waits => assert Accounted(stream, [], Parsed([], stream, Open));
      case Ends(_) =>
    }
  }

  // Reading a header and then its body.

  /** A header on its own is not yet a frame, unless its body is empty. */
  lemma ParseHeader(head: seq<byte>)
    requires |head| == HEAD_LEN
    ensures var h := Cast(head);
      Parse(head) ==
        if h.magic != MAGIC_NUM then Parsed([], head, Closed)
        else if h.bodyLen >= MAX_BUF_LEN then Parsed([], head, Stalled)
        else if h.bodyLen == 0 then Parsed([], [], Open)
        else Parsed([], head, Open)
  {
    assert head[..HEAD_LEN] == head && head[HEAD_LEN..] == [];
    if FirstTurn(head).Got? {
      assert FirstTurn(head).rest == [];
      ParseGot(head, head, FirstTurn(head).m, []);
    }
  }

  lemma ParseHeaderAndBody(head: seq<byte>, body: seq<byte>)
    requires |head| == HEAD_LEN
    requires Cast(head).magic == MAGIC_NUM && 0 < |body| == Cast(head).bodyLen < MAX_BUF_LEN
    ensures var h := Cast(head);
      Parse(head + body) == Parsed([Message(h.reqId, h.reqType, body, h.funcId)], [], Open)
  {
    var h := Cast(head);
    var m := Message(h.reqId, h.reqType, body, h.funcId);
    assert (head + body)[..HEAD_LEN] == head && (head + body)[HEAD_LEN..] == body;
    assert body[..h.bodyLen] == body && body[h.bodyLen..] == [];
    assert FirstTurn(head + body) == Got(head, m, []);
    ParseGot(head + body, head, m, []);
  }

  /** Reading one more header after a stream that is used up. */
  lemma HeaderAfter(consumed: seq<byte>, head: seq<byte>)
    requires |head| == HEAD_LEN && Parse(consumed).end == Open && Parse(consumed).rest == []
    ensures var h, ms := Cast(head), Parse(consumed).messages;
      Parse(consumed + head) ==
        if h.magic != MAGIC_NUM then Parsed(ms, head, Closed)
        else if h.bodyLen >= MAX_BUF_LEN then Parsed(ms, head, Stalled)
        else if h.bodyLen == 0 then Parsed(ms, [], Open)
        else Parsed(ms, head, Open)
  {
    ParseResumes(consumed, head);
    assert Parse(consumed).rest + head == head;
    ParseHeader(head);
  }

  /** Reading the body that a pending header announces. */
  lemma BodyAfter(consumed: seq<byte>, body: seq<byte>)
    requires var p := Parse(consumed);
      && p.end == Open && |p.rest| == HEAD_LEN && Cast(p.rest).magic == MAGIC_NUM
      && 0 < |body| == Cast(p.rest).bodyLen < MAX_BUF_LEN
    ensures var p := Parse(consumed);
      var h := Cast(p.rest);
      Parse(consumed + body) == Parsed(p.messages + [Message(h.reqId, h.reqType, body, h.funcId)], [], Open)
  {
    ParseResumes(consumed, body);
    ParseHeaderAndBody(Parse(consumed).rest, body);
  }

  // Writing frame after frame.

  function Messages(fs: seq<Frame>): (ms: seq<Message>)
    ensures |ms| == |fs|
  {
    seq(|fs|, i requires 0 <= i < |fs| => fs[i].m)
  }

  lemma {:induction false} WireAppend(fs: seq<Frame>, f: Frame)
    requires forall g :: g in fs + [f] ==> WellFormed(g)
    ensures WireBytes(fs + [f]) == WireBytes(fs) + FrameBytes(f)
  {
    if fs != [] {
      assert (fs + [f])[1..] == fs[1..] + [f];
      WireAppend(fs[1..], f);
    }
  }

  lemma PartOfWire(fs: seq<Frame>, f: Frame, k: nat)
    requires (forall g :: g in fs + [f] ==> WellFormed(g)) && k <= |FrameBytes(f)|
    ensures WireBytes(fs) + FrameBytes(f)[..k] <= WireBytes(fs + [f])
  {
    WireAppend(fs, f);
  }

  lemma MessagesPrefix(fs: seq<Frame>, f: Frame, queue: seq<Message>)
    requires queue != [] && queue[0] == f.m
    ensures Messages(fs + [f]) <= Messages(fs) + queue
  {
  }

  lemma SendMore(w: seq<byte>, image: seq<byte>, from: nat, to: nat)
    requires from <= to <= |image|
    ensures w + image[..from] + image[from..to] == w + image[..to]
  {
  }

  /** A frame with bytes missing is not read yet. */
  lemma PartialFrameWaits(f: Frame, k: nat)
    requires WellFormed(f) && k < |FrameBytes(f)|
    ensures FirstTurn(FrameBytes(f)[..k]).Waits? && Parse(FrameBytes(f)[..k]) == Parsed([], FrameBytes(f)[..k], Open)
  {
    var s := FrameBytes(f);
    if k >= HEAD_LEN {
      FrameTurn(f, []);
      assert s + [] == s;
      assert s[..k][..HEAD_LEN] == s[..HEAD_LEN] == Layout(HeaderOf(f.m), f.gap1, f.gap2);
    }
    assert FirstTurn(s[..k]).Waits?;
  }

  /** The other side has a message exactly when the last byte of its frame has arrived. */
  lemma LastByteDelivers(fs: seq<Frame>, f: Frame, k: nat)
    requires (forall g :: g in fs ==> WellFormed(g)) && WellFormed(f) && k <= |FrameBytes(f)|
    ensures var p := Parse(WireBytes(fs) + FrameBytes(f)[..k]);
      && p.end == Open
      && p.messages == Delivered(fs) + if k == |FrameBytes(f)| then Skip(f.m) else []
  {
    ReadBack(fs);
    var part := FrameBytes(f)[..k];
    ParseResumes(WireBytes(fs), part);
    assert [] + part == part;
    if k < |FrameBytes(f)| {
      PartialFrameWaits(f, k);
    } else {
      assert part == FrameBytes(f) + [];
      FrameTurn(f, []);
      ParseGot(part, Layout(HeaderOf(f.m), f.gap1, f.gap2), f.m, []);
    }
  }
}

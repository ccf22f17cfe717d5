/** The server's side of one connection: the head/body read loop over reused members and the
    reply queue with its single asynchronous write (include/rest_rpc/connection.h). The
    completion handlers are the methods; what the network does between them is a parameter. */
module Connections {
  import opened Bytes
  import opened Framing
  import opened Writers
  import WQ = WriteQueues

  /** The asynchronous read in progress, if any. */
  datatype Reading = NoRead | ReadHead | ReadBody(funcId: uint32, size: uint32)

  /** What a completed body read leads to. */
  datatype Dispatch =
    | Nothing
    | NetworkError
    | Route(funcId: uint32, reqId: uint64, data: seq<byte>)
    | Subscribe(data: seq<byte>)

  /** The read that a header leads to. A body length of MAX_BUF_LEN or more leads to none. */
  function ReadAfter(h: RpcHeader): Reading {
    if h.magic != MAGIC_NUM then NoRead
    else if 0 < h.bodyLen < MAX_BUF_LEN then ReadBody(h.funcId, h.bodyLen)
    else if h.bodyLen == 0 then ReadHead
    else NoRead
  }

  /** What a message asks for. */
  function DispatchOf(m: Message): Dispatch {
    if m.reqType == REQ_RES then Route(m.funcId, m.reqId, m.content)
    else if m.reqType == SUB_PUB then Subscribe(m.content)
    else Nothing
  }

  /** Where the read loop stands, given how the bytes read so far parse. */
  ghost predicate ReaderAt(p: Parsed, reading: Reading, reqId: uint64, reqType: byte, room: nat, stopped: bool) {
    match reading
    case ReadHead => p.end == Open && p.rest == []
    case ReadBody(funcId, size) =>
      && p.end == Open && |p.rest| == HEAD_LEN
      && Cast(p.rest) == RpcHeader(MAGIC_NUM, reqType, size, reqId, funcId)
      && 0 < size < MAX_BUF_LEN && size <= room
    case NoRead => stopped || p.end != Open
  }

  /** Where a header leaves the loop, in a body buffer grown to fit. */
  lemma HeaderStands(consumed: seq<byte>, data: seq<byte>, room: nat)
    requires |data| == HEAD_LEN && Parse(consumed).end == Open && Parse(consumed).rest == []
    requires Cast(data).bodyLen < MAX_BUF_LEN ==> Cast(data).bodyLen <= room
    ensures var p, h := Parse(consumed + data), Cast(data);
      && p.messages == Parse(consumed).messages
      && ReaderAt(p, ReadAfter(h), h.reqId, h.reqType, room, h.magic != MAGIC_NUM)
  {
    HeaderAfter(consumed, data);
  }

  class Connection {
    // The reader.
    var head: seq<byte>
    var body: seq<byte>
    var reqId: uint64
    var reqType: byte
    var reading: Reading
    // The socket: closed by `close`, wherever it is called.
    var hasClosed: bool
    // The reply queue.
    var header: seq<byte>
    var writeSize: uint32
    var writeQueue: seq<Message>
    var writing: bool
    // History: bytes of completed reads, messages dispatched, whether a read failed.
    ghost var consumed: seq<byte>
    ghost var dispatched: seq<Message>
    ghost var readFailed: bool

    /** The reader's invariant: the messages dispatched are those of the bytes read so far, a
        pending body read belongs to the header just read, and an open connection whose peer
        has sent nothing unreadable always has a read outstanding. */
    ghost predicate ReaderValid()
      reads this`head, this`body, this`reqId, this`reqType, this`reading, this`hasClosed,
            this`consumed, this`dispatched, this`readFailed
    {
      && |head| == HEAD_LEN && Parse(consumed).messages == dispatched
      && ReaderAt(Parse(consumed), reading, reqId, reqType, |body|, hasClosed || readFailed)
    }

    constructor ()
      ensures ReaderValid() && reading == ReadHead && !hasClosed && consumed == [] && dispatched == []
      ensures WriterValid() && writer == NOTHING_WRITTEN && Queue() == WQ.Idle() && !broken
    {
      head, body := seq(HEAD_LEN, _ => 0), seq(INIT_BUF_SIZE, _ => 0);
      reqId, reqType, hasClosed := 0, 0, false;
      header, writeSize, writeQueue, writing := seq(HEAD_LEN, _ => 0), 0, [], false;
      consumed, dispatched, readFailed := [], [], false;
      writer, broken := NOTHING_WRITTEN, false;
      reading := ReadHead;
    }

    method StartReadHead()
      requires reading == NoRead
      modifies this`reading
      ensures reading == ReadHead
    {
      reading := ReadHead;
    }

    method StartReadBody(funcId: uint32, size: uint32)
      requires reading == NoRead && size <= |body|
      modifies this`reading
      ensures reading == ReadBody(funcId, size)
    {
      reading := ReadBody(funcId, size);
    }

    method Close()
      modifies this`hasClosed
      ensures hasClosed
    {
      hasClosed := true;
    }

    /** Completion of a head read, with the 24 bytes read. */
    method OnHead(failed: bool, data: seq<byte>) returns (report: bool)
      requires ReaderValid() && reading == ReadHead && |data| == HEAD_LEN
      modifies this`head, this`body, this`reqId, this`reqType, this`reading, this`hasClosed,
               this`consumed, this`readFailed
      ensures ReaderValid()
      ensures report <==> old(hasClosed) || failed
      ensures consumed == if report then old(consumed) else old(consumed) + data
      ensures reading == if report then NoRead else ReadAfter(Cast(data))
      ensures hasClosed <==> report || Cast(data).magic != MAGIC_NUM
    {
      reading := NoRead;
      if hasClosed {
        return true;
      }
      if !failed {
        HandleHeader(data);
        report := false;
      } else {
        readFailed := true;
        Close();
        return true;
      }
    }

    /** The error-free part of the head handler. */
    method HandleHeader(data: seq<byte>)
      requires |data| == HEAD_LEN && reading == NoRead && !hasClosed
      requires Parse(consumed) == Parsed(dispatched, [], Open)
      modifies this`head, this`body, this`reqId, this`reqType, this`reading, this`hasClosed, this`consumed
      ensures ReaderValid() && consumed == old(consumed) + data && reading == ReadAfter(Cast(data))
      ensures hasClosed <==> Cast(data).magic != MAGIC_NUM
    {
      ghost var room := if |body| < Cast(data).bodyLen < MAX_BUF_LEN then Cast(data).bodyLen else |body|;
      HeaderStands(consumed, data, room);
      consumed := consumed + data;
      head := data;
      var h := Cast(head);
      if h.magic != MAGIC_NUM {
        Close();
        return;
      }
      reqId := h.reqId;
      var bodyLen := h.bodyLen;
      reqType := h.reqType;
      if bodyLen > 0 && bodyLen < MAX_BUF_LEN {
        if |body| < bodyLen {
          body := body + seq(bodyLen - |body|, _ => 0);
        }
        StartReadBody(h.funcId, bodyLen);
        return;
      }
      if bodyLen == 0 {
        StartReadHead();
      }
    }

    /** Completion of a body read. The next head read is started first, so its bytes (`early`)
        may land in `head` before the message is dispatched. */
    method OnBody(failed: bool, data: seq<byte>, early: seq<byte>) returns (action: Dispatch)
      requires ReaderValid() && reading.ReadBody? && |data| == reading.size && |early| == HEAD_LEN
      modifies this`head, this`body, this`reading, this`consumed, this`dispatched, this`readFailed
      ensures ReaderValid()
      ensures if old(hasClosed) || failed
        then action == NetworkError && reading == NoRead && consumed == old(consumed) && dispatched == old(dispatched)
        else var m := Message(old(reqId), old(reqType), data, old(reading.funcId));
          && action == DispatchOf(m) && reading == ReadHead
          && consumed == old(consumed) + data && dispatched == old(dispatched) + [m]
    {
      var funcId, size := reading.funcId, reading.size;
      reading := NoRead;
      body := data + body[size..];
      if hasClosed {
        return NetworkError;
      }
      if !failed {
        BodyAfter(consumed, data);
        consumed := consumed + data;
        dispatched := dispatched + [Message(reqId, reqType, data, funcId)];
        StartReadHead();
        head := early;
        assert body[..size] == data;
        if reqType == REQ_RES {
          action := Route(funcId, reqId, body[..size]);
        } else if reqType == SUB_PUB {
          action := Subscribe(body[..size]);
        } else {
          action := Nothing;
        }
      } else {
        readFailed := true;
        action := NetworkError;
      }
    }

    /** With a peer that sends frames and no I/O error, an open connection always has exactly
        one read outstanding and has dispatched, in order, a prefix of what was sent. */
    lemma ConformingPeer(fs: seq<Frame>)
      requires ReaderValid() && !hasClosed && !readFailed
      requires (forall f :: f in fs ==> WellFormed(f)) && consumed <= WireBytes(fs)
      ensures reading != NoRead && dispatched <= Delivered(fs)
    {
      assert WireBytes(fs)[..|consumed|] == consumed;
      PrefixDelivers(fs, |consumed|);
    }

    // The reply queue: its history and whether it has stopped for good.
    ghost var writer: Writer
    ghost var broken: bool

    /** The header and size members describe the queue's front while it is being written, and
        a write is in flight exactly while something is queued, until the queue stops. */
    ghost predicate WriterValid()
      reads this`header, this`writeSize, this`writeQueue, this`writing, this`writer, this`broken
    {
      && Describes(writer, writeQueue)
      && (broken ==> !writing)
      && (writeQueue != [] <==> writing || broken)
      && (writing ==> header == Layout(HeaderOf(writeQueue[0]), writer.current.gap1, writer.current.gap2)
                      && writeSize == |writeQueue[0].content|)
    }

    /** The reply queue as a value. */
    ghost function Queue(): WQ.WriteQueue<Message>
      reads this`writeQueue, this`writing, this`writer
    {
      WQ.WriteQueue(writeQueue, if writing then 1 else 0,
                    writeQueue != [] && writer.sent == HEAD_LEN + |writeQueue[0].content|)
    }

    /** Starts the asynchronous write of the front; its buffers are the members themselves. */
    method Write(gap1: seq<byte>, gap2: seq<byte>)
      requires writeQueue != [] && !writing && |writeQueue[0].content| < MAX_BUF_LEN
      requires |gap1| == 2 && |gap2| == 4
      modifies this`header, this`writeSize, this`writing, this`writer
      ensures header == Layout(HeaderOf(writeQueue[0]), gap1, gap2) && writeSize == |writeQueue[0].content|
      ensures writing && writer == Begin(old(writer), Frame(writeQueue[0], gap1, gap2))
    {
      var msg := writeQueue[0];
      writeSize := |msg.content|;
      header := Layout(RpcHeader(MAGIC_NUM, msg.reqType, writeSize, msg.reqId, msg.funcId), gap1, gap2);
      writing := true;
      writer := Begin(writer, Frame(msg, gap1, gap2));
    }

    /** Queues a reply; a write is started only when the queue was empty. */
    method Response(id: uint64, data: seq<byte>, kind: byte, gap1: seq<byte>, gap2: seq<byte>)
      requires WriterValid() && |data| < MAX_BUF_LEN && |gap1| == 2 && |gap2| == 4
      modifies this`header, this`writeSize, this`writeQueue, this`writing, this`writer
      ensures WriterValid()
      ensures Queue() == WQ.Push(old(Queue()), Message(id, kind, data, 0))
      ensures writer.enqueued == old(writer.enqueued) + [Message(id, kind, data, 0)]
      ensures writer.done == old(writer.done) && writer.wire == old(writer.wire)
    {
      var m := Message(id, kind, data, 0);
      if writeQueue != [] {
        BehindFront(writer, writeQueue, m);
      } else {
        IntoEmpty(writer, Frame(m, gap1, gap2));
      }
      writeQueue := writeQueue + [m];
      writer := Enqueue(writer, m);
      if |writeQueue| > 1 {
        return;
      }
      Write(gap1, gap2);
    }

    /** The operating system takes `k` more bytes from the two buffers. */
    method Transmit(k: nat)
      requires WriterValid() && writing && writer.sent + k <= HEAD_LEN + writeSize
      modifies this`writer
      ensures WriterValid() && writer.sent == old(writer.sent) + k && writer.enqueued == old(writer.enqueued)
      ensures writer.wire == old(writer.wire)
        + (header + writeQueue[0].content[..writeSize])[old(writer.sent)..writer.sent]
      ensures writer.sent == HEAD_LEN + writeSize ==> Queue() == WQ.Send(old(Queue()))
    {
      assert header + writeQueue[0].content[..writeSize] == FrameBytes(writer.current) by {
        assert writeQueue[0].content[..writeSize] == writeQueue[0].content;
      }
      MoreSent(writer, writeQueue, k);
      writer := Writers.Transmit(writer, k);
    }

    /** Completion of a write; a successful one has sent both buffers. */
    method OnWrite(failed: bool, gap1: seq<byte>, gap2: seq<byte>)
      requires WriterValid() && writing && |gap1| == 2 && |gap2| == 4
      requires !failed ==> writer.sent == HEAD_LEN + writeSize
      modifies this`header, this`writeSize, this`writeQueue, this`writing, this`hasClosed, this`writer, this`broken
      ensures WriterValid()
      ensures if failed || old(hasClosed) then broken && Queue() == WQ.Stop(old(Queue()))
        else broken == old(broken) && Queue() == WQ.Complete(old(Queue()))
      ensures hasClosed <==> old(hasClosed) || failed
      ensures writer.enqueued == old(writer.enqueued) && writer.wire == old(writer.wire)
    {
      writing := false;
      if failed {
        broken := true;
        Close();
        return;
      }
      if hasClosed {
        broken := true;
        return;
      }
      if writeQueue[1..] == [] {
        LastDone(writer, writeQueue);
      } else {
        NextBegins(writer, writeQueue, Frame(writeQueue[1], gap1, gap2));
      }
      writeQueue := writeQueue[1..];
      writer := Finish(writer);
      if writeQueue != [] {
        Write(gap1, gap2);
      }
    }
  }
}

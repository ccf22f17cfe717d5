/** The client's outbox (include/rest_rpc/rpc_client.hpp): the members its write mutex guards,
    and the asynchronous write of the queue's front. */
module Outboxes {
  import opened Bytes
  import opened Framing
  import opened Writers
  import WQ = WriteQueues

  /** A queued request and the number of the buffer released to it. */
  datatype Queued = Queued(m: Message, buf: nat)

  function Queue(outbox: seq<Queued>): (ms: seq<Message>)
    ensures |ms| == |outbox|
  {
    seq(|outbox|, i requires 0 <= i < |outbox| => outbox[i].m)
  }

  /** Buffers are released, queued and freed in the same order: those freed are the first ones,
      those in the outbox the rest. */
  ghost predicate Owned(freed: seq<nat>, outbox: seq<Queued>, released: nat) {
    && |freed| + |outbox| == released
    && (forall i :: 0 <= i < |freed| ==> freed[i] == i)
    && (forall i :: 0 <= i < |outbox| ==> outbox[i].buf == |freed| + i)
  }

  /** Each buffer ever released has been freed exactly once or is still in the outbox, not both. */
  lemma FreedOnceOrQueued(freed: seq<nat>, outbox: seq<Queued>, released: nat, buf: nat)
    requires Owned(freed, outbox, released) && buf < released
    ensures multiset(freed)[buf] + multiset(Bufs(outbox))[buf] == 1
  {
    if buf < |freed| {
      OnceAt(freed, buf);
      assert buf !in Bufs(outbox);
    } else {
      OnceAt(Bufs(outbox), buf - |freed|);
      assert buf !in freed;
    }
  }

  lemma OnceAt(s: seq<nat>, k: nat)
    requires k < |s| && forall i :: 0 <= i < |s| && i != k ==> s[i] != s[k]
    ensures multiset(s)[s[k]] == 1
  {
    assert s == s[..k] + [s[k]] + s[k + 1..];
    assert s[k] !in s[..k] && s[k] !in s[k + 1..];
  }

  function Bufs(outbox: seq<Queued>): (bufs: seq<nat>)
    ensures |bufs| == |outbox| && forall i :: 0 <= i < |bufs| ==> bufs[i] == outbox[i].buf
  {
    seq(|outbox|, i requires 0 <= i < |outbox| => outbox[i].buf)
  }

  /** None of the buffers being written has been freed. */
  ghost predicate Safe(busy: seq<nat>, freed: seq<nat>) {
    forall b :: b in busy ==> b !in freed
  }

  /** Freeing one more. */
  lemma SafeFreeing(busy: seq<nat>, freed: seq<nat>, b: nat)
    ensures Safe(busy, freed + [b]) <==> Safe(busy, freed) && b !in busy
  {
  }

  /** Writing one more, that is still queued. */
  lemma SafeStarting(busy: seq<nat>, freed: seq<nat>, b: nat)
    requires b !in freed
    ensures Safe(busy + [b], freed) <==> Safe(busy, freed)
  {
  }

  class Outbox {
    var outbox: seq<Queued>
    var header: seq<byte>
    var writeSize: uint32
    var inFlight: nat
    // Buffers released to the outbox so far, which number them, and those freed.
    var released: nat
    ghost var freed: seq<nat>
    // The buffers of the writes in flight, in the order the writes were started.
    ghost var busy: seq<nat>
    // The history of the outbox until it is first cleared, and whether a write has failed.
    ghost var writer: Writer
    ghost var cleared: bool
    ghost var broken: bool

    /** Until the outbox is cleared there is at most one write in flight, exactly while
        something is queued, and it is the front's, described by the header members; the wire
        holds the requests in the order they were queued. In every state the buffers are
        accounted for, and a queue that has not failed is being written. */
    ghost predicate Valid()
      reads this`outbox, this`header, this`writeSize, this`inFlight, this`released, this`freed,
            this`busy, this`writer, this`cleared, this`broken
    {
      && Owned(freed, outbox, released) && |busy| == inFlight
      && (forall q :: q in outbox ==> |q.m.content| < MAX_BUF_LEN)
      && (outbox == [] || broken || inFlight > 0)
      && (cleared ||
          (&& Describes(writer, Queue(outbox))
           && inFlight == (if outbox == [] || broken then 0 else 1)
           && (broken ==> outbox != [])
           && (inFlight == 1 ==>
                && busy == [outbox[0].buf]
                && header == Layout(HeaderOf(outbox[0].m), writer.current.gap1, writer.current.gap2)
                && writeSize == |outbox[0].m.content|)))
    }

    /** The outbox as a value. */
    ghost function Value(): WQ.WriteQueue<Message>
      reads this`outbox, this`inFlight, this`writer, this`cleared
    {
      WQ.WriteQueue(Queue(outbox), inFlight,
                    !cleared && outbox != [] && writer.sent == HEAD_LEN + |outbox[0].m.content|)
    }

    constructor ()
      ensures Valid() && Value() == WQ.Idle() && !cleared && !broken && released == 0 && freed == [] && busy == []
    {
      outbox, header, writeSize, inFlight := [], seq(HEAD_LEN, _ => 0), 0, 0;
      released, freed, busy, writer, cleared, broken := 0, [], [], NOTHING_WRITTEN, false, false;
    }

    /** Starts the asynchronous write of the front; its buffers are the members themselves. */
    method StartWrite(gap1: seq<byte>, gap2: seq<byte>)
      requires outbox != [] && |outbox[0].m.content| < MAX_BUF_LEN
      requires |gap1| == 2 && |gap2| == 4
      modifies this`header, this`writeSize, this`inFlight, this`busy, this`writer
      ensures header == Layout(HeaderOf(outbox[0].m), gap1, gap2) && writeSize == |outbox[0].m.content|
      ensures inFlight == old(inFlight) + 1 && busy == old(busy) + [outbox[0].buf]
      ensures writer == Begin(old(writer), Frame(outbox[0].m, gap1, gap2))
    {
      var msg := outbox[0].m;
      writeSize := |msg.content|;
      header := Layout(RpcHeader(MAGIC_NUM, msg.reqType, writeSize, msg.reqId, msg.funcId), gap1, gap2);
      inFlight := inFlight + 1;
      busy := busy + [outbox[0].buf];
      writer := Begin(writer, Frame(msg, gap1, gap2));
    }

    /** Queues a request from any thread; a write is started only when the outbox was empty. */
    method Write(reqId: uint64, kind: byte, content: seq<byte>, funcId: uint32, gap1: seq<byte>, gap2: seq<byte>)
      requires Valid() && |content| < MAX_BUF_LEN && |gap1| == 2 && |gap2| == 4
      modifies this`outbox, this`header, this`writeSize, this`inFlight, this`busy, this`released, this`writer
      ensures Valid() && released == old(released) + 1
      ensures Value() == WQ.Push(old(Value()), Message(reqId, kind, content, funcId))
      ensures busy == old(busy) + if old(outbox) == [] then [old(released)] else []
      ensures writer.enqueued == old(writer.enqueued) + [Message(reqId, kind, content, funcId)]
      ensures writer.wire == old(writer.wire)
    {
      var m := Message(reqId, kind, content, funcId);
      ghost var before := Queue(outbox);
      outbox := outbox + [Queued(m, released)];
      released := released + 1;
      assert Queue(outbox) == before + [m];
      if !cleared {
        if before != [] {
          BehindFront(writer, before, m);
        } else {
          IntoEmpty(writer, Frame(m, gap1, gap2));
        }
      }
      writer := Enqueue(writer, m);
      if |outbox| > 1 {
        return;
      }
      StartWrite(gap1, gap2);
    }

    /** The operating system takes `k` more bytes of the only write. */
    method Transmit(k: nat)
      requires Valid() && !cleared && inFlight == 1 && writer.sent + k <= HEAD_LEN + writeSize
      modifies this`writer
      ensures Valid() && writer.sent == old(writer.sent) + k && writer.enqueued == old(writer.enqueued)
      ensures writer.wire == old(writer.wire)
        + (header + outbox[0].m.content[..writeSize])[old(writer.sent)..writer.sent]
      ensures writer.sent == HEAD_LEN + writeSize ==> Value() == WQ.Send(old(Value()))
    {
      assert header + outbox[0].m.content[..writeSize] == FrameBytes(writer.current) by {
        assert outbox[0].m.content[..writeSize] == outbox[0].m.content;
      }
      MoreSent(writer, Queue(outbox), k);
      writer := Writers.Transmit(writer, k);
    }

    /** Completion of a write that did not fail, the `k`-th of those in flight. Its handler frees
        the front, which until the first clearing is the buffer it wrote; afterwards it takes it
        away from another write exactly when one of the writes still in flight reads it. */
    method OnWrite(k: nat, gap1: seq<byte>, gap2: seq<byte>)
      requires Valid() && k < inFlight && |gap1| == 2 && |gap2| == 4
      requires !cleared ==> writer.sent == HEAD_LEN + writeSize
      modifies this`outbox, this`header, this`writeSize, this`inFlight, this`freed, this`busy, this`writer
      ensures Valid()
      ensures !cleared ==> freed == old(freed) + [old(busy)[k]]
      ensures Value() == WQ.Complete(old(Value()))
      ensures freed == old(freed) + if old(outbox) == [] then [] else [old(outbox)[0].buf]
      ensures BuffersSafe() <==>
        && Safe(old(busy)[..k] + old(busy)[k + 1..], old(freed))
        && (old(outbox) != [] ==> old(outbox)[0].buf !in old(busy)[..k] + old(busy)[k + 1..])
      ensures writer.enqueued == old(writer.enqueued) && writer.wire == old(writer.wire)
    {
      EndWrite(k);
      if outbox == [] {
        return;
      }
      SafeFreeing(busy, freed, outbox[0].buf);
      PopAndContinue(gap1, gap2);
    }

    /** The handler's queue part: frees the front, removes it, and starts the next write. */
    method PopAndContinue(gap1: seq<byte>, gap2: seq<byte>)
      requires outbox != [] && Owned(freed, outbox, released) && |gap1| == 2 && |gap2| == 4
      requires forall q :: q in outbox ==> |q.m.content| < MAX_BUF_LEN
      requires !cleared ==> Describes(writer, Queue(outbox)) && writer.sent == |FrameBytes(writer.current)|
      modifies this`outbox, this`header, this`writeSize, this`inFlight, this`freed, this`busy, this`writer
      ensures Owned(freed, outbox, released) && outbox == old(outbox)[1..] && freed == old(freed) + [old(outbox)[0].buf]
      ensures inFlight == old(inFlight) + if outbox == [] then 0 else 1
      ensures busy == old(busy) + if outbox == [] then [] else [outbox[0].buf]
      ensures Safe(busy, freed) <==> Safe(old(busy), freed)
      ensures outbox != [] ==> |outbox[0].m.content| < MAX_BUF_LEN && writer.current == Frame(outbox[0].m, gap1, gap2)
      ensures outbox != [] ==> header == Layout(HeaderOf(outbox[0].m), gap1, gap2) && writeSize == |outbox[0].m.content|
      ensures !cleared ==> Describes(writer, Queue(outbox))
      ensures writer.sent == 0 && writer.enqueued == old(writer.enqueued) && writer.wire == old(writer.wire)
    {
      ghost var queue := Queue(outbox);
      PopFront();
      assert Queue(outbox) == queue[1..];
      if !cleared {
        if queue[1..] == [] {
          LastDone(writer, queue);
        } else {
          NextBegins(writer, queue, Frame(queue[1], gap1, gap2));
        }
      }
      writer := Finish(writer);
      if outbox != [] {
        SafeStarting(busy, freed, outbox[0].buf);
        StartWrite(gap1, gap2);
      }
    }

    /** One write fewer in flight. */
    method EndWrite(k: nat)
      requires k < inFlight == |busy|
      modifies this`inFlight, this`busy
      ensures inFlight == old(inFlight) - 1 && busy == old(busy)[..k] + old(busy)[k + 1..]
    {
      inFlight := inFlight - 1;
      busy := busy[..k] + busy[k + 1..];
    }

    /** Frees the front's buffer and removes it. */
    method PopFront()
      requires outbox != [] && Owned(freed, outbox, released)
      modifies this`outbox, this`freed
      ensures Owned(freed, outbox, released)
      ensures outbox == old(outbox)[1..] && freed == old(freed) + [old(outbox)[0].buf]
    {
      freed := freed + [outbox[0].buf];
      outbox := outbox[1..];
    }

    /** Completion of a write that failed: the queue stays as it is. */
    method OnWriteError(k: nat)
      requires Valid() && k < inFlight
      modifies this`inFlight, this`busy, this`broken
      ensures Valid() && broken && Value() == WQ.Stop(old(Value()))
    {
      EndWrite(k);
      broken := true;
    }

    /** No write in flight reads a buffer that has been freed. */
    ghost predicate BuffersSafe()
      reads this`busy, this`freed
    {
      Safe(busy, freed)
    }

    /** Until the first clearing no buffer is freed while it is being written. */
    lemma SafeUntilCleared()
      requires Valid() && !cleared
      ensures BuffersSafe()
    {
      if inFlight == 1 {
        assert busy[0] == |freed|;
      }
    }

    /** Frees every queued buffer, without regard to writes in flight: the first clearing takes
        away a buffer that is being written exactly when there is a write in flight. */
    method Clear()
      requires Valid()
      modifies this`outbox, this`freed, this`cleared
      ensures Valid() && cleared
      ensures Value() == WQ.Clear(old(Value())) && freed == old(freed) + Bufs(old(outbox))
      ensures BuffersSafe() <==> old(BuffersSafe()) && forall b :: b in busy ==> b !in Bufs(old(outbox))
      ensures !old(cleared) ==> (BuffersSafe() <==> inFlight == 0)
    {
      FirstClearing();
      FreeAll();
    }

    /** What the first clearing finds in flight is the front. */
    lemma FirstClearing()
      requires Valid()
      ensures !cleared && inFlight > 0 ==> busy[0] in Bufs(outbox)
      ensures !cleared ==> BuffersSafe()
    {
      if !cleared {
        SafeUntilCleared();
        if inFlight > 0 {
          assert Bufs(outbox)[0] == outbox[0].buf;
        }
      }
    }

    /** The clearing loop. */
    method FreeAll()
      requires Valid()
      modifies this`outbox, this`freed, this`cleared
      ensures Valid() && cleared
      ensures Value() == WQ.Clear(old(Value())) && freed == old(freed) + Bufs(old(outbox))
    {
      cleared := true;
      while outbox != []
        invariant Valid() && cleared
        invariant freed + Bufs(outbox) == old(freed) + Bufs(old(outbox))
        decreases |outbox|
      {
        ghost var bufs := Bufs(outbox);
        ghost var before := freed;
        PopFront();
        assert bufs == [bufs[0]] + Bufs(outbox);
        Regroup(before, [bufs[0]], Bufs(outbox));
      }
    }
  }

  method WriteOne(gap1: seq<byte>, gap2: seq<byte>) returns (box: Outbox)
    requires |gap1| == 2 && |gap2| == 4
    ensures fresh(box) && box.Valid() && Bufs(box.outbox) == [0] && box.released == 1
    ensures box.busy == [0] && box.freed == []
  {
    box := new Outbox();
    assert |Queue(box.outbox)| == 0;
    box.Write(1, REQ_RES, [0], 7, gap1, gap2);
    assert |Queue(box.outbox)| == 1;
  }

  method WriteAndClear(gap1: seq<byte>, gap2: seq<byte>) returns (box: Outbox)
    requires |gap1| == 2 && |gap2| == 4
    ensures fresh(box) && box.Valid() && box.cleared && box.outbox == [] && box.released == 1
    ensures box.busy == [0] && box.freed == [0]
  {
    box := WriteOne(gap1, gap2);
    box.Clear();
    assert |Queue(box.outbox)| == 0;
  }

  method WriteAgain(gap1: seq<byte>, gap2: seq<byte>) returns (box: Outbox)
    requires |gap1| == 2 && |gap2| == 4
    ensures fresh(box) && box.Valid() && box.cleared && |box.outbox| == 1 && box.outbox[0].buf == 1
    ensures box.busy == [0, 1] && box.freed == [0]
  {
    box := WriteAndClear(gap1, gap2);
    box.Write(2, REQ_RES, [0], 7, gap1, gap2);
    assert |Queue(box.outbox)| == 1;
  }

  /** Two requests with a clearing between them: the completion of the first, cleared write frees
      the buffer that the second one is still reading. */
  method CompletionCanFreeBusy(gap1: seq<byte>, gap2: seq<byte>) returns (box: Outbox)
    requires |gap1| == 2 && |gap2| == 4
    ensures fresh(box) && box.Valid() && box.freed == [0, 1] && !box.BuffersSafe()
  {
    box := WriteAgain(gap1, gap2);
    assert 1 in box.busy[..0] + box.busy[1..];
    box.OnWrite(0, gap1, gap2);
  }
}

/** The batching telemetry writer of sw/airborne/fms/udp_transport2.c. */
module UdpTransport {
  import opened Bytes
  import opened Fletcher

  const STX: uint8 := 0x98
  const PPRZ_PROTOCOL_OVERHEAD := 8
  const BUF_LEN := 1496
  const WATERMARK := 1024

  /** `stamp` is the four bytes of MSG_TIMESTAMP when the message was started. */
  datatype Message = Message(stamp: seq<uint8>, acId: uint8, msgId: uint8, payload: seq<uint8>)

  /** The declared length fits its byte. */
  predicate Sendable(m: Message) {
    |m.stamp| == 4 && |m.payload| <= 245
  }

  predicate AllSendable(ms: seq<Message>) {
    forall k :: 0 <= k < |ms| ==> Sendable(ms[k])
  }

  function Length(m: Message): nat {
    2 + |m.payload| + PPRZ_PROTOCOL_OVERHEAD
  }

  /** What the checksums cover: the whole length of the frame, and all up to the payload. */
  function Covered(m: Message): (s: seq<uint8>)
    requires Sendable(m)
    ensures |s| == Length(m) - 3
  {
    [Length(m)] + m.stamp + [m.acId, m.msgId] + m.payload
  }

  function Frame(m: Message): (s: seq<uint8>)
    requires Sendable(m)
    ensures |s| == Length(m)
  {
    [STX] + Covered(m) + [CkA(Covered(m)), CkB(Covered(m))]
  }

  function Frames(ms: seq<Message>): seq<uint8>
    requires AllSendable(ms)
  {
    if |ms| == 0 then [] else Frames(ms[..|ms| - 1]) + Frame(ms[|ms| - 1])
  }

  lemma FramesSnoc(ms: seq<Message>, m: Message)
    requires AllSendable(ms) && Sendable(m)
    ensures AllSendable(ms + [m]) && Frames(ms + [m]) == Frames(ms) + Frame(m)
  {
    assert (ms + [m])[..|ms|] == ms;
  }

  lemma {:induction false} FramesCons(m: Message, ms: seq<Message>)
    requires Sendable(m) && AllSendable(ms)
    ensures Frames([m] + ms) == Frame(m) + Frames(ms)
  {
    hide Frame, Sendable;
    if |ms| == 0 {
      assert [m] + ms == [m];
      assert [m][..0] == [];
    } else {
      var before := ms[..|ms| - 1];
      FramesCons(m, before);
      assert ([m] + ms)[..|ms|] == [m] + before;
    }
  }

  // ---------- Batches ----------

  /** Datagrams sent, as the messages in each, and the messages still in the buffer. */
  datatype Batches = Batches(written: seq<seq<Message>>, pending: seq<Message>)

  datatype Op = Send(m: Message) | Periodic

  predicate Proper(op: Op) {
    op.Send? ==> Sendable(op.m)
  }

  /** Between calls the buffer is at most as full as the watermark. */
  predicate Valid(b: Batches) {
    && (forall k :: 0 <= k < |b.written| ==> AllSendable(b.written[k]) && |b.written[k]| > 0)
    && AllSendable(b.pending) && |Frames(b.pending)| <= WATERMARK
  }

  function Flushed(b: Batches): Batches {
    Batches(b.written + [b.pending], [])
  }

  function Step(b: Batches, op: Op): Batches
    requires Valid(b) && Proper(op)
  {
    match op
    case Send(m) =>
      FramesSnoc(b.pending, m);
      var b' := b.(pending := b.pending + [m]);
      if |Frames(b'.pending)| > WATERMARK then Flushed(b') else b'
    case Periodic =>
      if |Frames(b.pending)| > 0 then Flushed(b) else b
  }

  /** The invariant of every run; and at its fullest the buffer still has room to spare. */
  lemma StepKeepsValid(b: Batches, op: Op)
    requires Valid(b) && Proper(op)
    ensures Valid(Step(b, op))
    ensures op.Send? ==> |Frames(b.pending)| + Length(op.m) <= WATERMARK + 255 < BUF_LEN
  {
    match op
    case Send(m) =>
      FramesSnoc(b.pending, m);
      hide Frames, Sendable;
      var b' := b.(pending := b.pending + [m]);
    case Periodic =>
      if |b.pending| > 0 {
        assert |Frames(b.pending)| > 0;
      }
  }

  function Run(b: Batches, ops: seq<Op>): (b': Batches)
    requires Valid(b) && forall k :: 0 <= k < |ops| ==> Proper(ops[k])
    ensures Valid(b')
  {
    if |ops| == 0 then b else
      var before := Run(b, ops[..|ops| - 1]);
      StepKeepsValid(before, ops[|ops| - 1]);
      Step(before, ops[|ops| - 1])
  }

  function Sent(ops: seq<Op>): seq<Message> {
    if |ops| == 0 then [] else
      var before, last := Sent(ops[..|ops| - 1]), ops[|ops| - 1];
      if last.Send? then before + [last.m] else before
  }

  function Flatten(mss: seq<seq<Message>>): seq<Message> {
    if |mss| == 0 then [] else Flatten(mss[..|mss| - 1]) + mss[|mss| - 1]
  }

  /** Nothing is lost, duplicated or reordered: the datagrams, then the buffer, hold every
      message sent, and each datagram is whole messages. */
  lemma {:induction false} EveryRunConserves(ops: seq<Op>)
    requires forall k :: 0 <= k < |ops| ==> Proper(ops[k])
    ensures var b := Run(Batches([], []), ops); Flatten(b.written) + b.pending == Sent(ops)
  {
    assert Valid(Batches([], []));
    hide Proper, Frames, Sendable, Valid;
    if |ops| > 0 {
      var before, last := ops[..|ops| - 1], ops[|ops| - 1];
      EveryRunConserves(before);
      var b := Run(Batches([], []), before);
      StepConserves(b, last);
    }
  }

  lemma StepConserves(b: Batches, op: Op)
    requires Valid(b) && Proper(op)
    ensures var b' := Step(b, op);
      Flatten(b'.written) + b'.pending == Flatten(b.written) + b.pending + (if op.Send? then [op.m] else [])
  {
    FlattenSnoc(b.written, b.pending);
    match op
    case Send(m) =>
      FramesSnoc(b.pending, m);
      FlattenSnoc(b.written, b.pending + [m]);
      hide Frames, Valid, Sendable, Flatten;
    case Periodic =>
      hide Frames, Valid, Sendable, Flatten;
  }

  lemma FlattenSnoc(mss: seq<seq<Message>>, ms: seq<Message>)
    ensures Flatten(mss + [ms]) == Flatten(mss) + ms
  {
    assert (mss + [ms])[..|mss|] == mss;
  }

  // ---------- The buffer, filled byte by byte ----------

  /** The bytes of each datagram. */
  function Datagrams(written: seq<seq<Message>>): (ds: seq<seq<uint8>>)
    requires forall k :: 0 <= k < |written| ==> AllSendable(written[k])
    ensures |ds| == |written| && forall k :: 0 <= k < |ds| ==> ds[k] == Frames(written[k])
  {
    seq(|written|, k requires 0 <= k < |written| => Frames(written[k]))
  }

  /** The part of a message that starting it puts in the buffer, after the start byte. The
      length of the frame is taken in one byte. */
  function Started(stamp: seq<uint8>, acId: uint8, msgId: uint8, payloadLen: uint8): seq<uint8> {
    [(2 + payloadLen + PPRZ_PROTOCOL_OVERHEAD) % 0x100] + stamp + [acId, msgId]
  }

  function Joined(pieces: seq<seq<uint8>>): seq<uint8> {
    if |pieces| == 0 then [] else Joined(pieces[..|pieces| - 1]) + pieces[|pieces| - 1]
  }

  lemma {:induction false} JoinedSnoc(pieces: seq<seq<uint8>>, k: nat)
    requires k < |pieces|
    ensures Joined(pieces[..k + 1]) == Joined(pieces[..k]) + pieces[k]
    ensures |Joined(pieces[..k + 1])| <= |Joined(pieces)|
    decreases |pieces|
  {
    assert pieces[..k + 1][..k] == pieces[..k];
    if k + 1 == |pieces| {
      assert pieces[..k + 1] == pieces;
    } else {
      var before := pieces[..|pieces| - 1];
      JoinedSnoc(before, k);
      assert before[..k + 1] == pieces[..k + 1];
    }
  }

  lemma OneByteLength(n: nat)
    ensures (n % 0x100 + PPRZ_PROTOCOL_OVERHEAD) % 0x100 == (n + PPRZ_PROTOCOL_OVERHEAD) % 0x100
  {
  }

  lemma CoveredParts(m: Message)
    requires Sendable(m)
    ensures Started(m.stamp, m.acId, m.msgId, |m.payload|) + m.payload == Covered(m)
    ensures Frame(m) == [STX] + Covered(m) + [CkA(Covered(m)), CkB(Covered(m))]
  {
  }

  lemma Regrouped(before: seq<uint8>, start: seq<uint8>, payload: seq<uint8>, covered: seq<uint8>,
      a: uint8, b: uint8)
    requires start + payload == covered
    ensures before + [STX] + start + payload + [a, b] == before + ([STX] + covered + [a, b])
  {
  }

  lemma EmptyFrames()
    ensures Frames([]) == []
  {
  }

  lemma DatagramsSnoc(written: seq<seq<Message>>, batch: seq<Message>)
    requires (forall k :: 0 <= k < |written| ==> AllSendable(written[k])) && AllSendable(batch)
    ensures forall k :: 0 <= k < |written + [batch]| ==> AllSendable((written + [batch])[k])
    ensures Datagrams(written + [batch]) == Datagrams(written) + [Frames(batch)]
  {
  }

  /** The bytes after a message, in terms of those before it. */
  lemma StepOfBytes(b: Batches, m: Message)
    requires Valid(b) && Sendable(m)
    ensures var b' := Step(b, Send(m)); var whole := Frames(b.pending) + Frame(m);
      && Valid(b')
      && (if |whole| > WATERMARK
          then Frames(b'.pending) == [] && Datagrams(b'.written) == Datagrams(b.written) + [whole]
          else Frames(b'.pending) == whole && Datagrams(b'.written) == Datagrams(b.written))
  {
    StepKeepsValid(b, Send(m));
    FramesSnoc(b.pending, m);
    DatagramsSnoc(b.written, b.pending + [m]);
    EmptyFrames();
    hide Frames, Frame, Sendable, Datagrams;
  }

  class Writer {
    const buf: array<uint8>
    var idx: nat // uint16_t
    var ckA: uint8
    var ckB: uint8
    var network: seq<seq<uint8>> // what network_write was given, a datagram a call

    constructor ()
      ensures Holds(Batches([], [])) && fresh(buf)
    {
      buf := new uint8[BUF_LEN];
      idx, ckA, ckB, network := 0, 0, 0, [];
    }

    ghost predicate Fits()
      reads this
    {
      buf.Length == BUF_LEN && idx <= BUF_LEN
    }

    function Buffered(): seq<uint8>
      requires Fits()
      reads this, buf
    {
      buf[..idx]
    }

    /** The concrete state stands for the batches `b`. */
    ghost predicate Holds(b: Batches)
      reads this, buf
    {
      Fits() && Valid(b) && Buffered() == Frames(b.pending) && network == Datagrams(b.written)
    }

    ghost predicate Sums(covered: seq<uint8>)
      reads this
    {
      ckA == CkA(covered) && ckB == CkB(covered)
    }

    method PutByte(x: uint8)
      requires Fits() && idx < BUF_LEN
      modifies this`idx, buf
      ensures Fits() && Buffered() == old(Buffered()) + [x]
    {
      buf[idx] := x;
      idx := idx + 1;
    }

    method PutUint8(byte: uint8, ghost covered: seq<uint8>)
      requires Fits() && idx < BUF_LEN && Sums(covered)
      modifies this`idx, this`ckA, this`ckB, buf
      ensures Fits() && Buffered() == old(Buffered()) + [byte] && Sums(covered + [byte])
    {
      ckA := AddByte(ckA, byte);
      ckB := AddByte(ckB, ckA);
      CkSnoc(covered, byte);
      PutByte(byte);
    }

    method PutBytes(bytes: seq<uint8>, ghost covered: seq<uint8>)
      requires Fits() && idx + |bytes| <= BUF_LEN && Sums(covered)
      modifies this`idx, this`ckA, this`ckB, buf
      ensures Fits() && Buffered() == old(Buffered()) + bytes && Sums(covered + bytes)
    {
      hide Sums;
      assert covered + bytes[..0] == covered;
      for i := 0 to |bytes|
        invariant Fits() && Buffered() == old(Buffered()) + bytes[..i]
        invariant Sums(covered + bytes[..i])
      {
        PutUint8(bytes[i], covered + bytes[..i]);
        assert covered + bytes[..i] + [bytes[i]] == covered + bytes[..i + 1];
      }
      assert bytes[..|bytes|] == bytes;
    }

    method Header(stamp: seq<uint8>, payloadLen: uint8)
      requires Fits() && |stamp| == 4 && idx + 6 <= BUF_LEN
      modifies this`idx, this`ckA, this`ckB, buf
      ensures var len := (payloadLen + PPRZ_PROTOCOL_OVERHEAD) % 0x100;
        Fits() && Buffered() == old(Buffered()) + [STX] + [len] + stamp && Sums([len] + stamp)
    {
      PutByte(STX);
      var msgLen := (payloadLen + PPRZ_PROTOCOL_OVERHEAD) % 0x100;
      ckA, ckB := 0, 0;
      PutUint8(msgLen, []);
      assert [] + [msgLen] == [msgLen];
      PutBytes(stamp, [msgLen]);
    }

    method StartMessage(stamp: seq<uint8>, acId: uint8, msgId: uint8, payloadLen: uint8)
      requires Fits() && |stamp| == 4 && idx + 8 <= BUF_LEN
      modifies this`idx, this`ckA, this`ckB, buf
      ensures Fits() && Buffered() == old(Buffered()) + [STX] + Started(stamp, acId, msgId, payloadLen)
      ensures Sums(Started(stamp, acId, msgId, payloadLen))
    {
      OneByteLength(2 + payloadLen);
      hide Sums;
      Header(stamp, (2 + payloadLen) % 0x100);
      ghost var start := [(2 + payloadLen + PPRZ_PROTOCOL_OVERHEAD) % 0x100] + stamp;
      PutUint8(acId, start);
      PutUint8(msgId, start + [acId]);
      assert start + [acId] + [msgId] == Started(stamp, acId, msgId, payloadLen);
    }

    method EndMessage(ghost covered: seq<uint8>, ghost written: seq<seq<uint8>>)
      requires Fits() && idx + 2 <= BUF_LEN && Sums(covered) && network == written
      modifies this`idx, this`network, buf
      ensures var whole := old(Buffered()) + [CkA(covered), CkB(covered)];
        && Fits()
        && (if |whole| > WATERMARK then Buffered() == [] && network == written + [whole]
            else Buffered() == whole && network == written)
    {
      PutByte(ckA);
      PutByte(ckB);
      assert Buffered() == old(Buffered()) + [CkA(covered), CkB(covered)];
      if idx > WATERMARK {
        network := network + [buf[..idx]];
        idx := 0;
      }
    }

    method Periodic(ghost b: Batches)
      requires Holds(b)
      modifies this`idx, this`network
      ensures Holds(Step(b, Op.Periodic))
    {
      hide Frames, Sendable;
      StepKeepsValid(b, Op.Periodic);
      if idx > 0 {
        network := network + [buf[..idx]];
        DatagramsSnoc(b.written, b.pending);
        idx := 0;
      }
      EmptyFrames();
    }

    method PutPieces(pieces: seq<seq<uint8>>, ghost covered: seq<uint8>)
      requires Fits() && idx + |Joined(pieces)| <= BUF_LEN && Sums(covered)
      modifies this`idx, this`ckA, this`ckB, buf
      ensures Fits() && Buffered() == old(Buffered()) + Joined(pieces) && Sums(covered + Joined(pieces))
    {
      hide Sums;
      assert covered + Joined(pieces[..0]) == covered;
      for k := 0 to |pieces|
        invariant Fits() && Buffered() == old(Buffered()) + Joined(pieces[..k])
        invariant Sums(covered + Joined(pieces[..k]))
      {
        JoinedSnoc(pieces, k);
        PutBytes(pieces[k], covered + Joined(pieces[..k]));
        assert covered + Joined(pieces[..k]) + pieces[k] == covered + Joined(pieces[..k + 1]);
      }
      assert pieces[..|pieces|] == pieces;
    }

    /** One message: started with the length of its payload, its bytes put in any number of
        pieces, and ended. */
    method PutMessage(stamp: seq<uint8>, acId: uint8, msgId: uint8, pieces: seq<seq<uint8>>)
      requires Fits() && idx <= WATERMARK && |stamp| == 4 && |Joined(pieces)| <= 245
      modifies this`idx, this`ckA, this`ckB, this`network, buf
      ensures var whole := old(Buffered()) + Frame(Message(stamp, acId, msgId, Joined(pieces)));
        && Fits()
        && (if |whole| > WATERMARK then Buffered() == [] && network == old(network) + [whole]
            else Buffered() == whole && network == old(network))
    {
      ghost var m := Message(stamp, acId, msgId, Joined(pieces));
      ghost var before := Buffered();
      ghost var covered := Covered(m);
      ghost var start := Started(stamp, acId, msgId, |Joined(pieces)|);
      CoveredParts(m);
      Regrouped(before, start, Joined(pieces), covered, CkA(covered), CkB(covered));
      hide Frame, Covered, Sums, Joined, CkA, CkB, Started;
      StartMessage(stamp, acId, msgId, |Joined(pieces)|);
      PutPieces(pieces, start);
      assert Buffered() == before + [STX] + start + Joined(pieces);
      EndMessage(covered, old(network));
    }

    method SendMessage(stamp: seq<uint8>, acId: uint8, msgId: uint8, pieces: seq<seq<uint8>>, ghost b: Batches)
      requires Holds(b) && |stamp| == 4 && |Joined(pieces)| <= 245
      modifies this`idx, this`ckA, this`ckB, this`network, buf
      ensures Holds(Step(b, Send(Message(stamp, acId, msgId, Joined(pieces)))))
    {
      StepOfBytes(b, Message(stamp, acId, msgId, Joined(pieces)));
      hide Frames, Frame, Datagrams, Step, Joined;
      PutMessage(stamp, acId, msgId, pieces);
    }
  }
}

/** The on-board logger of sw/airborne/fms/onboard_logger.c: it cuts a captured datagram back
    into the messages the UDP writer batched. */
module OnboardLogger {
  import opened Bytes
  import opened Fletcher
  import opened UdpTransport

  const START: uint8 := 0x98
  const MIN_MSG_LENGTH := 3
  const UDP_HEADER := 8 // the length field of a UDP datagram counts its own header

  /** One printed line. `dump` is what the line shows in hexadecimal. */
  datatype Record =
    | ChecksumMismatch
    | Entry(stampLow: uint8, acId: uint8, msgId: uint8, dump: seq<uint8>)

  /** `buf` begins at the length byte of a message. */
  predicate Readable(buf: seq<uint8>) {
    |buf| >= 7 && MIN_MSG_LENGTH <= buf[0] <= |buf|
  }

  /** The line printed for a message. */
  function RecordOf(buf: seq<uint8>): Record
    requires Readable(buf)
  {
    var length := buf[0];
    var covered := buf[..length - 3];
    if CkA(covered) != buf[length - 3] || CkB(covered) != buf[length - 2] then
      ChecksumMismatch
    else
      Entry(buf[1], buf[5], buf[6], if length < 9 then [] else buf[6..length - 3])
  }

  /** The captured bytes reach far enough past the length the logger believes. */
  predicate Captured(payload: seq<uint8>, n: nat) {
    n + 4 <= |payload|
  }

  /** The lines printed from byte `i` on, for a believed length of `n`. */
  function Split(payload: seq<uint8>, i: nat, n: nat): seq<Record>
    requires Captured(payload, n)
    decreases n - i
  {
    if i >= n || payload[i] != START then
      []
    else
      var j := i + 1;
      var msgLength := payload[j];
      if j + msgLength <= n && msgLength >= MIN_MSG_LENGTH then
        [RecordOf(payload[j..])] + Split(payload, j + msgLength - 1, n)
      else
        Split(payload, j, n)
  }

  // ---------- The loops ----------

  method GotPprzMessage(buf: seq<uint8>) returns (r: Record)
    requires Readable(buf)
    ensures r == RecordOf(buf)
  {
    var length := buf[0];
    var ckA, ckB := 0, 0;
    for i := 0 to length - 3
      invariant ckA == CkA(buf[..i]) && ckB == CkB(buf[..i])
    {
      ckA := AddByte(ckA, buf[i]);
      ckB := AddByte(ckB, ckA);
      CkSnoc(buf[..i], buf[i]);
      assert buf[..i] + [buf[i]] == buf[..i + 1];
    }
    if ckA != buf[length - 3] || ckB != buf[length - 2] {
      return ChecksumMismatch;
    }
    var dump := [];
    var i := 6;
    while i < length - 3
      invariant 6 <= i && (i <= length - 3 || length < 9)
      invariant dump == if length < 9 then [] else buf[6..i]
    {
      dump := dump + [buf[i]];
      i := i + 1;
    }
    r := Entry(buf[1], buf[5], buf[6], dump);
  }

  method GotPacket(payload: seq<uint8>, udpLength: uint16) returns (records: seq<Record>)
    requires Captured(payload, udpLength)
    ensures records == Split(payload, 0, udpLength)
  {
    hide RecordOf;
    records := [];
    var i := 0;
    ghost var all := Split(payload, 0, udpLength);
    while i < udpLength
      invariant records + Split(payload, i, udpLength) == all
      decreases udpLength - i
    {
      ghost var before := Split(payload, i, udpLength);
      if payload[i] != START {
        break;
      }
      i := i + 1;
      var msgLength := payload[i];
      if i + msgLength <= udpLength && msgLength >= MIN_MSG_LENGTH {
        var r := GotPprzMessage(payload[i..]);
        i := i + msgLength - 1;
        assert before == [r] + Split(payload, i, udpLength);
        assert records + before == (records + [r]) + Split(payload, i, udpLength);
        records := records + [r];
      }
    }
    assert records + Split(payload, i, udpLength) == records;
  }

  // ---------- A datagram gives back its messages ----------

  function RecordFor(m: Message): Record
    requires Sendable(m)
  {
    Entry(m.stamp[0], m.acId, m.msgId, [m.msgId] + m.payload)
  }

  function Records(ms: seq<Message>): seq<Record>
    requires AllSendable(ms)
  {
    seq(|ms|, k requires 0 <= k < |ms| => RecordFor(ms[k]))
  }

  lemma FrameBytes(m: Message, rest: seq<uint8>)
    requires Sendable(m)
    ensures var buf := Frame(m)[1..] + rest; var n := Length(m);
      && buf[0] == n && buf[..n - 3] == Covered(m)
      && buf[n - 3] == CkA(Covered(m)) && buf[n - 2] == CkB(Covered(m))
      && buf[1] == m.stamp[0] && buf[5] == m.acId && buf[6] == m.msgId
      && buf[6..n - 3] == [m.msgId] + m.payload
  {
    hide CkA, CkB;
    var covered := Covered(m);
    var buf := Frame(m)[1..] + rest;
    assert buf == covered + [CkA(covered), CkB(covered)] + rest;
    assert forall k :: 0 <= k < |covered| ==> buf[k] == covered[k];
    assert covered[6..] == [m.msgId] + m.payload;
  }

  lemma FrameRecord(m: Message, rest: seq<uint8>)
    requires Sendable(m) && |rest| >= 1
    ensures Readable(Frame(m)[1..] + rest) && RecordOf(Frame(m)[1..] + rest) == RecordFor(m)
  {
    FrameBytes(m, rest);
    hide CkA, CkB, Frame, Covered;
  }

  /** From the start of the frames of `ms`, the logger prints exactly their lines and goes on
      with what follows them. */
  lemma {:induction false} SplitFrames(payload: seq<uint8>, i: nat, n: nat, ms: seq<Message>)
    requires AllSendable(ms) && Captured(payload, n)
    requires i + |Frames(ms)| < n && payload[i..i + |Frames(ms)|] == Frames(ms)
    ensures Split(payload, i, n) == Records(ms) + Split(payload, i + |Frames(ms)|, n)
    decreases |ms|
  {
    hide Frame, Split, RecordOf, RecordFor, Captured, Records;
    if |ms| == 0 {
      assert Records(ms) == [] by { RecordsLength(ms); }
    } else {
      var m, later := ms[0], ms[1..];
      var lines := Split(payload, i + |Frames(ms)|, n);
      assert ms == [m] + later;
      FramesCons(m, later);
      RecordsAppend([m], later);
      assert Records([m]) == [RecordFor(m)] by { RecordsOfOne(m); }
      hide Frames, Sendable;
      SplitOneFrame(payload, i, n, m, Frames(later));
      assert Length(m) + |Frames(later)| == |Frames(ms)|;
      SplitFrames(payload, i + Length(m), n, later);
      assert [RecordFor(m)] + (Records(later) + lines) == [RecordFor(m)] + Records(later) + lines;
    }
  }

  lemma RecordsOfOne(m: Message)
    requires Sendable(m)
    ensures Records([m]) == [RecordFor(m)]
  {
  }

  lemma RecordsAppend(ms: seq<Message>, ms': seq<Message>)
    requires AllSendable(ms) && AllSendable(ms')
    ensures AllSendable(ms + ms') && Records(ms + ms') == Records(ms) + Records(ms')
  {
    hide RecordFor, Sendable;
  }

  lemma SplitOneFrame(payload: seq<uint8>, i: nat, n: nat, m: Message, later: seq<uint8>)
    requires Sendable(m) && Captured(payload, n)
    requires i + Length(m) + |later| < n && payload[i..i + Length(m) + |later|] == Frame(m) + later
    ensures Split(payload, i, n) == [RecordFor(m)] + Split(payload, i + Length(m), n)
    ensures payload[i + Length(m)..i + Length(m) + |later|] == later
  {
    hide CkA, CkB, Covered, RecordOf, RecordFor;
    var L := Length(m);
    assert payload[i..i + L] == Frame(m) by {
      assert payload[i..i + L] == payload[i..i + L + |later|][..L];
    }
    assert payload[i + L..i + L + |later|] == payload[i..i + L + |later|][L..];
    var rest := payload[i + L..];
    assert payload[i + 1..] == Frame(m)[1..] + rest by {
      assert payload[i + 1..i + L] == payload[i..i + L][1..];
    }
    FrameRecord(m, rest);
    FrameBytes(m, rest);
    assert payload[i] == payload[i..i + L][0] == START;
    assert payload[i + 1] == payload[i + 1..][0] == L;
  }

  // ---------- What the bytes behind a datagram add ----------

  /** None of the eight bytes behind a datagram that the logger still takes for it, from the
      `d`-th on, begins what it would print a line for. */
  predicate Quiet(after: seq<uint8>, d: nat)
    requires |after| >= UDP_HEADER + 4
    decreases UDP_HEADER - d
  {
    || d >= UDP_HEADER
    || after[d] != START
    || (!(MIN_MSG_LENGTH <= after[d + 1] <= UDP_HEADER - 1 - d) && Quiet(after, d + 1))
  }

  /** The lines printed for a datagram of the writer, with `after` behind it in the capture. */
  function Printed(ms: seq<Message>, after: seq<uint8>): seq<Record>
    requires AllSendable(ms) && |after| >= UDP_HEADER + 4
  {
    Split(Frames(ms) + after, 0, |Frames(ms)| + UDP_HEADER)
  }

  lemma {:induction false} SplitBehind(frames: seq<uint8>, after: seq<uint8>, d: nat)
    requires |after| >= UDP_HEADER + 4
    ensures Split(frames + after, |frames| + d, |frames| + UDP_HEADER) == [] <==> Quiet(after, d)
    decreases UDP_HEADER - d
  {
    hide RecordOf;
    if d < UDP_HEADER {
      BehindAt(frames, after, d);
      BehindAt(frames, after, d + 1);
      SplitBehind(frames, after, d + 1);
    }
  }

  lemma BehindAt(frames: seq<uint8>, after: seq<uint8>, d: nat)
    requires d < |after|
    ensures (frames + after)[|frames| + d] == after[d]
  {
  }

  /** First comes a line for each message, in order and with the checksums matching, whatever
      bytes follow; the length counts the UDP header, so those bytes can add more lines. */
  lemma DatagramSplits(ms: seq<Message>, after: seq<uint8>)
    requires AllSendable(ms) && |after| >= UDP_HEADER + 4
    ensures Records(ms) <= Printed(ms, after)
    ensures |Printed(ms, after)| == |ms| <==> Quiet(after, 0)
    ensures Printed(ms, after) == Records(ms) <==> Quiet(after, 0)
  {
    hide Split, Frames, Records, Quiet;
    var frames := Frames(ms);
    var payload, n := frames + after, |frames| + UDP_HEADER;
    assert payload[0..0 + |frames|] == frames;
    SplitFrames(payload, 0, n, ms);
    SplitBehind(frames, after, 0);
    RecordsLength(ms);
  }

  lemma RecordsLength(ms: seq<Message>)
    requires AllSendable(ms)
    ensures |Records(ms)| == |ms|
  {
  }

  // ---------- Whole runs ----------

  /** What the logger prints for datagrams `written`, with `after[k]` behind the k-th. */
  function Lines(written: seq<seq<Message>>, after: seq<seq<uint8>>): seq<Record>
    requires |after| == |written| && AllBatchesSendable(written) && LongEnough(after)
  {
    if |written| == 0 then [] else
      var n := |written| - 1;
      Lines(written[..n], after[..n]) + Printed(written[n], after[n])
  }

  predicate AllBatchesSendable(written: seq<seq<Message>>) {
    forall k :: 0 <= k < |written| ==> AllSendable(written[k])
  }

  predicate LongEnough(after: seq<seq<uint8>>) {
    forall k :: 0 <= k < |after| ==> |after[k]| >= UDP_HEADER + 4
  }

  predicate AllQuiet(after: seq<seq<uint8>>)
    requires LongEnough(after)
  {
    forall k :: 0 <= k < |after| ==> Quiet(after[k], 0)
  }

  lemma {:induction false} LoggedBatches(written: seq<seq<Message>>, after: seq<seq<uint8>>)
    requires |after| == |written| && AllBatchesSendable(written) && LongEnough(after)
    ensures AllSendable(Flatten(written))
    ensures |Flatten(written)| <= |Lines(written, after)|
    ensures |Flatten(written)| == |Lines(written, after)| <==> AllQuiet(after)
    ensures AllQuiet(after) ==> Lines(written, after) == Records(Flatten(written))
  {
    hide Printed, Sendable, Records, Quiet;
    if |written| == 0 {
      RecordsLength([]);
    } else {
      var n := |written| - 1;
      var w, last := written[..n], written[n];
      LoggedBatches(w, after[..n]);
      DatagramSplits(last, after[n]);
      RecordsLength(last);
      RecordsAppend(Flatten(w), last);
      assert AllQuiet(after) <==> AllQuiet(after[..n]) && Quiet(after[n], 0);
    }
  }

  /** Writer to logger, over any run of messages and flushes: the lines printed for the datagrams
      written, followed by those the buffer will give, are exactly those of the messages sent, in
      order, if and only if the bytes behind every datagram are quiet. */
  lemma LoggedRun(ops: seq<Op>, after: seq<seq<uint8>>)
    requires forall k :: 0 <= k < |ops| ==> Proper(ops[k])
    requires |after| == |Run(Batches([], []), ops).written| && LongEnough(after)
    ensures AllSendable(Sent(ops)) && AllBatchesSendable(Run(Batches([], []), ops).written)
    ensures var b := Run(Batches([], []), ops);
      Lines(b.written, after) + Records(b.pending) == Records(Sent(ops)) <==> AllQuiet(after)
  {
    var b := Run(Batches([], []), ops);
    EveryRunConserves(ops);
    assert AllBatchesSendable(b.written) && AllSendable(b.pending);
    hide Run, Sent, Lines, Records, Sendable, Quiet, AllQuiet, LongEnough;
    LoggedBatches(b.written, after);
    RecordsAppend(Flatten(b.written), b.pending);
    RecordsLength(Flatten(b.written) + b.pending);
    RecordsLength(b.pending);
  }
}

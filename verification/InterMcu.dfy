/** The framed byte link between the two processors, sw/airborne/link_mcu_usart.c:
    the sending macros, the byte parser and the event task. */
module InterMcu {
  import opened Bytes
  import opened Fletcher

  const SYNC1: uint8 := 0xB5
  const SYNC2: uint8 := 0x62
  const MAX_PAYLOAD := 255

  const UNINIT := 0
  const GOT_SYNC1 := 1
  const GOT_SYNC2 := 2
  const GOT_CLASS := 3
  const GOT_ID := 4
  const GOT_LEN1 := 5
  const GOT_LEN2 := 6
  const GOT_PAYLOAD := 7
  const GOT_CHECKSUM1 := 8

  datatype Message = Message(msgClass: uint8, msgId: uint8, payload: seq<uint8>)

  // ---------- Frames on the wire ----------

  /** What the checksums cover, with the length the sender declares. */
  function Covered(msgClass: uint8, msgId: uint8, len: uint16, payload: seq<uint8>): seq<uint8> {
    [msgClass, msgId, len % 0x100, len / 0x100] + payload
  }

  function FrameWith(msgClass: uint8, msgId: uint8, len: uint16, payload: seq<uint8>): seq<uint8> {
    var covered := Covered(msgClass, msgId, len, payload);
    [SYNC1, SYNC2] + covered + [CkA(covered), CkB(covered)]
  }

  function Frame(m: Message): seq<uint8>
    requires |m.payload| <= MAX_PAYLOAD
  {
    FrameWith(m.msgClass, m.msgId, |m.payload|, m.payload)
  }

  // ---------- intermcu_parse ----------

  datatype Parser = Parser(
    msgAvailable: bool,
    msgBuf: seq<uint8>,
    msgId: uint8,
    msgClass: uint8,
    status: nat,
    len: uint16,
    msgIdx: uint8,
    ckA: uint8,
    ckB: uint8,
    errorCnt: uint8)

  /** The parser's invariant. A message waiting to be read is never being overwritten. */
  predicate Sound(p: Parser) {
    && |p.msgBuf| == MAX_PAYLOAD
    && p.status <= GOT_CHECKSUM1
    && (p.status == GOT_LEN1 ==> p.len < 0x100)
    && (p.status > GOT_LEN1 ==> p.len <= MAX_PAYLOAD)
    && (p.status == GOT_LEN2 ==> p.msgIdx < p.len || p.msgIdx == 0)
    && (p.msgAvailable ==> p.status <= GOT_SYNC2 && p.len <= MAX_PAYLOAD)
  }

  function Rejected(p: Parser): Parser {
    p.(errorCnt := AddByte(p.errorCnt, 1), status := UNINIT)
  }

  function Summed(p: Parser, c: uint8): Parser {
    if p.status < GOT_PAYLOAD then
      p.(ckA := AddByte(p.ckA, c), ckB := AddByte(p.ckB, AddByte(p.ckA, c)))
    else
      p
  }

  function Parsed(p0: Parser, c: uint8): (q: Parser)
    requires Sound(p0)
    ensures Sound(q)
  {
    var p := Summed(p0, c);
    if p.status == UNINIT then
      if c == SYNC1 then p.(status := GOT_SYNC1) else p
    else if p.status == GOT_SYNC1 then
      if c != SYNC2 then Rejected(p) else p.(ckA := 0, ckB := 0, status := GOT_SYNC2)
    else if p.status == GOT_SYNC2 then
      if p.msgAvailable then Rejected(p) else p.(msgClass := c, status := GOT_CLASS)
    else if p.status == GOT_CLASS then
      p.(msgId := c, status := GOT_ID)
    else if p.status == GOT_ID then
      p.(len := c, status := GOT_LEN1)
    else if p.status == GOT_LEN1 then
      var len := p.len + 0x100 * c;
      if len > MAX_PAYLOAD then Rejected(p.(len := len))
      else p.(len := len, msgIdx := 0, status := GOT_LEN2)
    else if p.status == GOT_LEN2 then
      var idx := AddByte(p.msgIdx, 1);
      p.(msgBuf := p.msgBuf[p.msgIdx := c], msgIdx := idx,
         status := if idx >= p.len then GOT_PAYLOAD else GOT_LEN2)
    else if p.status == GOT_PAYLOAD then
      if c != p.ckA then Rejected(p) else p.(status := GOT_CHECKSUM1)
    else
      if c != p.ckB then Rejected(p) else p.(msgAvailable := true, status := UNINIT)
  }

  function MessageOf(p: Parser): Message
    requires Sound(p) && p.msgAvailable
  {
    Message(p.msgClass, p.msgId, p.msgBuf[..p.len])
  }

  /** A message not yet read survives any further byte. */
  lemma WaitingMessageSurvives(p: Parser, c: uint8)
    requires Sound(p) && p.msgAvailable
    ensures Parsed(p, c).msgAvailable && MessageOf(Parsed(p, c)) == MessageOf(p)
  {
  }

  // ---------- Reading a stream ----------

  /** Messages a reader gets that takes each one as soon as it is complete. */
  datatype Reading = Reading(parser: Parser, messages: seq<Message>)

  function Taken(p: Parser): (r: Reading)
    requires Sound(p)
    ensures Sound(r.parser) && !r.parser.msgAvailable
  {
    if p.msgAvailable then Reading(p.(msgAvailable := false), [MessageOf(p)]) else Reading(p, [])
  }

  function Read(p: Parser, bytes: seq<uint8>): (r: Reading)
    requires Sound(p)
    ensures Sound(r.parser)
  {
    if |bytes| == 0 then
      Reading(p, [])
    else
      Then(Read(p, bytes[..|bytes| - 1]), bytes[|bytes| - 1])
  }

  function Then(before: Reading, c: uint8): (r: Reading)
    requires Sound(before.parser)
    ensures Sound(r.parser)
  {
    var last := Taken(Parsed(before.parser, c));
    Reading(last.parser, before.messages + last.messages)
  }

  lemma ReadNothing(p: Parser)
    requires Sound(p)
    ensures Read(p, []) == Reading(p, [])
  {
  }

  lemma ReadSnoc(p: Parser, s: seq<uint8>, c: uint8)
    requires Sound(p)
    ensures Read(p, s + [c]) == Then(Read(p, s), c)
  {
    hide Then, Sound;
    assert (s + [c])[..|s|] == s;
  }

  lemma ThenAppends(parser: Parser, first: seq<Message>, second: seq<Message>, c: uint8)
    requires Sound(parser)
    ensures var r := Then(Reading(parser, second), c);
      Then(Reading(parser, first + second), c) == Reading(r.parser, first + r.messages)
  {
    hide Parsed, Taken, Sound;
  }

  lemma ThenQuiet(p: Parser, c: uint8)
    requires Sound(p) && !Parsed(p, c).msgAvailable
    ensures Then(Reading(p, []), c) == Reading(Parsed(p, c), [])
  {
    hide Parsed, Sound;
  }

  lemma {:induction false} ReadAppends(p: Parser, s: seq<uint8>, t: seq<uint8>)
    requires Sound(p)
    ensures var first := Read(p, s); var second := Read(first.parser, t);
      Read(p, s + t) == Reading(second.parser, first.messages + second.messages)
  {
    hide Then, Sound;
    var first := Read(p, s);
    if |t| == 0 {
      assert s + t == s;
    } else {
      var t', c := t[..|t| - 1], t[|t| - 1];
      ReadAppends(p, s, t');
      assert s + t == (s + t') + [c];
      ReadSnoc(p, s + t', c);
      var second := Read(first.parser, t');
      ThenAppends(second.parser, first.messages, second.messages, c);
    }
  }

  lemma ReadThree(p: Parser, a: seq<uint8>, p1: Parser, ms: seq<Message>, b: seq<uint8>, p2: Parser, c: seq<uint8>)
    requires Sound(p) && Sound(p1) && Sound(p2)
    requires Read(p, a) == Reading(p1, ms) && Read(p1, b) == Reading(p2, [])
    ensures Read(p, a + b + c) == Reading(Read(p2, c).parser, ms + Read(p2, c).messages)
  {
    hide Read, Sound;
    ReadAppends(p, a, b);
    assert ms + [] == ms;
    assert Read(p, a + b) == Reading(p2, ms);
    ReadAppends(p, a + b, c);
  }

  predicate Idle(p: Parser) {
    Sound(p) && p.status == UNINIT && !p.msgAvailable
  }

  // ---------- A whole frame ----------

  /** The parser has read a header and the bytes `got` of its payload. */
  ghost predicate Reached(p: Parser, msgClass: uint8, msgId: uint8, len: uint16, got: seq<uint8>, errors: uint8) {
    && Sound(p) && !p.msgAvailable && p.errorCnt == errors
    && p.msgClass == msgClass && p.msgId == msgId && p.len == len
    && |got| <= len <= MAX_PAYLOAD && 1 <= len
    && p.status == (if |got| == len then GOT_PAYLOAD else GOT_LEN2)
    && (|got| < len ==> p.msgIdx == |got|)
    && p.msgBuf[..|got|] == got
    && p.ckA == CkA(Covered(msgClass, msgId, len, got))
    && p.ckB == CkB(Covered(msgClass, msgId, len, got))
  }

  lemma ReachedOneMore(p: Parser, msgClass: uint8, msgId: uint8, len: uint16, got: seq<uint8>, errors: uint8, c: uint8)
    requires Reached(p, msgClass, msgId, len, got, errors) && |got| < len
    ensures Reached(Parsed(p, c), msgClass, msgId, len, got + [c], errors)
  {
    CoveredSnoc(msgClass, msgId, len, got, c);
    hide CkA, CkB, Covered;
    var q := Parsed(p, c);
    assert q == p.(msgBuf := p.msgBuf[|got| := c], msgIdx := AddByte(|got|, 1),
      status := if |got| + 1 >= len then GOT_PAYLOAD else GOT_LEN2,
      ckA := AddByte(p.ckA, c), ckB := AddByte(p.ckB, AddByte(p.ckA, c)));
    hide Parsed;
    Stored(p.msgBuf, got, c);
  }

  lemma Stored(buf: seq<uint8>, got: seq<uint8>, c: uint8)
    requires |got| < |buf| && buf[..|got|] == got
    ensures buf[|got| := c][..|got| + 1] == got + [c]
  {
  }

  lemma CoveredSnoc(msgClass: uint8, msgId: uint8, len: uint16, got: seq<uint8>, c: uint8)
    ensures var before := Covered(msgClass, msgId, len, got); var after := Covered(msgClass, msgId, len, got + [c]);
      && CkA(after) == AddByte(CkA(before), c)
      && CkB(after) == AddByte(CkB(before), AddByte(CkA(before), c))
  {
    hide CkA, CkB, AddByte;
    CkSnoc(Covered(msgClass, msgId, len, got), c);
    assert Covered(msgClass, msgId, len, got) + [c] == Covered(msgClass, msgId, len, got + [c]);
  }

  lemma {:induction false} ReadPayload(p: Parser, msgClass: uint8, msgId: uint8, len: uint16,
      payload: seq<uint8>, errors: uint8)
    requires Reached(p, msgClass, msgId, len, [], errors) && |payload| <= len
    ensures Read(p, payload).messages == []
    ensures Reached(Read(p, payload).parser, msgClass, msgId, len, payload, errors)
  {
    hide Parsed, CkA, CkB, Covered;
    if |payload| > 0 {
      var n := |payload| - 1;
      ReadPayload(p, msgClass, msgId, len, payload[..n], errors);
      ReachedOneMore(Read(p, payload[..n]).parser, msgClass, msgId, len, payload[..n], errors, payload[n]);
      assert payload[..n] + [payload[n]] == payload;
    }
  }

  lemma ReadHeader(p: Parser, msgClass: uint8, msgId: uint8, len: uint8)
    requires Idle(p) && 1 <= len
    ensures var r := Read(p, [SYNC1, SYNC2, msgClass] + [msgId, len, 0]);
      r.messages == [] && Reached(r.parser, msgClass, msgId, len, [], p.errorCnt)
  {
    var p3 := ReadFirstHalf(p, msgClass);
    var p6 := ReadSecondHalf(p3, msgClass, msgId, len);
    hide Read, Sound, CkA, CkB, Covered;
    ReadAppends(p, [SYNC1, SYNC2, msgClass], [msgId, len, 0]);
  }

  lemma ReadFirstHalf(p: Parser, msgClass: uint8) returns (p3: Parser)
    requires Idle(p)
    ensures Read(p, [SYNC1, SYNC2, msgClass]) == Reading(p3, [])
    ensures Sound(p3) && p3.status == GOT_CLASS && !p3.msgAvailable && p3.errorCnt == p.errorCnt
    ensures p3.msgClass == msgClass && p3.ckA == AddByte(0, msgClass) && p3.ckB == AddByte(0, p3.ckA)
  {
    var p1 := Parsed(p, SYNC1);
    var p2 := Parsed(p1, SYNC2);
    p3 := Parsed(p2, msgClass);
    hide Read;
    ReadTriple(p, p1, p2, p3, [SYNC1, SYNC2, msgClass]);
  }

  lemma ReadSecondHalf(p3: Parser, msgClass: uint8, msgId: uint8, len: uint8) returns (p6: Parser)
    requires Sound(p3) && p3.status == GOT_CLASS && !p3.msgAvailable && 1 <= len
    requires p3.msgClass == msgClass && p3.ckA == AddByte(0, msgClass) && p3.ckB == AddByte(0, p3.ckA)
    ensures Read(p3, [msgId, len, 0]) == Reading(p6, [])
    ensures Reached(p6, msgClass, msgId, len, [], p3.errorCnt)
  {
    var p4 := Parsed(p3, msgId);
    var p5 := Parsed(p4, len);
    p6 := Parsed(p5, 0);
    SecondHalfReached(p3, p4, p5, p6, msgClass, msgId, len);
    hide Read, Parsed, Reached;
    ReadTriple(p3, p4, p5, p6, [msgId, len, 0]);
  }

  lemma SecondHalfReached(p3: Parser, p4: Parser, p5: Parser, p6: Parser,
      msgClass: uint8, msgId: uint8, len: uint8)
    requires Sound(p3) && p3.status == GOT_CLASS && !p3.msgAvailable && 1 <= len
    requires p3.msgClass == msgClass && p3.ckA == AddByte(0, msgClass) && p3.ckB == AddByte(0, p3.ckA)
    requires p4 == Parsed(p3, msgId) && p5 == Parsed(p4, len) && p6 == Parsed(p5, 0)
    ensures !p4.msgAvailable && !p5.msgAvailable
    ensures Reached(p6, msgClass, msgId, len, [], p3.errorCnt)
  {
    hide CkA, CkB, AddByte;
    HeaderSums(p3, p4, p5, p6, msgClass, msgId, len);
    assert Covered(msgClass, msgId, len, []) == [msgClass, msgId, len, 0];
  }

  lemma HeaderSums(p3: Parser, p4: Parser, p5: Parser, p6: Parser,
      msgClass: uint8, msgId: uint8, len: uint8)
    requires p3.ckA == AddByte(0, msgClass) && p3.ckB == AddByte(0, p3.ckA)
    requires p4.ckA == AddByte(p3.ckA, msgId) && p4.ckB == AddByte(p3.ckB, p4.ckA)
    requires p5.ckA == AddByte(p4.ckA, len) && p5.ckB == AddByte(p4.ckB, p5.ckA)
    requires p6.ckA == AddByte(p5.ckA, 0) && p6.ckB == AddByte(p5.ckB, p6.ckA)
    ensures p6.ckA == CkA([msgClass, msgId, len, 0]) && p6.ckB == CkB([msgClass, msgId, len, 0])
  {
    assert CkA([]) == 0 && CkB([]) == 0;
    hide CkA, CkB, AddByte;
    assert [] + [msgClass] == [msgClass];
    CkSnoc([], msgClass);
    assert [msgClass] + [msgId] == [msgClass, msgId];
    CkSnoc([msgClass], msgId);
    assert [msgClass, msgId] + [len] == [msgClass, msgId, len];
    CkSnoc([msgClass, msgId], len);
    assert [msgClass, msgId, len] + [0] == [msgClass, msgId, len, 0];
    CkSnoc([msgClass, msgId, len], 0);
  }

  lemma ReadPrefix(p: Parser, s: seq<uint8>, k: nat)
    requires Sound(p) && k < |s|
    ensures Read(p, s[..k + 1]) == Then(Read(p, s[..k]), s[k])
  {
    hide Read, Then, Sound;
    assert s[..k + 1] == s[..k] + [s[k]];
    ReadSnoc(p, s[..k], s[k]);
  }

  lemma ReadTriple(p: Parser, p1: Parser, p2: Parser, p3: Parser, s: seq<uint8>)
    requires |s| == 3
    requires Sound(p) && Parsed(p, s[0]) == p1 && !p1.msgAvailable
    requires Parsed(p1, s[1]) == p2 && !p2.msgAvailable
    requires Parsed(p2, s[2]) == p3 && !p3.msgAvailable
    ensures Read(p, s) == Reading(p3, [])
  {
    ReadNothing(p);
    hide Parsed, Read, Sound, Then;
    ReadPrefix(p, s, 0);
    ThenQuiet(p, s[0]);
    ReadPrefix(p, s, 1);
    ThenQuiet(p1, s[1]);
    ReadPrefix(p, s, 2);
    ThenQuiet(p2, s[2]);
    assert s[..0] == [] && s[..3] == s;
  }

  /** What a parser that has read `got` completely makes of the two bytes that follow. */
  lemma ReadTrailer(p: Parser, msgClass: uint8, msgId: uint8, len: uint16, got: seq<uint8>, errors: uint8,
      x: uint8, y: uint8)
    requires Reached(p, msgClass, msgId, len, got, errors) && |got| == len
    ensures var r := Read(p, [x, y]); var covered := Covered(msgClass, msgId, len, got);
      if x == CkA(covered) && y == CkB(covered) then
        r.messages == [Message(msgClass, msgId, got)] && Idle(r.parser) && r.parser.errorCnt == errors
      else
        && r.messages == [] && !r.parser.msgAvailable && r.parser.errorCnt == AddByte(errors, 1)
        && (r.parser.status == UNINIT || (x != CkA(covered) && y == SYNC1 && r.parser.status == GOT_SYNC1))
  {
    hide CkA, CkB, Covered;
    var q := Parsed(p, x);
    ReadNothing(p);
    hide Read;
    ReadSnoc(p, [], x);
    ThenQuiet(p, x);
    assert [] + [x] == [x];
    ReadSnoc(p, [x], y);
    assert [x] + [y] == [x, y];
  }

  /** A frame with any two bytes for its trailer, met between messages: accepted with exactly
      its payload if both are right, and otherwise dropped and counted as one error. */
  lemma ReadFrame(p: Parser, msgClass: uint8, msgId: uint8, payload: seq<uint8>, x: uint8, y: uint8)
    requires Idle(p) && 1 <= |payload| <= MAX_PAYLOAD
    ensures var covered := Covered(msgClass, msgId, |payload|, payload);
      var r := Read(p, [SYNC1, SYNC2] + covered + [x, y]);
      if x == CkA(covered) && y == CkB(covered) then
        r.messages == [Message(msgClass, msgId, payload)] && Idle(r.parser) && r.parser.errorCnt == p.errorCnt
      else
        && r.messages == [] && !r.parser.msgAvailable && r.parser.errorCnt == AddByte(p.errorCnt, 1)
        && (r.parser.status == UNINIT || (x != CkA(covered) && y == SYNC1 && r.parser.status == GOT_SYNC1))
  {
    var header := [SYNC1, SYNC2, msgClass] + [msgId, |payload|, 0];
    ReadHeader(p, msgClass, msgId, |payload|);
    var p1 := Read(p, header).parser;
    ReadPayload(p1, msgClass, msgId, |payload|, payload, p.errorCnt);
    var p2 := Read(p1, payload).parser;
    ReadTrailer(p2, msgClass, msgId, |payload|, payload, p.errorCnt, x, y);
    FrameParts(msgClass, msgId, payload, x, y);
    assert Sound(p) && Sound(p1) && Sound(p2);
    hide Read, CkA, CkB, Covered, Reached, Idle, Sound;
    ReadThree(p, header, p1, [], payload, p2, [x, y]);
  }

  lemma FrameParts(msgClass: uint8, msgId: uint8, payload: seq<uint8>, x: uint8, y: uint8)
    requires |payload| <= MAX_PAYLOAD
    ensures [SYNC1, SYNC2] + Covered(msgClass, msgId, |payload|, payload) + [x, y]
      == [SYNC1, SYNC2, msgClass] + [msgId, |payload|, 0] + payload + [x, y]
  {
  }

  // ---------- Streams of frames between noise ----------

  predicate Noise(s: seq<uint8>) {
    SYNC1 !in s
  }

  /** A message that can be sent as one frame. */
  predicate Sendable(m: Message) {
    1 <= |m.payload| <= MAX_PAYLOAD
  }

  datatype Section = Section(noise: seq<uint8>, message: Message)

  predicate Clean(sections: seq<Section>) {
    forall k :: 0 <= k < |sections| ==> Noise(sections[k].noise) && Sendable(sections[k].message)
  }

  function Stream(sections: seq<Section>): seq<uint8>
    requires Clean(sections)
  {
    if |sections| == 0 then
      []
    else
      var last := sections[|sections| - 1];
      Stream(sections[..|sections| - 1]) + last.noise + Frame(last.message)
  }

  function Messages(sections: seq<Section>): (ms: seq<Message>)
    ensures |ms| == |sections| && forall k :: 0 <= k < |ms| ==> ms[k] == sections[k].message
  {
    seq(|sections|, k requires 0 <= k < |sections| => sections[k].message)
  }

  lemma {:induction false} ReadNoise(p: Parser, noise: seq<uint8>)
    requires Idle(p) && Noise(noise)
    ensures var r := Read(p, noise);
      r.messages == [] && Idle(r.parser) && r.parser.errorCnt == p.errorCnt
  {
    if |noise| > 0 {
      ReadNoise(p, noise[..|noise| - 1]);
    }
  }

  /** Reading a clean stream gives exactly the messages sent, whole and in order, without one error. */
  lemma {:induction false} ReadStream(p: Parser, sections: seq<Section>, tail: seq<uint8>)
    requires Idle(p) && Clean(sections) && Noise(tail)
    ensures var r := Read(p, Stream(sections) + tail);
      r.messages == Messages(sections) && Idle(r.parser) && r.parser.errorCnt == p.errorCnt
  {
    var n := |sections|;
    var p1 := Read(p, Stream(sections)).parser;
    ReadSections(p, sections);
    ReadNoise(p1, tail);
    hide Read, Stream, Idle, Noise, Clean;
    ReadAppends(p, Stream(sections), tail);
  }

  lemma {:induction false} ReadSections(p: Parser, sections: seq<Section>)
    requires Idle(p) && Clean(sections)
    ensures var r := Read(p, Stream(sections));
      r.messages == Messages(sections) && Idle(r.parser) && r.parser.errorCnt == p.errorCnt
  {
    assert Sound(p);
    hide Read, Frame, Noise, Messages, Sound;
    if |sections| == 0 {
      ReadNothing(p);
    } else {
      var n := |sections| - 1;
      var before, last := sections[..n], sections[n];
      assert Clean(before) && Noise(last.noise) && Sendable(last.message);
      hide Clean, Idle;
      ReadSections(p, before);
      var p1 := Read(p, Stream(before)).parser;
      ReadNoise(p1, last.noise);
      var p2 := Read(p1, last.noise).parser;
      ReadSentFrame(p2, last.message);
      MessagesSnoc(sections);
      ReadThree(p, Stream(before), p1, Messages(before), last.noise, p2, Frame(last.message));
    }
  }

  lemma MessagesSnoc(sections: seq<Section>)
    requires |sections| > 0
    ensures var n := |sections| - 1;
      Messages(sections) == Messages(sections[..n]) + [sections[n].message]
  {
  }

  lemma ReadSentFrame(p: Parser, m: Message)
    requires Idle(p) && Sendable(m)
    ensures var r := Read(p, Frame(m));
      r.messages == [m] && Idle(r.parser) && r.parser.errorCnt == p.errorCnt
  {
    hide Read, CkA, CkB, Idle;
    var covered := Covered(m.msgClass, m.msgId, |m.payload|, m.payload);
    ReadFrame(p, m.msgClass, m.msgId, m.payload, CkA(covered), CkB(covered));
  }

  // ---------- The event task over any arrival of the bytes ----------

  lemma ReadOne(p: Parser, c: uint8)
    requires Sound(p)
    ensures Read(p, [c]) == Taken(Parsed(p, c))
  {
    ReadNothing(p);
    hide Read, Parsed, Sound;
    ReadSnoc(p, [], c);
    assert [] + [c] == [c];
  }

  datatype Drained = Drained(parser: Parser, rx: seq<uint8>)

  /** The loop of the event task: parse while there is a byte and no message waits. */
  function Drain(p: Parser, rx: seq<uint8>): (d: Drained)
    requires Sound(p)
    ensures Sound(d.parser)
    ensures |d.rx| <= |rx| && (|rx| > 0 && !p.msgAvailable ==> |d.rx| < |rx|)
    ensures d.rx == [] || d.parser.msgAvailable
    decreases |rx|
  {
    if |rx| == 0 || p.msgAvailable then Drained(p, rx) else Drain(Parsed(p, rx[0]), rx[1..])
  }

  /** Bytes received and not yet parsed, the parser, and the messages handed on. */
  datatype Link = Link(parser: Parser, rx: seq<uint8>, delivered: seq<Message>)

  datatype Event = Arrive(bytes: seq<uint8>) | Task

  function Step(l: Link, e: Event): (l': Link)
    requires Sound(l.parser)
    ensures Sound(l'.parser)
  {
    match e
    case Arrive(bytes) => l.(rx := l.rx + bytes)
    case Task =>
      var d := Drain(l.parser, l.rx);
      var t := Taken(d.parser);
      Link(t.parser, d.rx, l.delivered + t.messages)
  }

  function Run(l: Link, events: seq<Event>): (l': Link)
    requires Sound(l.parser)
    ensures Sound(l'.parser)
  {
    if |events| == 0 then l else Step(Run(l, events[..|events| - 1]), events[|events| - 1])
  }

  function Arrived(events: seq<Event>): seq<uint8> {
    if |events| == 0 then [] else
      var before, last := Arrived(events[..|events| - 1]), events[|events| - 1];
      if last.Arrive? then before + last.bytes else before
  }

  /** A message that waits when the loop starts is taken before anything else is read. */
  lemma {:induction false} DrainReads(p: Parser, rx: seq<uint8>)
    requires Sound(p)
    ensures var t0 := Taken(p); var d := Drain(p, rx); var t := Taken(d.parser);
      var whole := Read(t0.parser, rx); var rest := Read(t.parser, d.rx);
      whole.parser == rest.parser && t0.messages + whole.messages == t.messages + rest.messages
    decreases |rx|
  {
    hide Read, Parsed, Sound, MessageOf;
    if |rx| > 0 && !p.msgAvailable {
      var p1 := Parsed(p, rx[0]);
      var t1 := Taken(p1);
      DrainReads(p1, rx[1..]);
      ReadOne(p, rx[0]);
      ReadAppends(p, [rx[0]], rx[1..]);
      assert [rx[0]] + rx[1..] == rx;
    }
  }

  /** What has been handed on, then what the bytes still waiting will give, is what the whole
      stream gives when read at once. */
  ghost predicate Coherent(start: Parser, arrived: seq<uint8>, l: Link)
    requires Sound(start)
  {
    && Sound(l.parser) && !l.parser.msgAvailable
    && var rest := Read(l.parser, l.rx);
      Read(start, arrived) == Reading(rest.parser, l.delivered + rest.messages)
  }

  lemma StepKeepsCoherent(start: Parser, arrived: seq<uint8>, l: Link, e: Event)
    requires Sound(start) && Coherent(start, arrived, l)
    ensures Coherent(start, if e.Arrive? then arrived + e.bytes else arrived, Step(l, e))
  {
    hide Read, Sound, MessageOf, Drain;
    match e
    case Arrive(bytes) =>
      ReadAppends(start, arrived, bytes);
      ReadAppends(l.parser, l.rx, bytes);
    case Task =>
      DrainReads(l.parser, l.rx);
      var t := Taken(Drain(l.parser, l.rx).parser);
      var rest := Read(t.parser, Drain(l.parser, l.rx).rx);
      assert l.delivered + (t.messages + rest.messages) == (l.delivered + t.messages) + rest.messages;
  }

  /** However the bytes are split over calls of the task, and whatever they are, no message waits
      between calls (so the overrun branch of the parser is never taken), and what is delivered
      does not depend on the split. */
  lemma {:induction false} EveryRunIsCoherent(start: Parser, events: seq<Event>)
    requires Sound(start) && !start.msgAvailable
    ensures Coherent(start, Arrived(events), Run(Link(start, [], []), events))
  {
    if |events| == 0 {
      ReadNothing(start);
    } else {
      var n := |events| - 1;
      EveryRunIsCoherent(start, events[..n]);
      hide Coherent, Step, Sound;
      StepKeepsCoherent(start, Arrived(events[..n]), Run(Link(start, [], []), events[..n]), events[n]);
    }
  }

  /** A clean stream is delivered exactly, once all its bytes are parsed, without one error. */
  lemma CleanRunDelivers(start: Parser, events: seq<Event>, sections: seq<Section>, tail: seq<uint8>)
    requires Idle(start) && Clean(sections) && Noise(tail)
    requires Arrived(events) == Stream(sections) + tail
    ensures var l := Run(Link(start, [], []), events);
      && l.delivered + Read(l.parser, l.rx).messages == Messages(sections)
      && (l.rx == [] ==> l.delivered == Messages(sections) && l.parser.errorCnt == start.errorCnt)
  {
    EveryRunIsCoherent(start, events);
    ReadStream(start, sections, tail);
    var l := Run(Link(start, [], []), events);
    ReadNothing(l.parser);
    hide Read, Run, Stream, Messages, Clean, Noise, Sound;
  }

  /** Before the whole stream has arrived, the messages delivered are the first ones sent. */
  lemma PartialRunDelivers(start: Parser, events: seq<Event>, more: seq<uint8>,
      sections: seq<Section>, tail: seq<uint8>)
    requires Idle(start) && Clean(sections) && Noise(tail)
    requires Arrived(events) + more == Stream(sections) + tail
    ensures Run(Link(start, [], []), events).delivered <= Messages(sections)
  {
    var all := events + [Arrive(more)];
    assert all[..|events|] == events;
    CleanRunDelivers(start, all, sections, tail);
  }

  /** Each call parses at least one waiting byte: as many calls as bytes empty the line. */
  lemma {:induction false} TasksEmptyTheLine(l: Link, calls: nat)
    requires Sound(l.parser) && !l.parser.msgAvailable && calls >= |l.rx|
    ensures Run(l, seq(calls, _ => Task)).rx == []
  {
    TasksShortenTheLine(l, calls);
  }

  lemma {:induction false} TasksShortenTheLine(l: Link, calls: nat)
    requires Sound(l.parser) && !l.parser.msgAvailable
    ensures var l' := Run(l, seq(calls, _ => Task));
      !l'.parser.msgAvailable && (l'.rx == [] || |l'.rx| + calls <= |l.rx|)
  {
    if calls > 0 {
      var tasks := seq(calls, _ => Task);
      assert tasks[..calls - 1] == seq(calls - 1, _ => Task);
      TasksShortenTheLine(l, calls - 1);
    }
  }

  // ---------- What the checksum pair catches ----------

  function Change(s: seq<uint8>, t: seq<uint8>, k: nat): int
    requires |s| == |t|
  {
    if k < |s| then (t[k] as int) - (s[k] as int) else 0
  }

  /** How much the plain sum changes from `s` to `t`. */
  function DeltaA(s: seq<uint8>, t: seq<uint8>): int
    requires |s| == |t|
  {
    if |s| == 0 then 0 else DeltaA(s[..|s| - 1], t[..|s| - 1]) + Change(s, t, |s| - 1)
  }

  /** How much the sum of running sums changes. */
  function DeltaB(s: seq<uint8>, t: seq<uint8>): int
    requires |s| == |t|
  {
    if |s| == 0 then 0 else DeltaB(s[..|s| - 1], t[..|s| - 1]) + DeltaA(s, t)
  }

  lemma {:induction false} CksFollowDeltas(s: seq<uint8>, t: seq<uint8>)
    requires |s| == |t|
    ensures (CkA(t) - CkA(s) - DeltaA(s, t)) % 0x100 == 0
    ensures (CkB(t) - CkB(s) - DeltaB(s, t)) % 0x100 == 0
  {
    if |s| > 0 {
      var n := |s| - 1;
      var s', t' := s[..n], t[..n];
      CksFollowDeltas(s', t');
      SumFollows(CkA(s'), CkA(t'), DeltaA(s', t'), s[n], t[n]);
      SumFollows(CkB(s'), CkB(t'), DeltaB(s', t'), CkA(s), CkA(t));
      hide AddByte;
      SameRemainder(CkB(t) - CkB(s), DeltaB(s', t'), CkA(t) - CkA(s), DeltaA(s, t));
    }
  }

  lemma SumFollows(a: uint8, b: uint8, delta: int, c: uint8, d: uint8)
    requires (b - a - delta) % 0x100 == 0
    ensures (AddByte(b, d) - AddByte(a, c) - (delta + (d as int) - c)) % 0x100 == 0
  {
  }

  lemma SameRemainder(x: int, delta: int, y: int, delta': int)
    requires (x - (delta + y)) % 0x100 == 0 && (y - delta') % 0x100 == 0
    ensures (x - (delta + delta')) % 0x100 == 0
  {
  }

  /** `t` is `s` with bytes `i` and `j` replaced. */
  predicate DifferAt(s: seq<uint8>, t: seq<uint8>, i: nat, j: nat) {
    |s| == |t| && forall k :: 0 <= k < |s| && k != i && k != j ==> s[k] == t[k]
  }

  lemma {:induction false} DeltasOfTwoBytes(s: seq<uint8>, t: seq<uint8>, i: nat, j: nat)
    requires DifferAt(s, t, i, j) && i < j
    ensures DeltaA(s, t) == Change(s, t, i) + Change(s, t, j)
    ensures DeltaB(s, t) == (|s| - i) * Change(s, t, i) + (|s| - j) * Change(s, t, j)
  {
    if |s| > 0 {
      var n := |s| - 1;
      DeltasOfTwoBytes(s[..n], t[..n], i, j);
      Grown(s, t, i);
      Grown(s, t, j);
      assert Change(s, t, n) == (if n == i then Change(s, t, i) else if n == j then Change(s, t, j) else 0);
    } else {
      assert Change(s, t, i) == 0 && Change(s, t, j) == 0;
    }
  }

  lemma Grown(s: seq<uint8>, t: seq<uint8>, k: nat)
    requires |s| == |t| > 0
    ensures var n := |s| - 1; var before := Change(s[..n], t[..n], k);
      && (k != n ==> Change(s, t, k) == before)
      && (|s| - k) * Change(s, t, k) == (n - k) * before + Change(s, t, k)
  {
    var n := |s| - 1;
    OneMore(n - k, Change(s, t, k));
  }

  lemma OneMore(k: int, d: int)
    ensures (k + 1) * d == k * d + d
  {
  }

  lemma MultipleOf256(m: int, x: int)
    requires x % 0x100 == 0
    ensures (m * x) % 0x100 == 0
  {
    assert m * x == 0x100 * (m * (x / 0x100));
  }

  /** Two changes leave both sums as they were: they cancel, and the first one multiplied by
      their distance vanishes. */
  predicate Cancel(distance: int, d1: int, d2: int) {
    (d1 + d2) % 0x100 == 0 && (distance * d1) % 0x100 == 0
  }

  lemma SumsCancelIff(m1: int, m2: int, d1: int, d2: int)
    ensures (d1 + d2) % 0x100 == 0 && (m1 * d1 + m2 * d2) % 0x100 == 0 <==> Cancel(m1 - m2, d1, d2)
  {
    if (d1 + d2) % 0x100 == 0 {
      var rest := m2 * (d1 + d2);
      MultipleOf256(m2, d1 + d2);
      Regroup(m1, m2, d1, d2);
      SameMultiple(m1 * d1 + m2 * d2, (m1 - m2) * d1, rest);
    }
  }

  lemma Regroup(m1: int, m2: int, d1: int, d2: int)
    ensures m1 * d1 + m2 * d2 == (m1 - m2) * d1 + m2 * (d1 + d2)
  {
  }

  lemma SameMultiple(x: int, y: int, rest: int)
    requires x == y + rest && rest % 0x100 == 0
    ensures x % 0x100 == 0 <==> y % 0x100 == 0
  {
  }

  lemma OddDistanceNeverCancels(distance: int, d1: int, d2: int)
    requires distance % 2 == 1 && Cancel(distance, d1, d2)
    requires -0x100 < d1 < 0x100 && -0x100 < d2 < 0x100
    ensures d1 == 0 && d2 == 0
  {
    OddTimes(distance, d1);
  }

  lemma OddTimes(k: int, d: int)
    requires k % 2 == 1 && (k * d) % 0x100 == 0
    ensures d % 0x100 == 0
  {
    var q := k * d / 0x100;
    var d4 := SixteenthOf(k, d, 0x10 * q);
    var d8 := SixteenthOf(k, d4, q);
    assert d == 0x100 * d8;
  }

  lemma SixteenthOf(k: int, d: int, x: int) returns (part: int)
    requires k % 2 == 1 && k * d == 0x10 * x
    ensures d == 0x10 * part && k * part == x
  {
    var d1 := HalfOf(k, d, 8 * x);
    var d2 := HalfOf(k, d1, 4 * x);
    var d3 := HalfOf(k, d2, 2 * x);
    part := HalfOf(k, d3, x);
  }

  /** If an odd multiple of `d` is even, so is `d`. */
  lemma HalfOf(k: int, d: int, x: int) returns (half: int)
    requires k % 2 == 1 && k * d == 2 * x
    ensures d == 2 * half && k * half == x
  {
    var h := k / 2;
    assert k * d == 2 * (h * d) + d;
    half := d / 2;
    assert d == 2 * half;
    assert k * d == 2 * (k * half);
  }

  /** The bytes a frame's checksums cover, with the message's class, id or payload changed
      but its length kept. */
  predicate SameHeaderLength(s: seq<uint8>, t: seq<uint8>) {
    |s| == |t| > 4 && |s| <= 4 + MAX_PAYLOAD && s[2] == t[2] == |s| - 4 && s[3] == t[3] == 0
  }

  /** A frame whose covered bytes were `s` when it was summed and are `t` when it is read. */
  function Altered(s: seq<uint8>, t: seq<uint8>): seq<uint8> {
    [SYNC1, SYNC2] + t + [CkA(s), CkB(s)]
  }

  lemma ReadAltered(p: Parser, s: seq<uint8>, t: seq<uint8>)
    requires Idle(p) && SameHeaderLength(s, t)
    ensures var r := Read(p, Altered(s, t));
      && !r.parser.msgAvailable
      && (if CkA(t) == CkA(s) && CkB(t) == CkB(s) then
            r.messages == [Message(t[0], t[1], t[4..])] && r.parser.errorCnt == p.errorCnt
          else
            r.messages == [] && r.parser.errorCnt == AddByte(p.errorCnt, 1))
  {
    var payload := t[4..];
    assert Covered(t[0], t[1], |payload|, payload) == t;
    hide Read, CkA, CkB, AddByte, Covered;
    ReadFrame(p, t[0], t[1], payload, CkA(s), CkB(s));
  }

  /** Two changed bytes get through if and only if the changes cancel modulo 256 and so does
      the first change multiplied by their distance. */
  lemma TwoChangesAcceptedIff(p: Parser, s: seq<uint8>, t: seq<uint8>, i: nat, j: nat)
    requires Idle(p) && SameHeaderLength(s, t)
    requires DifferAt(s, t, i, j) && i < j < |s|
    ensures var r := Read(p, Altered(s, t));
      && !r.parser.msgAvailable
      && (if Cancel(j - i, Change(s, t, i), Change(s, t, j)) then
            r.messages == [Message(t[0], t[1], t[4..])] && r.parser.errorCnt == p.errorCnt
          else
            r.messages == [] && r.parser.errorCnt == AddByte(p.errorCnt, 1))
  {
    ReadAltered(p, s, t);
    hide Read, AddByte, Altered, CkA, CkB, Cancel;
    SumsAgreeIff(s, t, i, j);
  }

  lemma SumsAgreeIff(s: seq<uint8>, t: seq<uint8>, i: nat, j: nat)
    requires DifferAt(s, t, i, j) && i < j < |s|
    ensures CkA(t) == CkA(s) && CkB(t) == CkB(s)
      <==> Cancel(j - i, Change(s, t, i), Change(s, t, j))
  {
    hide CkA, CkB, DeltaA, DeltaB, Change, Cancel;
    CksFollowDeltas(s, t);
    EqualIff(CkA(s), CkA(t), DeltaA(s, t));
    EqualIff(CkB(s), CkB(t), DeltaB(s, t));
    DeltasOfTwoBytes(s, t, i, j);
    SumsCancelIff(|s| - i, |s| - j, Change(s, t, i), Change(s, t, j));
  }

  lemma EqualIff(a: uint8, b: uint8, delta: int)
    requires (b - a - delta) % 0x100 == 0
    ensures a == b <==> delta % 0x100 == 0
  {
  }

  /** One changed byte, or two at an odd distance, never get through. */
  lemma OddDistanceRejected(p: Parser, s: seq<uint8>, t: seq<uint8>, i: nat, j: nat)
    requires Idle(p) && SameHeaderLength(s, t)
    requires DifferAt(s, t, i, j) && i < j < |s| && (j - i) % 2 == 1 && s != t
    ensures var r := Read(p, Altered(s, t));
      r.messages == [] && !r.parser.msgAvailable && r.parser.errorCnt == AddByte(p.errorCnt, 1)
  {
    TwoChangesAcceptedIff(p, s, t, i, j);
    assert s[i] != t[i] || s[j] != t[j];
    assert Change(s, t, i) != 0 || Change(s, t, j) != 0;
    hide Read, AddByte, Altered, Cancel;
    if Cancel(j - i, Change(s, t, i), Change(s, t, j)) {
      OddDistanceNeverCancels(j - i, Change(s, t, i), Change(s, t, j));
    }
  }

  lemma OneChangeRejected(p: Parser, s: seq<uint8>, t: seq<uint8>, i: nat)
    requires Idle(p) && SameHeaderLength(s, t)
    requires i < |s| && s[i] != t[i] && forall k :: 0 <= k < |s| && k != i ==> s[k] == t[k]
    ensures var r := Read(p, Altered(s, t));
      r.messages == [] && !r.parser.msgAvailable && r.parser.errorCnt == AddByte(p.errorCnt, 1)
  {
    assert |s| == |t| > 4;
    hide Read, AddByte, Altered, Idle, SameHeaderLength;
    if i + 1 < |s| {
      OddDistanceRejected(p, s, t, i, i + 1);
    } else {
      OddDistanceRejected(p, s, t, i - 1, i);
    }
  }

  // ---------- Frames the receiver does not take as sent ----------

  /** A frame that declares one byte less than it carries, up to its last byte: the last
      payload byte is taken for the first checksum. */
  lemma ShortDeclarationAcceptedIff(p: Parser, msgClass: uint8, msgId: uint8, payload: seq<uint8>, last: uint8)
    requires Idle(p) && 1 <= |payload| <= MAX_PAYLOAD
    ensures var frame := FrameWith(msgClass, msgId, |payload|, payload + [last]);
      var r := Read(p, frame[..|frame| - 1]);
      var declared := Covered(msgClass, msgId, |payload|, payload);
      && !r.parser.msgAvailable
      && r.messages ==
         if last == CkA(declared) && AddByte(CkA(declared), last) == CkB(declared) then
           [Message(msgClass, msgId, payload)]
         else
           []
  {
    var declared := Covered(msgClass, msgId, |payload|, payload);
    var sent := Covered(msgClass, msgId, |payload|, payload + [last]);
    var frame := FrameWith(msgClass, msgId, |payload|, payload + [last]);
    assert sent == declared + [last];
    CkSnoc(declared, last);
    assert frame[..|frame| - 1] == [SYNC1, SYNC2] + declared + [last, CkA(sent)];
    hide Read, CkA, CkB, Covered, FrameWith;
    ReadFrame(p, msgClass, msgId, payload, last, CkA(sent));
  }

  const MSG_INTERMCU_ID: uint8 := 100
  const MSG_INTERMCU_FBW_ID: uint8 := 0x06
  const FBW_DECLARED := 6

  /** The state message of the fly-by-wire side declares 6 bytes and carries 7. One with every
      field 0 never reaches the autopilot. */
  lemma ZeroFbwMessageLost(p: Parser)
    requires Idle(p)
    ensures var frame := FrameWith(MSG_INTERMCU_ID, MSG_INTERMCU_FBW_ID, FBW_DECLARED, [0, 0, 0, 0, 0, 0] + [0]);
      Read(p, frame[..|frame| - 1]).messages == []
  {
    var payload: seq<uint8> := [0, 0, 0, 0, 0, 0];
    ShortDeclarationAcceptedIff(p, MSG_INTERMCU_ID, MSG_INTERMCU_FBW_ID, payload, 0);
    CkOfZeroFbw();
    hide Read, CkA, CkB, FrameWith, Covered;
  }

  lemma CkOfZeroFbw()
    ensures CkA(Covered(MSG_INTERMCU_ID, MSG_INTERMCU_FBW_ID, FBW_DECLARED, [0, 0, 0, 0, 0, 0])) == 112
  {
    var header: seq<uint8> := [MSG_INTERMCU_ID, MSG_INTERMCU_FBW_ID, FBW_DECLARED, 0];
    var zeros: seq<uint8> := [0, 0, 0, 0, 0, 0];
    assert Covered(MSG_INTERMCU_ID, MSG_INTERMCU_FBW_ID, FBW_DECLARED, zeros) == header + zeros;
    CkOfHeader(MSG_INTERMCU_ID, MSG_INTERMCU_FBW_ID, FBW_DECLARED);
    CkOfZeros(header, header + zeros);
  }

  lemma CkOfHeader(a: uint8, b: uint8, c: uint8)
    ensures CkA([a, b, c, 0]) == AddByte(AddByte(a, b), c)
  {
    assert [a, b, c, 0][..3] == [a, b, c];
    assert [a, b, c][..2] == [a, b];
    assert [a, b][..1] == [a];
    assert CkA([a]) == a;
    assert CkA([a, b]) == AddByte(a, b);
    assert CkA([a, b, c]) == AddByte(AddByte(a, b), c);
  }

  lemma {:induction false} CkOfZeros(s: seq<uint8>, t: seq<uint8>)
    requires s <= t && forall k :: |s| <= k < |t| ==> t[k] == 0
    ensures CkA(t) == CkA(s)
  {
    if |t| == |s| {
      assert t == s;
    } else {
      CkOfZeros(s, t[..|t| - 1]);
      AddZero(CkA(s));
      assert CkA(t) == AddByte(CkA(t[..|t| - 1]), 0);
      hide CkA, AddByte;
    }
  }

  lemma AddZero(c: uint8)
    ensures AddByte(c, 0) == c
  {
  }

  // ---------- The parser's state, updated byte by byte ----------

  class IntermcuData {
    var msgAvailable: bool
    const msgBuf: array<uint8>
    var msgId: uint8
    var msgClass: uint8
    var status: nat
    var len: uint16
    var msgIdx: uint8
    var ckA: uint8
    var ckB: uint8
    var errorCnt: uint8
    var rx: seq<uint8> // bytes the UART has buffered
    var delivered: seq<Message> // what parse_mavpilot_msg was given

    ghost function View(): Parser
      reads this, msgBuf
    {
      Parser(msgAvailable, msgBuf[..], msgId, msgClass, status, len, msgIdx, ckA, ckB, errorCnt)
    }

    ghost function LinkView(): Link
      reads this, msgBuf
    {
      Link(View(), rx, delivered)
    }

    constructor ()
      ensures Idle(View()) && errorCnt == 0 && LinkView() == Link(View(), [], [])
      ensures fresh(msgBuf)
    {
      msgBuf := new uint8[MAX_PAYLOAD];
      status, msgAvailable, errorCnt := UNINIT, false, 0;
      msgId, msgClass, len, msgIdx, ckA, ckB := 0, 0, 0, 0, 0, 0;
      rx, delivered := [], [];
    }

    method Sum(c: uint8)
      modifies this`ckA, this`ckB
      ensures ckA == AddByte(old(ckA), c) && ckB == AddByte(old(ckB), ckA)
    {
      ckA := AddByte(ckA, c);
      ckB := AddByte(ckB, ckA);
    }

    method Restart(error: bool)
      modifies this`errorCnt, this`status
      ensures status == UNINIT
      ensures errorCnt == if error then AddByte(old(errorCnt), 1) else old(errorCnt)
    {
      if error {
        errorCnt := AddByte(errorCnt, 1);
      }
      status := UNINIT;
    }

    method Parse(c: uint8)
      requires Sound(View())
      modifies this`msgAvailable, this`msgId, this`msgClass, this`status, this`len, this`msgIdx,
               this`ckA, this`ckB, this`errorCnt, msgBuf
      ensures View() == Parsed(old(View()), c)
    {
      if status < GOT_PAYLOAD {
        Sum(c);
      }
      if status == UNINIT {
        if c == SYNC1 {
          status := status + 1;
        }
      } else if status == GOT_SYNC1 {
        if c != SYNC2 {
          Restart(true);
          return;
        }
        ckA, ckB := 0, 0;
        status := status + 1;
      } else if status == GOT_SYNC2 {
        if msgAvailable {
          Restart(true);
          return;
        }
        msgClass := c;
        status := status + 1;
      } else if status == GOT_CLASS {
        msgId := c;
        status := status + 1;
      } else if status == GOT_ID {
        len := c;
        status := status + 1;
      } else if status == GOT_LEN1 {
        len := len + 0x100 * c;
        if len > MAX_PAYLOAD {
          Restart(true);
          return;
        }
        msgIdx := 0;
        status := status + 1;
      } else if status == GOT_LEN2 {
        msgBuf[msgIdx] := c;
        msgIdx := AddByte(msgIdx, 1);
        if msgIdx >= len {
          status := status + 1;
        }
      } else if status == GOT_PAYLOAD {
        if c != ckA {
          Restart(true);
          return;
        }
        status := status + 1;
      } else {
        if c != ckB {
          Restart(true);
          return;
        }
        msgAvailable := true;
        Restart(false);
      }
    }

    /** The UART interrupt buffers some bytes. */
    method Arrive(bytes: seq<uint8>)
      requires Sound(View())
      modifies this`rx
      ensures LinkView() == Step(old(LinkView()), Event.Arrive(bytes))
    {
      rx := rx + bytes;
    }

    /** link_mcu_event_task. */
    method EventTask()
      requires Sound(View())
      modifies this, msgBuf
      ensures LinkView() == Step(old(LinkView()), Task)
    {
      while |rx| > 0 && !msgAvailable
        invariant Sound(View()) && delivered == old(delivered)
        invariant Drain(View(), rx) == old(Drain(View(), rx))
        decreases |rx|
      {
        var c := rx[0];
        rx := rx[1..];
        Parse(c);
      }
      if msgAvailable {
        delivered := delivered + [Message(msgClass, msgId, msgBuf[..len])];
        msgAvailable := false;
      }
    }
  }

  // ---------- The sending macros ----------

  class Sender {
    var sendCkA: uint8
    var sendCkB: uint8
    var line: seq<uint8> // bytes transmitted so far

    constructor ()
      ensures line == []
    {
      sendCkA, sendCkB, line := 0, 0, [];
    }

    ghost predicate Sums(covered: seq<uint8>)
      reads this
    {
      sendCkA == CkA(covered) && sendCkB == CkB(covered)
    }

    method Send1(c: uint8, ghost covered: seq<uint8>)
      requires Sums(covered)
      modifies this
      ensures line == old(line) + [c] && Sums(covered + [c])
    {
      line := line + [c];
      sendCkA := AddByte(sendCkA, c);
      sendCkB := AddByte(sendCkB, sendCkA);
      CkSnoc(covered, c);
    }

    method Send2(v: uint16, ghost covered: seq<uint8>)
      requires Sums(covered)
      modifies this
      ensures line == old(line) + [v % 0x100, v / 0x100] && Sums(covered + [v % 0x100, v / 0x100])
    {
      Send1(v % 0x100, covered);
      Send1(v / 0x100, covered + [v % 0x100]);
      assert covered + [v % 0x100] + [v / 0x100] == covered + [v % 0x100, v / 0x100];
    }

    method Header(navId: uint8, msgId: uint8, len: uint16)
      modifies this
      ensures line == old(line) + [SYNC1, SYNC2] + Covered(navId, msgId, len, [])
      ensures Sums(Covered(navId, msgId, len, []))
    {
      line := line + [SYNC1];
      line := line + [SYNC2];
      sendCkA, sendCkB := 0, 0;
      Send1(navId, []);
      Send1(msgId, [navId]);
      Send2(len, [navId, msgId]);
      assert [navId, msgId] + [len % 0x100, len / 0x100] == Covered(navId, msgId, len, []);
    }

    method Trailer(ghost covered: seq<uint8>)
      requires Sums(covered)
      modifies this
      ensures line == old(line) + [CkA(covered), CkB(covered)]
    {
      line := line + [sendCkA];
      line := line + [sendCkB];
    }

    /** One message, as the InterMcuSend_ macros put it together. */
    method SendMessage(navId: uint8, msgId: uint8, len: uint16, payload: seq<uint8>)
      modifies this
      ensures line == old(line) + FrameWith(navId, msgId, len, payload)
    {
      hide CkA, CkB;
      Header(navId, msgId, len);
      ghost var start := Covered(navId, msgId, len, []);
      assert start + payload[..0] == start;
      for k := 0 to |payload|
        invariant line == old(line) + [SYNC1, SYNC2] + start + payload[..k]
        invariant Sums(start + payload[..k])
      {
        Send1(payload[k], start + payload[..k]);
        assert start + payload[..k] + [payload[k]] == start + payload[..k + 1];
      }
      assert start + payload[..|payload|] == Covered(navId, msgId, len, payload);
      Trailer(Covered(navId, msgId, len, payload));
    }
  }
}

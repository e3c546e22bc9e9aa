/** Two spistream endpoints joined by an SPI bus: what one sends, the other one's
    handler receives, over every run. */
module SpistreamLink {
  import opened Bytes
  import opened Spistream

  // ---------- One direction as a state machine ----------

  /** Transmitter, receiver, the messages accepted so far that have a package to
      send, and what every accepted call offered, empty messages included. */
  datatype Link = Link(tx: TxState, rx: RxState, sent: seq<Message>, offered: seq<seq<uint8>>)

  datatype Action = Send(data: seq<uint8>, waitForRead: bool) | Transfer

  function InitialLink(): (s: Link) {
    Link(TxState(0, [], []), RxState(0, 0, seq(RX_BUFFER_SIZE, _ => 0), []), [], [])
  }

  /** A message the sender may offer: it fits the receive buffer, and if the code
      accepts it, all its packages fit the free slots. */
  predicate Allowed(s: Link, a: Action) {
    match a
    case Send(data, wait) =>
      |data| <= MAX_RELIABLE_LENGTH
      && (Accepts(s.tx, wait) ==> |s.tx.queue| + NumPackages(|data|) <= RING_SIZE)
    case Transfer => true
  }

  predicate LinkValid(s: Link) {
    RxValid(s.rx) && AllReceivable(s.tx.queue)
  }

  function AcceptSend(s: Link, data: seq<uint8>): Link {
    var id := NextId(s.tx.cnt);
    Link(Enqueue(s.tx, data), s.rx,
         if data == [] then s.sent else s.sent + [Message(id, data)],
         s.offered + [data])
  }

  lemma IdleReceivable()
    ensures Receivable(IdlePackage())
  {
  }

  /** One action: an offered message, or one bus transfer, which carries the head
      package or an idle one. */
  function Step(s: Link, a: Action): (s': Link)
    requires LinkValid(s) && Allowed(s, a)
    ensures LinkValid(s')
  {
    match a
    case Send(data, wait) =>
      if Accepts(s.tx, wait) then
        WrapKeepsShortQueues(s.tx.queue + Packetize(NextId(s.tx.cnt), data));
        PacketizeReceivable(NextId(s.tx.cnt), data);
        AcceptSend(s, data)
      else s
    case Transfer =>
      s.(tx := Dequeue(s.tx), rx := RxRead(s.rx, Head(s.tx)))
  }

  lemma SendStep(s: Link, data: seq<uint8>, wait: bool)
    requires LinkValid(s) && Allowed(s, Send(data, wait))
    ensures Step(s, Send(data, wait)) == if Accepts(s.tx, wait) then AcceptSend(s, data) else s
    ensures data == [] ==> Step(s, Send(data, wait)).tx.queue == s.tx.queue
    ensures |Step(s, Send(data, wait)).tx.queue|
         == |s.tx.queue| + if Accepts(s.tx, wait) then NumPackages(|data|) else 0
  {
    if data == [] && Accepts(s.tx, wait) {
      WrapKeepsShortQueues(s.tx.queue);
      assert s.tx.queue + Packetize(NextId(s.tx.cnt), data) == s.tx.queue;
    }
  }

  /** The state after a run of actions, or `None` if one was not allowed. */
  datatype Outcome = Reached(link: Link) | NotAllowed

  function Run(actions: seq<Action>): (o: Outcome)
    ensures o.Reached? ==> LinkValid(o.link)
  {
    if actions == [] then Reached(InitialLink())
    else
      var o, a := Run(actions[..|actions| - 1]), actions[|actions| - 1];
      if o.Reached? && Allowed(o.link, a) then Reached(Step(o.link, a)) else NotAllowed
  }

  // ---------- The end-to-end invariant ----------

  function PacketizeAll(ms: seq<Message>): seq<Pkg> {
    if ms == [] then [] else Packetize(ms[0].id, ms[0].data) + PacketizeAll(ms[1..])
  }

  lemma {:induction false} PacketizeAllAppend(ms: seq<Message>, m: Message)
    ensures PacketizeAll(ms + [m]) == PacketizeAll(ms) + Packetize(m.id, m.data)
  {
    if ms == [] {
      assert ms + [m] == [m] && [m][1..] == [];
    } else {
      assert (ms + [m])[1..] == ms[1..] + [m];
      PacketizeAllAppend(ms[1..], m);
    }
  }

  function Ids(ms: seq<Message>): seq<uint8> {
    seq(|ms|, i requires 0 <= i < |ms| => ms[i].id)
  }

  ghost predicate Sendable(m: Message) {
    m.id != INVALID_MESSAGE_ID && 0 < |m.data| <= MAX_RELIABLE_LENGTH
  }

  /** Packages of the message now being transferred that the receiver has. */
  function Progress(s: Link): int
    requires |s.rx.calls| <= |s.sent|
  {
    |PacketizeAll(s.sent[|s.rx.calls|..])| - |s.tx.queue|
  }

  /** Delivered messages, then the message partly received, then the packages
      still queued, are exactly the messages sent, in order, byte for byte; the
      transmit handler has been called once per delivered message. */
  ghost predicate EndToEnd(s: Link) {
    var d := |s.rx.calls|;
    && (forall i | 0 <= i < |s.sent| :: Sendable(s.sent[i]))
    && d <= |s.sent| && s.rx.calls == s.sent[..d]
    && s.tx.calls == Ids(s.sent[..d])
    && var k := Progress(s);
       && 0 <= k
       && s.tx.queue == PacketizeAll(s.sent[d..])[k..]
       && (if d == |s.sent| then k == 0 && RxValid(s.rx) && s.rx.cntd == 0 else Holds(s.rx, s.sent[d].data, k))
  }

  lemma AcceptAppends(s: Link, data: seq<uint8>)
    requires |s.tx.queue| + NumPackages(|data|) <= RING_SIZE
    ensures AcceptSend(s, data).tx.queue == s.tx.queue + Packetize(NextId(s.tx.cnt), data)
    ensures |Packetize(NextId(s.tx.cnt), data)| == NumPackages(|data|)
  {
    WrapKeepsShortQueues(s.tx.queue + Packetize(NextId(s.tx.cnt), data));
  }

  lemma SuffixAppends<T>(all: seq<T>, k: nat, queue: seq<T>, more: seq<T>)
    requires k <= |all| && queue == all[k..]
    ensures queue + more == (all + more)[k..]
  {
  }

  lemma IdleHolds(r: RxState, data: seq<uint8>)
    requires RxValid(r) && r.cntd == 0 && 0 < |data| <= MAX_RELIABLE_LENGTH
    ensures Holds(r, data, 0)
  {
  }

  lemma AcceptKeepsEndToEnd(s: Link, data: seq<uint8>)
    requires EndToEnd(s) && 0 < |data| <= MAX_RELIABLE_LENGTH
    requires |s.tx.queue| + NumPackages(|data|) <= RING_SIZE
    ensures EndToEnd(AcceptSend(s, data))
  {
    var d, k := |s.rx.calls|, Progress(s);
    var m := Message(NextId(s.tx.cnt), data);
    var s' := AcceptSend(s, data);
    AcceptAppends(s, data);
    assert s'.sent == s.sent + [m] && s'.rx == s.rx && s'.tx.calls == s.tx.calls;
    assert Sendable(m);
    hide AcceptSend, Packetize, PacketizeAll, NumPackages, RxValid, Sendable, Ids;
    assert s'.sent[d..] == s.sent[d..] + [m] && s'.sent[..d] == s.sent[..d];
    PacketizeAllAppend(s.sent[d..], m);
    SuffixAppends(PacketizeAll(s.sent[d..]), k, s.tx.queue, Packetize(m.id, data));
    hide Holds;
    if d == |s.sent| {
      IdleHolds(s.rx, data);
      assert s'.sent[d] == m;
    } else {
      assert s'.sent[d] == s.sent[d];
    }
  }

  lemma EmptyKeepsEndToEnd(s: Link)
    requires EndToEnd(s) && |s.tx.queue| <= RING_SIZE
    ensures EndToEnd(AcceptSend(s, []))
  {
    WrapKeepsShortQueues(s.tx.queue);
    assert s.tx.queue + Packetize(NextId(s.tx.cnt), []) == s.tx.queue;
    hide Wrap, Packetize, PacketizeAll, NumPackages, RxValid, Sendable, Ids, Holds;
  }

  lemma SendKeepsEndToEnd(s: Link, data: seq<uint8>, wait: bool)
    requires LinkValid(s) && EndToEnd(s) && Allowed(s, Send(data, wait))
    ensures EndToEnd(Step(s, Send(data, wait)))
  {
    SendStep(s, data, wait);
    if Accepts(s.tx, wait) {
      if data != [] {
        AcceptKeepsEndToEnd(s, data);
      } else {
        EmptyKeepsEndToEnd(s);
      }
    }
    hide EndToEnd, Step, AcceptSend;
  }

  lemma TransferStep(s: Link)
    requires LinkValid(s)
    ensures var s' := Step(s, Transfer);
      && s'.sent == s.sent && s'.offered == s.offered
      && s'.tx.queue == if s.tx.queue == [] then [] else s.tx.queue[1..]
    ensures s.tx.queue == [] ==> Step(s, Transfer) == s
    ensures s.tx.queue != [] ==>
      var s', head := Step(s, Transfer), s.tx.queue[0];
      && s'.rx == RxRead(s.rx, head)
      && s'.tx.calls == if head.packageCntd <= 0 then s.tx.calls + [head.messageCnt] else s.tx.calls
  {
  }

  /** The oldest package queued is the next one of the message now being transferred. */
  lemma HeadOfQueue(s: Link)
    requires EndToEnd(s) && s.tx.queue != []
    ensures var d, k := |s.rx.calls|, Progress(s);
      && d < |s.sent| && Sendable(s.sent[d]) && Holds(s.rx, s.sent[d].data, k)
      && s.tx.queue[0] == PackageAt(s.sent[d].id, s.sent[d].data, k)
      && PacketizeAll(s.sent[d..]) == Packetize(s.sent[d].id, s.sent[d].data) + PacketizeAll(s.sent[d + 1..])
      && s.tx.queue[1..] == PacketizeAll(s.sent[d..])[k + 1..]
  {
    var d, k := |s.rx.calls|, Progress(s);
    assert d < |s.sent|;
    var m, rest := s.sent[d], s.sent[d + 1..];
    assert s.sent[d..][1..] == rest;
    hide RxValid, Sendable, Ids, PackageAt;
    assert Packetize(m.id, m.data)[k] == PackageAt(m.id, m.data, k);
    assert s.tx.queue[0] == (Packetize(m.id, m.data) + PacketizeAll(rest))[k];
  }

  lemma TransferKeepsEndToEnd(s: Link)
    requires LinkValid(s) && EndToEnd(s)
    ensures EndToEnd(Step(s, Transfer))
  {
    TransferStep(s);
    if s.tx.queue != [] {
      var d, k, s' := |s.rx.calls|, Progress(s), Step(s, Transfer);
      HeadOfQueue(s);
      var m := s.sent[d];
      ReadNext(s.rx, m.id, m.data, k);
      PacketizeCounts(m.id, m.data);
      if k == NumPackages(|m.data|) - 1 {
        MessageArrives(s, s');
      } else {
        PackageArrives(s, s');
      }
    }
    hide EndToEnd, Step;
  }

  /** The last package of a message has been read. */
  lemma MessageArrives(s: Link, s': Link)
    requires EndToEnd(s) && s'.sent == s.sent && |s.rx.calls| < |s.sent| && s.tx.queue != []
    requires var m, k := s.sent[|s.rx.calls|], Progress(s);
      && k == |Packetize(m.id, m.data)| - 1
      && PacketizeAll(s.sent[|s.rx.calls|..]) == Packetize(m.id, m.data) + PacketizeAll(s.sent[|s.rx.calls| + 1..])
      && s'.rx.calls == s.rx.calls + [m] && RxValid(s'.rx) && s'.rx.cntd == 0
      && s'.tx.calls == s.tx.calls + [m.id]
      && s'.tx.queue == PacketizeAll(s.sent[|s.rx.calls|..])[k + 1..]
    ensures EndToEnd(s')
  {
    var d, rest := |s.rx.calls|, s.sent[|s.rx.calls| + 1..];
    assert s'.rx.calls == s.sent[..d + 1];
    assert s'.tx.calls == Ids(s.sent[..d + 1]);
    hide RxValid, Holds, Packetize, Ids;
    assert s'.tx.queue == PacketizeAll(rest);
    hide PacketizeAll;
    if d + 1 < |s.sent| {
      var next := s.sent[d + 1];
      assert Sendable(next);
      IdleHolds(s'.rx, next.data);
    } else {
      assert rest == [];
    }
  }

  /** A package that is not the last of its message has been read. */
  lemma PackageArrives(s: Link, s': Link)
    requires EndToEnd(s) && s'.sent == s.sent && |s.rx.calls| < |s.sent|
    requires s'.rx.calls == s.rx.calls && s'.tx.calls == s.tx.calls
    requires s.tx.queue != [] && s'.tx.queue == s.tx.queue[1..]
    requires Holds(s'.rx, s.sent[|s.rx.calls|].data, Progress(s) + 1)
    ensures EndToEnd(s')
  {
    hide RxValid, Holds, Ids, Sendable, PacketizeAll;
  }

  /** The main theorem: every allowed interleaving of messages and transfers. */
  lemma {:induction false} EveryRunIsEndToEnd(actions: seq<Action>)
    requires Run(actions).Reached?
    ensures EndToEnd(Run(actions).link)
  {
    if actions != [] {
      var a, s := actions[|actions| - 1], Run(actions[..|actions| - 1]).link;
      EveryRunIsEndToEnd(actions[..|actions| - 1]);
      match a
      case Send(data, wait) => SendKeepsEndToEnd(s, data, wait);
      case Transfer => TransferKeepsEndToEnd(s);
    }
  }

  // ---------- Nothing is stuck ----------

  function Drain(s: Link, transfers: nat): (s': Link)
    requires LinkValid(s)
    ensures LinkValid(s')
    decreases transfers
  {
    if transfers == 0 then s else Drain(Step(s, Transfer), transfers - 1)
  }

  /** As many transfers as there are queued packages deliver everything sent. */
  lemma {:induction false} DrainDeliversAll(s: Link)
    requires LinkValid(s) && EndToEnd(s)
    ensures Drain(s, |s.tx.queue|).rx.calls == s.sent
    ensures Drain(s, |s.tx.queue|).tx.calls == Ids(s.sent)
    decreases |s.tx.queue|
  {
    hide EndToEnd, Step, Ids, LinkValid;
    if s.tx.queue == [] {
      EmptyQueueDelivered(s);
    } else {
      TransferStep(s);
      TransferKeepsEndToEnd(s);
      assert Drain(s, |s.tx.queue|) == Drain(Step(s, Transfer), |s.tx.queue| - 1);
      DrainDeliversAll(Step(s, Transfer));
    }
  }

  lemma EmptyQueueDelivered(s: Link)
    requires EndToEnd(s) && s.tx.queue == []
    ensures s.rx.calls == s.sent && s.tx.calls == Ids(s.sent)
  {
    var d := |s.rx.calls|;
    if d < |s.sent| {
      FirstCounts(s.sent[d..]);
    }
    hide Ids, Sendable, RxValid, PacketizeAll, NumPackages;
    assert d == |s.sent|;
    assert s.sent[..d] == s.sent;
  }

  lemma FirstCounts(ms: seq<Message>)
    requires ms != []
    ensures |PacketizeAll(ms)| >= NumPackages(|ms[0].data|)
  {
    PacketizeCounts(ms[0].id, ms[0].data);
    hide Packetize, NumPackages;
  }

  // ---------- Message ids ----------

  function CyclicId(accepted: nat): uint8 {
    if accepted == 0 then 0 else (accepted - 1) % 255 + 1
  }

  /** The messages that accepted calls put in the queue: the n-th call, counted from 1, gives its
      message the n-th id of the cycle, and an empty one uses its id up without sending it. */
  function SentOf(offered: seq<seq<uint8>>): seq<Message> {
    if offered == [] then [] else
      var n := |offered| - 1;
      SentOf(offered[..n]) + if offered[n] == [] then [] else [Message(CyclicId(n + 1), offered[n])]
  }

  lemma SentOfSnoc(offered: seq<seq<uint8>>, data: seq<uint8>)
    ensures SentOf(offered + [data])
         == SentOf(offered) + if data == [] then [] else [Message(CyclicId(|offered| + 1), data)]
  {
    assert (offered + [data])[..|offered|] == offered;
  }

  ghost predicate IdsCyclic(s: Link) {
    s.tx.cnt == CyclicId(|s.offered|) && s.sent == SentOf(s.offered)
  }

  lemma NextCyclicId(accepted: nat)
    ensures NextId(CyclicId(accepted)) == CyclicId(accepted + 1)
  {
    if accepted > 0 {
      NextRemainder(accepted - 1, (accepted - 1) / 255, (accepted - 1) % 255);
    }
  }

  lemma NextRemainder(n: nat, q: nat, r: nat)
    requires n == 255 * q + r && r < 255
    ensures n % 255 == r && (n + 1) % 255 == if r == 254 then 0 else r + 1
  {
    var q', r' := (n + 1) / 255, (n + 1) % 255;
    assert 255 * q' + r' == 255 * q + r + 1;
  }

  lemma StepKeepsIdsCyclic(s: Link, a: Action)
    requires LinkValid(s) && Allowed(s, a) && IdsCyclic(s)
    ensures IdsCyclic(Step(s, a))
  {
    if a.Send? && Accepts(s.tx, a.waitForRead) {
      SendStep(s, a.data, a.waitForRead);
      hide Step, SentOf;
      NextCyclicId(|s.offered|);
      SentOfSnoc(s.offered, a.data);
    }
  }

  /** In every run, empty sends included, ids run through 1..255 again and again, skipping 0. */
  lemma {:induction false} IdsCycle(actions: seq<Action>)
    requires Run(actions).Reached?
    ensures IdsCyclic(Run(actions).link)
  {
    hide Step, IdsCyclic, LinkValid, Allowed;
    if actions == [] {
      InitialIdsCyclic();
    } else {
      IdsCycle(actions[..|actions| - 1]);
      StepKeepsIdsCyclic(Run(actions[..|actions| - 1]).link, actions[|actions| - 1]);
    }
  }

  lemma InitialIdsCyclic()
    ensures IdsCyclic(InitialLink())
  {
  }

  /** Where no message is empty, the n-th one sent has id (n % 255) + 1, counting from 0. */
  lemma {:induction false} SentOfData(offered: seq<seq<uint8>>)
    requires forall n | 0 <= n < |offered| :: offered[n] != []
    ensures |SentOf(offered)| == |offered|
    ensures forall n | 0 <= n < |offered| :: SentOf(offered)[n] == Message(n % 255 + 1, offered[n])
  {
    if offered != [] {
      SentOfData(offered[..|offered| - 1]);
    }
  }

  // ---------- Both directions on two endpoints ----------

  /** Two endpoints that swap one package each on every bus event. */
  class Bus {
    const a: Endpoint
    const b: Endpoint
    ghost var sentByA: seq<Message>
    ghost var sentByB: seq<Message>
    ghost var offeredToA: seq<seq<uint8>>
    ghost var offeredToB: seq<seq<uint8>>

    ghost predicate Valid()
      reads this, a, a.rx, a.tx, b, b.rx, b.tx
    {
      && a != b && a.rx != b.rx && a.tx != b.tx
      && a.Valid() && b.Valid()
      && LinkValid(AToB()) && LinkValid(BToA())
      && |a.Tx().queue| <= RING_SIZE && |b.Tx().queue| <= RING_SIZE
    }

    ghost function AToB(): Link
      requires a.Valid() && b.Valid()
      reads this, a, a.rx, a.tx, b, b.rx, b.tx
    {
      Link(a.Tx(), b.Rx(), sentByA, offeredToA)
    }

    ghost function BToA(): Link
      requires a.Valid() && b.Valid()
      reads this, a, a.rx, a.tx, b, b.rx, b.tx
    {
      Link(b.Tx(), a.Rx(), sentByB, offeredToB)
    }

    constructor ()
      ensures Valid() && fresh(a) && fresh(a.rx) && fresh(a.tx) && fresh(b) && fresh(b.rx) && fresh(b.tx)
      ensures AToB() == InitialLink() && BToA() == InitialLink()
    {
      a := new Endpoint();
      b := new Endpoint();
      sentByA, sentByB, offeredToA, offeredToB := [], [], [], [];
      new;
      assert AToB() == InitialLink() && BToA() == InitialLink();
    }

    method SendFromA(data: seq<uint8>, waitForRead: bool) returns (accepted: bool)
      requires Valid() && Allowed(AToB(), Send(data, waitForRead))
      modifies this, a, a.tx
      ensures Valid()
      ensures accepted == Accepts(old(a.Tx()), waitForRead)
      ensures AToB() == Step(old(AToB()), Send(data, waitForRead))
      ensures BToA() == old(BToA())
    {
      ghost var link := AToB();
      SendStep(link, data, waitForRead);
      accepted := a.EnqueueMsg(data, waitForRead);
      if accepted {
        offeredToA := offeredToA + [data];
        if data != [] {
          sentByA := sentByA + [Message(a.txMessageCnt, data)];
        }
      }
      assert AToB() == Step(link, Send(data, waitForRead));
    }

    method SendFromB(data: seq<uint8>, waitForRead: bool) returns (accepted: bool)
      requires Valid() && Allowed(BToA(), Send(data, waitForRead))
      modifies this, b, b.tx
      ensures Valid()
      ensures accepted == Accepts(old(b.Tx()), waitForRead)
      ensures BToA() == Step(old(BToA()), Send(data, waitForRead))
      ensures AToB() == old(AToB())
    {
      ghost var link := BToA();
      SendStep(link, data, waitForRead);
      accepted := b.EnqueueMsg(data, waitForRead);
      if accepted {
        offeredToB := offeredToB + [data];
        if data != [] {
          sentByB := sentByB + [Message(b.txMessageCnt, data)];
        }
      }
      assert BToA() == Step(link, Send(data, waitForRead));
    }

    /** One SPI event: both sides hand out a package and read the other's. */
    method Exchange()
      requires Valid()
      modifies a, a.rx, a.tx, b, b.rx, b.tx
      ensures Valid()
      ensures AToB() == Step(old(AToB()), Transfer)
      ensures BToA() == Step(old(BToA()), Transfer)
    {
      IdleReceivable();
      var fromA := a.WritePkg();
      var fromB := b.WritePkg();
      a.ReadPkg(fromB);
      b.ReadPkg(fromA);
    }
  }
}

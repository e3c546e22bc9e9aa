/** The spistream package protocol: one endpoint's transmit ring and receive
    buffer, as in sw/airborne/lisa/lisa_spistream.h. */
module Spistream {
  import opened Bytes

  const PACKAGE_SIZE := 32
  const RX_BUFFER_SIZE := 720
  const RING_SIZE := 88 // (720 / 32) * 4
  const MAX_RX_PACKAGES := 22 // whole packages that fit in the receive buffer
  const MAX_RELIABLE_LENGTH := 704 // MAX_RX_PACKAGES * PACKAGE_SIZE
  const INVALID_MESSAGE_ID: uint8 := 0

  datatype Package = Package(messageCnt: uint8, packageCntd: int8, data: seq<uint8>)

  type Pkg = p: Package | |p.data| == PACKAGE_SIZE
    witness Package(0, 0, seq(PACKAGE_SIZE, _ => 0))

  datatype Message = Message(id: uint8, data: seq<uint8>)

  // ---------- Packages of a message ----------

  function NumPackages(numBytes: nat): nat {
    (numBytes + PACKAGE_SIZE - 1) / PACKAGE_SIZE
  }

  function PaddedByte(data: seq<uint8>, i: nat): uint8 {
    if i < |data| then data[i] else 0
  }

  /** The 32 bytes from `at` on, zeros past the end. */
  function PaddedSlice(data: seq<uint8>, at: nat): seq<uint8> {
    seq<uint8>(PACKAGE_SIZE, j requires 0 <= j => PaddedByte(data, at + j))
  }

  /** The package sent when there is nothing to transfer. */
  function IdlePackage(): Pkg {
    Package(INVALID_MESSAGE_ID, 0, PaddedSlice([], 0))
  }

  /** Package `k` of a message counts the packages left, this one included; the
      last one carries minus the number of padding bytes instead. */
  function CountdownAt(numBytes: nat, k: nat): int8
    requires k < NumPackages(numBytes)
  {
    var n := NumPackages(numBytes);
    if k == n - 1 then numBytes - n * PACKAGE_SIZE else ToInt8(n - k)
  }

  function PackageAt(id: uint8, data: seq<uint8>, k: nat): Pkg
    requires k < NumPackages(|data|)
  {
    Package(id, CountdownAt(|data|, k), PaddedSlice(data, k * PACKAGE_SIZE))
  }

  function Packetize(id: uint8, data: seq<uint8>): seq<Pkg> {
    seq(NumPackages(|data|), k requires 0 <= k < NumPackages(|data|) => PackageAt(id, data, k))
  }

  // ---------- The transmit ring ----------

  datatype TxState = TxState(cnt: uint8, queue: seq<Pkg>, calls: seq<uint8>)

  function NextId(cnt: uint8): uint8 {
    var next := (cnt + 1) % 0x100;
    if next == INVALID_MESSAGE_ID then 1 else next
  }

  /** The packages a reader of the ring finds, oldest first. */
  function Queue(slots: seq<Pkg>, read: nat, num: nat): seq<Pkg>
    requires |slots| == RING_SIZE
  {
    seq(num, i requires 0 <= i => slots[(read + i) % RING_SIZE])
  }

  /** The ring after packages are stored one slot after the other from `insert`. */
  function PutAll(slots: seq<Pkg>, insert: nat, pkgs: seq<Pkg>): (r: seq<Pkg>)
    requires |slots| == RING_SIZE
    ensures |r| == RING_SIZE
    decreases |pkgs|
  {
    if pkgs == [] then slots
    else
      var m := |pkgs| - 1;
      PutAll(slots, insert, pkgs[..m])[(insert + m) % RING_SIZE := pkgs[m]]
  }

  /** The last index below `n` that shares a ring slot with `i`. */
  function Latest(i: nat, n: nat): (j: nat)
    requires i < n
    ensures i <= j < n && n <= j + RING_SIZE && (j - i) % RING_SIZE == 0
  {
    i + RING_SIZE * ((n - 1 - i) / RING_SIZE)
  }

  /** What a ring of 88 slots makes of a longer queue: each slot keeps the last
      package stored in it. */
  function Wrap(queue: seq<Pkg>): seq<Pkg> {
    seq(|queue|, i requires 0 <= i < |queue| => queue[Latest(i, |queue|)])
  }

  /** Transmit state after an accepted message. */
  function Enqueue(t: TxState, data: seq<uint8>): TxState {
    var id := NextId(t.cnt);
    t.(cnt := id, queue := Wrap(t.queue + Packetize(id, data)))
  }

  predicate Accepts(t: TxState, waitForRead: bool) {
    !waitForRead || |t.queue| + 1 < RING_SIZE
  }

  function Head(t: TxState): Pkg {
    if t.queue == [] then IdlePackage() else t.queue[0]
  }

  /** Transmit state after the head package was handed to the bus. */
  function Dequeue(t: TxState): TxState {
    if t.queue == [] then t
    else t.(queue := t.queue[1..],
            calls := if t.queue[0].packageCntd <= 0 then t.calls + [t.queue[0].messageCnt] else t.calls)
  }

  lemma SlotOf(x: int, q: int, r: int)
    requires x == q * RING_SIZE + r && 0 <= r < RING_SIZE
    ensures x % RING_SIZE == r
  {
  }

  lemma SameSlot(read: nat, i: nat, j: nat)
    requires i <= j
    ensures (read + i) % RING_SIZE == (read + j) % RING_SIZE <==> (j - i) % RING_SIZE == 0
    ensures ((read + i) % RING_SIZE + (j - i)) % RING_SIZE == (read + j) % RING_SIZE
  {
    var q, r := (read + i) / RING_SIZE, (read + i) % RING_SIZE;
    var q', r' := (j - i) / RING_SIZE, (j - i) % RING_SIZE;
    if r + r' < RING_SIZE {
      SlotOf(read + j, q + q', r + r');
      SlotOf(r + (j - i), q', r + r');
    } else {
      SlotOf(read + j, q + q' + 1, r + r' - RING_SIZE);
      SlotOf(r + (j - i), q' + 1, r + r' - RING_SIZE);
    }
  }

  lemma LatestGrows(i: nat, n: nat)
    requires i < n
    ensures Latest(i, n + 1) == if (n - i) % RING_SIZE == 0 then n else Latest(i, n)
  {
  }

  /** Storing one more package is queueing it and wrapping. */
  lemma StoreOne(slots: seq<Pkg>, read: nat, num: nat, q: seq<Pkg>, p: Pkg)
    requires |slots| == RING_SIZE && |q| == num
    requires Queue(slots, read, num) == Wrap(q)
    ensures Queue(slots[(read + num) % RING_SIZE := p], read, num + 1) == Wrap(q + [p])
  {
    var r := slots[(read + num) % RING_SIZE := p];
    forall i | 0 <= i <= num
      ensures Queue(r, read, num + 1)[i] == Wrap(q + [p])[i]
    {
      SameSlot(read, i, num);
      if i < num {
        LatestGrows(i, num);
        assert Queue(slots, read, num)[i] == Wrap(q)[i];
      }
    }
  }

  /** In the ring, packages 88 places apart are one. */
  lemma QueueIsWrapped(slots: seq<Pkg>, read: nat, num: nat)
    requires |slots| == RING_SIZE
    ensures |Queue(slots, read, num)| == num && Wrap(Queue(slots, read, num)) == Queue(slots, read, num)
  {
    forall i | 0 <= i < num
      ensures Queue(slots, read, num)[i] == Wrap(Queue(slots, read, num))[i]
    {
      SameSlot(read, i, Latest(i, num));
    }
  }

  lemma {:induction false} PutAllStoresQueue(slots: seq<Pkg>, read: nat, num: nat, pkgs: seq<Pkg>)
    requires |slots| == RING_SIZE
    ensures Queue(PutAll(slots, (read + num) % RING_SIZE, pkgs), read, num + |pkgs|)
         == Wrap(Queue(slots, read, num) + pkgs)
    decreases |pkgs|
  {
    var q := Queue(slots, read, num);
    hide Wrap, Queue;
    if pkgs == [] {
      assert q + pkgs == q;
      QueueIsWrapped(slots, read, num);
    } else {
      var m := |pkgs| - 1;
      PutAllStoresQueue(slots, read, num, pkgs[..m]);
      SameSlot(read, num, num + m);
      StoreOne(PutAll(slots, (read + num) % RING_SIZE, pkgs[..m]), read, num + m, q + pkgs[..m], pkgs[m]);
      assert q + pkgs[..m] + [pkgs[m]] == q + pkgs;
    }
  }

  ghost predicate ArePackages(pkgs: seq<Pkg>, id: uint8, data: seq<uint8>, numPadding: int)
    requires 0 <= numPadding <= PACKAGE_SIZE
  {
    forall k | 0 <= k < |pkgs| ::
      && pkgs[k].messageCnt == id
      && pkgs[k].packageCntd == (if k == |pkgs| - 1 then -numPadding else ToInt8(|pkgs| - k))
      && (forall j | 0 <= j < PACKAGE_SIZE :: pkgs[k].data[j] == PaddedByte(data, k * PACKAGE_SIZE + j))
  }

  lemma PacketizeArePackages(id: uint8, data: seq<uint8>, numPadding: int)
    requires 0 <= numPadding <= PACKAGE_SIZE
    requires data != [] ==> numPadding == NumPackages(|data|) * PACKAGE_SIZE - |data|
    ensures ArePackages(Packetize(id, data), id, data, numPadding)
  {
  }

  /** The counts the code computes. */
  lemma PackageCount(numBytes: nat)
    ensures NumPackages(numBytes)
         == numBytes / PACKAGE_SIZE + if numBytes % PACKAGE_SIZE != 0 then 1 else 0
    ensures 0 < numBytes <= PACKAGE_SIZE ==> NumPackages(numBytes) == 1
    ensures 0 <= NumPackages(numBytes) * PACKAGE_SIZE - numBytes <= PACKAGE_SIZE
  {
  }

  lemma PacketizeCounts(id: uint8, data: seq<uint8>)
    ensures |Packetize(id, data)| == NumPackages(|data|)
  {
  }

  lemma NextSlot(read: nat, i: nat)
    requires read < RING_SIZE && i > 0
    ensures var next := if read + 1 >= RING_SIZE then 0 else read + 1;
            (read + i) % RING_SIZE == (next + i - 1) % RING_SIZE
  {
  }

  /** Taking the oldest package out of the ring. */
  lemma AdvanceRead(slots: seq<Pkg>, read: nat, num: nat)
    requires |slots| == RING_SIZE && read < RING_SIZE && num > 0
    ensures var next := if read + 1 >= RING_SIZE then 0 else read + 1;
            && Queue(slots, read, num) == [slots[read]] + Queue(slots, next, num - 1)
            && (read + num) % RING_SIZE == (next + num - 1) % RING_SIZE
  {
    var next := if read + 1 >= RING_SIZE then 0 else read + 1;
    NextSlot(read, num);
    forall i | 0 <= i < num
      ensures Queue(slots, read, num)[i] == ([slots[read]] + Queue(slots, next, num - 1))[i]
    {
      if i == 0 {
        SlotOf(read, 0, read);
      } else {
        NextSlot(read, i);
      }
    }
  }

  lemma SplitIndex(idx: nat, k: nat)
    requires k * PACKAGE_SIZE <= idx < (k + 1) * PACKAGE_SIZE
    ensures idx % PACKAGE_SIZE == idx - k * PACKAGE_SIZE
  {
  }

  /** The ring while a message is stored: `k` packages are complete and the first
      `j` bytes of the next one are in its slot. */
  ghost predicate Filling(ring: seq<Pkg>, slots: seq<Pkg>, insert: nat, pkgs: seq<Pkg>, k: nat, j: nat) {
    && |ring| == |slots| == RING_SIZE
    && k <= |pkgs| && j <= PACKAGE_SIZE
    && (k == |pkgs| ==> j == 0)
    && (forall p | 0 <= p < RING_SIZE && (j == 0 || p != (insert + k) % RING_SIZE) ::
          ring[p] == PutAll(slots, insert, pkgs[..k])[p])
    && (forall b | 0 <= b < j :: ring[(insert + k) % RING_SIZE].data[b] == pkgs[k].data[b])
  }

  lemma FillByte(ring: seq<Pkg>, slots: seq<Pkg>, insert: nat, pkgs: seq<Pkg>, k: nat, j: nat, ring': seq<Pkg>)
    requires Filling(ring, slots, insert, pkgs, k, j) && k < |pkgs| && j < PACKAGE_SIZE
    requires var at := (insert + k) % RING_SIZE;
             ring' == ring[at := ring[at].(data := ring[at].data[j := pkgs[k].data[j]])]
    ensures Filling(ring', slots, insert, pkgs, k, j + 1)
  {
  }

  lemma FillPackage(ring: seq<Pkg>, slots: seq<Pkg>, insert: nat, pkgs: seq<Pkg>, k: nat, ring': seq<Pkg>)
    requires Filling(ring, slots, insert, pkgs, k, PACKAGE_SIZE)
    requires var at := (insert + k) % RING_SIZE;
             ring' == ring[at := Package(pkgs[k].messageCnt, pkgs[k].packageCntd, ring[at].data)]
    ensures Filling(ring', slots, insert, pkgs, k + 1, 0)
  {
    assert pkgs[..k + 1][..k] == pkgs[..k];
    assert ring[(insert + k) % RING_SIZE].data == pkgs[k].data;
    assert PutAll(slots, insert, pkgs[..k + 1])
        == PutAll(slots, insert, pkgs[..k])[(insert + k) % RING_SIZE := pkgs[k]];
  }

  /** Messages that fit are queued behind what was there, untouched. */
  lemma WrapKeepsShortQueues(q: seq<Pkg>)
    requires |q| <= RING_SIZE
    ensures Wrap(q) == q
  {
    assert forall i | 0 <= i < |q| :: Latest(i, |q|) == i;
  }

  /** Every package that has one 88 places behind it is a copy of that one, id included. */
  predicate RepeatsAround(q: seq<Pkg>) {
    |q| <= RING_SIZE || q[..|q| - RING_SIZE] == q[RING_SIZE..]
  }

  lemma LatestAround(i: nat, n: nat)
    requires i < n
    ensures Latest(i, n) == if i + RING_SIZE < n then Latest(i + RING_SIZE, n) else i
  {
  }

  lemma {:induction false} LatestIsCopy(q: seq<Pkg>, i: nat)
    requires RepeatsAround(q) && i < |q|
    ensures q[i] == q[Latest(i, |q|)]
    decreases |q| - i
  {
    LatestAround(i, |q|);
    if i + RING_SIZE < |q| {
      assert q[i] == q[..|q| - RING_SIZE][i] == q[RING_SIZE..][i];
      LatestIsCopy(q, i + RING_SIZE);
    }
  }

  lemma WrapAt(q: seq<Pkg>, i: nat)
    requires i < |q|
    ensures |Wrap(q)| == |q| && Wrap(q)[i] == q[Latest(i, |q|)]
  {
    hide Latest;
  }

  lemma WrapKeepsIff(q: seq<Pkg>)
    ensures Wrap(q) == q <==> RepeatsAround(q)
  {
    assert |Wrap(q)| == |q|;
    hide Wrap, Latest;
    if RepeatsAround(q) {
      hide RepeatsAround;
      forall i | 0 <= i < |q|
        ensures Wrap(q)[i] == q[i]
      {
        WrapAt(q, i);
        LatestIsCopy(q, i);
      }
    }
    if Wrap(q) == q && |q| > RING_SIZE {
      forall i | 0 <= i < |q| - RING_SIZE
        ensures q[..|q| - RING_SIZE][i] == q[RING_SIZE..][i]
      {
        WrapAt(q, i);
        WrapAt(q, i + RING_SIZE);
        LatestAround(i, |q|);
      }
      assert q[..|q| - RING_SIZE] == q[RING_SIZE..];
    }
  }

  /** An accepted message is queued intact exactly when all its packages fit in the free slots,
      which the room check of the code does not test, or only copies of themselves are destroyed. */
  lemma EnqueueIntactIff(t: TxState, data: seq<uint8>)
    ensures var q := t.queue + Packetize(NextId(t.cnt), data);
      Enqueue(t, data).queue == q <==> |t.queue| + NumPackages(|data|) <= RING_SIZE || RepeatsAround(q)
  {
    WrapKeepsIff(t.queue + Packetize(NextId(t.cnt), data));
  }

  /** While no package of an older message has the new id, only the first is left. */
  lemma EnqueueIntactIffFits(t: TxState, data: seq<uint8>)
    requires data != [] || |t.queue| <= RING_SIZE
    requires forall p | p in t.queue :: p.messageCnt != NextId(t.cnt)
    ensures Enqueue(t, data).queue == t.queue + Packetize(NextId(t.cnt), data)
       <==> |t.queue| + NumPackages(|data|) <= RING_SIZE
  {
    var pkgs := Packetize(NextId(t.cnt), data);
    var q := t.queue + pkgs;
    EnqueueIntactIff(t, data);
    if |q| > RING_SIZE && RepeatsAround(q) {
      LastHasNoCopy(t.queue, NextId(t.cnt), data);
    }
  }

  /** The last package of a message differs from the one 88 places before it. */
  lemma LastHasNoCopy(queue: seq<Pkg>, id: uint8, data: seq<uint8>)
    requires data != [] && |queue| + NumPackages(|data|) > RING_SIZE
    requires forall p | p in queue :: p.messageCnt != id
    ensures !RepeatsAround(queue + Packetize(id, data))
  {
    var pkgs := Packetize(id, data);
    var q := queue + pkgs;
    var last, i := |q| - 1, |q| - 1 - RING_SIZE;
    assert q[last] == pkgs[|pkgs| - 1] && q[last].messageCnt == id && q[last].packageCntd <= 0;
    assert q[..|q| - RING_SIZE][i] == q[i] && q[RING_SIZE..][i] == q[last];
    if i < |queue| {
      assert queue[i] in queue;
    } else {
      assert q[i].packageCntd == ToInt8(RING_SIZE + 1) > 0;
    }
  }

  /** The documented promise of SPISTREAM_WAIT_FOR_READ, to reject a message when
      the buffer is full, fails: a message is accepted and destroys a queued one. */
  lemma RoomCheckAcceptsTooMuch() returns (t: TxState, data: seq<uint8>)
    ensures Accepts(t, true) && |t.queue| < RING_SIZE && |data| <= MAX_RELIABLE_LENGTH
    ensures Enqueue(t, data).queue != t.queue + Packetize(NextId(t.cnt), data)
  {
    t := TxState(1, seq(80, _ => Package(1, 0, seq(PACKAGE_SIZE, _ => 0))), []);
    data := seq(288, _ => 7);
    EnqueueIntactIffFits(t, data);
  }

  // ---------- The receive buffer ----------

  datatype RxState = RxState(num: nat, cntd: nat, buf: seq<uint8>, calls: seq<Message>)

  predicate RxValid(r: RxState) {
    && |r.buf| == RX_BUFFER_SIZE
    && r.num <= MAX_RX_PACKAGES
    && r.cntd <= MAX_RX_PACKAGES
    && (r.cntd > 0 ==> r.num > 0)
  }

  /** Packages that messages of at most 704 bytes are cut into. */
  predicate Receivable(p: Pkg) {
    p.messageCnt != INVALID_MESSAGE_ID ==> -PACKAGE_SIZE <= p.packageCntd <= MAX_RX_PACKAGES
  }

  function Splice(buf: seq<uint8>, at: nat, data: seq<uint8>): (r: seq<uint8>)
    requires at + |data| <= |buf|
    ensures |r| == |buf|
  {
    buf[..at] + data + buf[at + |data|..]
  }

  /** How many packages the message has, as far as the receiver knows after `p`. */
  function Expected(r: RxState, p: Pkg): int {
    if r.cntd == 0 then (if p.packageCntd <= 0 then 1 else p.packageCntd)
    else if p.packageCntd >= r.num then p.packageCntd else r.num
  }

  lemma PackageFits(r: RxState, p: Pkg)
    requires RxValid(r) && Receivable(p) && p.messageCnt != INVALID_MESSAGE_ID
    ensures (if p.packageCntd <= 0 then 1 else p.packageCntd) <= Expected(r, p) <= MAX_RX_PACKAGES
    ensures 0 <= Expected(r, p) * PACKAGE_SIZE + p.packageCntd
  {
  }

  function RxRead(r: RxState, p: Pkg): (r': RxState)
    requires RxValid(r) && Receivable(p)
    ensures RxValid(r')
  {
    if p.messageCnt == INVALID_MESSAGE_ID then r
    else
      var cntd := if p.packageCntd <= 0 then 1 else p.packageCntd;
      var num := Expected(r, p);
      var buf := Splice(r.buf, (num - cntd) * PACKAGE_SIZE, p.data);
      if p.packageCntd <= 0 then
        RxState(num, 0, buf, r.calls + [Message(p.messageCnt, buf[..num * PACKAGE_SIZE + p.packageCntd])])
      else
        RxState(num, if r.cntd == 0 then cntd else r.cntd, buf, r.calls)
  }

  predicate AllReceivable(ps: seq<Pkg>) {
    forall i | 0 <= i < |ps| :: Receivable(ps[i])
  }

  /** The receiver after a sequence of packages: no package makes it leave its
      buffer, whatever was lost before. */
  function RxRun(r: RxState, ps: seq<Pkg>): (r': RxState)
    requires RxValid(r) && AllReceivable(ps)
    ensures RxValid(r')
  {
    if ps == [] then r else RxRead(RxRun(r, ps[..|ps| - 1]), ps[|ps| - 1])
  }

  lemma {:induction false} RxRunConcat(r: RxState, a: seq<Pkg>, b: seq<Pkg>)
    requires RxValid(r) && AllReceivable(a) && AllReceivable(b)
    ensures AllReceivable(a + b)
    ensures RxRun(r, a + b) == RxRun(RxRun(r, a), b)
    decreases |b|
  {
    if b == [] {
      assert a + b == a;
    } else {
      RxRunConcat(r, a, b[..|b| - 1]);
      assert (a + b)[..|a + b| - 1] == a + b[..|b| - 1];
    }
  }

  lemma PacketizeReceivable(id: uint8, data: seq<uint8>)
    requires |data| <= MAX_RELIABLE_LENGTH
    ensures AllReceivable(Packetize(id, data))
  {
  }

  /** Part of a message: its first `k` packages sit at the front of the buffer and
      nothing is delivered yet. */
  ghost predicate Holds(r: RxState, data: seq<uint8>, k: nat) {
    && RxValid(r)
    && k < NumPackages(|data|) <= MAX_RX_PACKAGES
    && if k == 0 then r.cntd == 0
       else r.cntd > 0 && r.num == NumPackages(|data|) && r.buf[..k * PACKAGE_SIZE] == data[..k * PACKAGE_SIZE]
  }

  lemma SplicePrefix(buf: seq<uint8>, data: seq<uint8>, at: nat, slice: seq<uint8>, len: nat)
    requires at <= len <= at + |slice| <= |buf| && len <= |data|
    requires buf[..at] == data[..at]
    requires forall j | 0 <= j < |slice| :: slice[j] == PaddedByte(data, at + j)
    ensures Splice(buf, at, slice)[..len] == data[..len]
  {
    forall i | 0 <= i < len
      ensures Splice(buf, at, slice)[i] == data[i]
    {
      if i < at {
        assert Splice(buf, at, slice)[i] == buf[..at][i] == data[..at][i];
      } else {
        assert Splice(buf, at, slice)[i] == slice[i - at] == PaddedByte(data, i);
      }
    }
  }

  /** The countdown puts each package of a message in its place in the buffer. */
  lemma ReadInPlace(r: RxState, id: uint8, data: seq<uint8>, k: nat)
    requires id != INVALID_MESSAGE_ID && |data| <= MAX_RELIABLE_LENGTH
    requires Holds(r, data, k)
    ensures Receivable(PackageAt(id, data, k))
    ensures var n, r' := NumPackages(|data|), RxRead(r, PackageAt(id, data, k));
            && r'.num == n
            && r'.buf == Splice(r.buf, k * PACKAGE_SIZE, PaddedSlice(data, k * PACKAGE_SIZE))
            && r'.cntd == (if k == n - 1 then 0 else if k == 0 then n else r.cntd)
            && r'.calls == if k == n - 1 then r.calls + [Message(id, r'.buf[..|data|])] else r.calls
  {
    var n := NumPackages(|data|);
    assert CountdownAt(|data|, k) == if k == n - 1 then |data| - n * PACKAGE_SIZE else n - k;
  }

  /** One package of a message moves the receiver one package on, or, if it is the
      last one, delivers the message. Nothing is assumed of the old contents of
      the buffer or of `num` at the start of a message. */
  lemma ReadNext(r: RxState, id: uint8, data: seq<uint8>, k: nat)
    requires id != INVALID_MESSAGE_ID && |data| <= MAX_RELIABLE_LENGTH
    requires Holds(r, data, k)
    ensures Receivable(PackageAt(id, data, k))
    ensures var r' := RxRead(r, PackageAt(id, data, k));
            if k == NumPackages(|data|) - 1
            then r'.cntd == 0 && r'.calls == r.calls + [Message(id, data)]
            else Holds(r', data, k + 1) && r'.calls == r.calls
  {
    var at := k * PACKAGE_SIZE;
    ReadInPlace(r, id, data, k);
    if k == NumPackages(|data|) - 1 {
      SplicePrefix(r.buf, data, at, PaddedSlice(data, at), |data|);
      assert data[..|data|] == data;
    } else {
      SplicePrefix(r.buf, data, at, PaddedSlice(data, at), at + PACKAGE_SIZE);
    }
  }

  lemma RxRunStep(r: RxState, ps: seq<Pkg>, k: nat)
    requires RxValid(r) && AllReceivable(ps) && 0 < k <= |ps|
    ensures AllReceivable(ps[..k]) && AllReceivable(ps[..k - 1])
    ensures RxRun(r, ps[..k]) == RxRead(RxRun(r, ps[..k - 1]), ps[k - 1])
  {
    assert ps[..k][..k - 1] == ps[..k - 1];
    hide RxRead;
  }

  /** The first `k` packages of a message leave its first `k` pieces in the buffer. */
  lemma {:induction false} ReadPrefix(r: RxState, id: uint8, data: seq<uint8>, k: nat)
    requires id != INVALID_MESSAGE_ID && |data| <= MAX_RELIABLE_LENGTH
    requires k < NumPackages(|data|) && RxValid(r) && r.cntd == 0
    ensures AllReceivable(Packetize(id, data)) && AllReceivable(Packetize(id, data)[..k])
    ensures var r' := RxRun(r, Packetize(id, data)[..k]);
            Holds(r', data, k) && r'.calls == r.calls
    decreases k
  {
    hide *;
    PacketizeReceivable(id, data);
    PacketizeCounts(id, data);
    var ps := Packetize(id, data);
    if k == 0 {
      ReadNone(r, data, ps);
    } else {
      ReadPrefix(r, id, data, k - 1);
      PackageOf(id, data, k - 1);
      RxRunStep(r, ps, k);
      ReadNext(RxRun(r, ps[..k - 1]), id, data, k - 1);
    }
  }

  lemma PackageOf(id: uint8, data: seq<uint8>, k: nat)
    requires k < NumPackages(|data|)
    ensures k < |Packetize(id, data)| && Packetize(id, data)[k] == PackageAt(id, data, k)
  {
  }

  lemma ReadNone(r: RxState, data: seq<uint8>, ps: seq<Pkg>)
    requires |data| <= MAX_RELIABLE_LENGTH && 0 < NumPackages(|data|) && RxValid(r) && r.cntd == 0
    ensures AllReceivable(ps[..0]) && RxRun(r, ps[..0]) == r && Holds(r, data, 0)
  {
  }

  /** A whole message is delivered once, with its id, byte for byte. */
  lemma DeliverMessage(r: RxState, id: uint8, data: seq<uint8>)
    requires id != INVALID_MESSAGE_ID && 0 < |data| <= MAX_RELIABLE_LENGTH
    requires RxValid(r) && r.cntd == 0
    ensures AllReceivable(Packetize(id, data))
    ensures var r' := RxRun(r, Packetize(id, data));
            r'.cntd == 0 && r'.calls == r.calls + [Message(id, data)]
  {
    var ps, last := Packetize(id, data), NumPackages(|data|) - 1;
    hide *;
    PacketizeReceivable(id, data);
    PacketizeCounts(id, data);
    ReadPrefix(r, id, data, last);
    PackageOf(id, data, last);
    RxRunStep(r, ps, last + 1);
    assert ps[..last + 1] == ps;
    ReadNext(RxRun(r, ps[..last]), id, data, last);
  }

  /** Resynchronisation: after any packages of messages that fit, with any of them lost or mixed
      up, the first package that ends a message makes the next whole message
      arrive intact. */
  lemma Resynchronise(r: RxState, garbage: seq<Pkg>, end: Pkg, id: uint8, data: seq<uint8>)
    requires RxValid(r) && AllReceivable(garbage) && Receivable(end)
    requires end.messageCnt != INVALID_MESSAGE_ID && end.packageCntd <= 0
    requires id != INVALID_MESSAGE_ID && 0 < |data| <= MAX_RELIABLE_LENGTH
    ensures AllReceivable(garbage + [end]) && AllReceivable(garbage + [end] + Packetize(id, data))
    ensures RxRun(r, garbage + [end] + Packetize(id, data)).calls
         == RxRun(r, garbage + [end]).calls + [Message(id, data)]
  {
    PacketizeReceivable(id, data);
    RxRunConcat(r, garbage + [end], Packetize(id, data));
    assert (garbage + [end])[..|garbage|] == garbage;
    DeliverMessage(RxRun(r, garbage + [end]), id, data);
  }

  // ---------- One endpoint ----------

  class Endpoint {
    var txMessageCnt: uint8
    var rxPackageCntd: uint8
    var rxNumPackages: uint16
    var txInsert: uint16
    var txRead: uint16
    var txNumPackages: uint16
    const rx: array<uint8>
    const tx: array<Pkg>
    // Calls of the two registered handlers, in order.
    var rxHandled: seq<Message>
    var txHandled: seq<uint8>

    ghost predicate Valid()
      reads this, rx, tx
    {
      && tx.Length == RING_SIZE
      && txRead < RING_SIZE
      && txInsert == (txRead + txNumPackages) % RING_SIZE
      && RxValid(Rx())
    }

    ghost function Tx(): TxState
      requires tx.Length == RING_SIZE
      reads this, tx
    {
      TxState(txMessageCnt, Queue(tx[..], txRead, txNumPackages), txHandled)
    }

    ghost function Rx(): RxState
      reads this, rx
    {
      RxState(rxNumPackages, rxPackageCntd, rx[..], rxHandled)
    }

    constructor ()
      ensures Valid() && fresh(rx) && fresh(tx)
      ensures Tx() == TxState(0, [], [])
      ensures Rx() == RxState(0, 0, seq(RX_BUFFER_SIZE, _ => 0), [])
    {
      rx := new uint8[RX_BUFFER_SIZE](_ => 0);
      tx := new Pkg[RING_SIZE](_ => Package(0, 0, seq(PACKAGE_SIZE, _ => 0)));
      txMessageCnt, rxPackageCntd, rxNumPackages := 0, 0, 0;
      txInsert, txRead, txNumPackages := 0, 0, 0;
      rxHandled, txHandled := [], [];
    }

    method EnqueueMsg(data: seq<uint8>, waitForRead: bool) returns (accepted: bool)
      requires Valid() && |data| < 0x1_0000
      requires txNumPackages + NumPackages(|data|) < 0x1_0000
      modifies this, tx
      ensures Valid()
      ensures accepted == Accepts(old(Tx()), waitForRead)
      ensures Tx() == if accepted then Enqueue(old(Tx()), data) else old(Tx())
      ensures Rx() == old(Rx())
    {
      assert |Tx().queue| == txNumPackages;
      if waitForRead && !(txNumPackages + 1 < RING_SIZE) {
        return false;
      }
      txMessageCnt := (txMessageCnt + 1) % 0x100;
      if txMessageCnt == INVALID_MESSAGE_ID {
        txMessageCnt := 1;
      }
      hide PutAll, Queue, Wrap, RxValid, Packetize;
      QueuePackages(data);
      return true;
    }

    /** The counts of EnqueueMsg and its loop. */
    method QueuePackages(data: seq<uint8>)
      requires tx.Length == RING_SIZE && txRead < RING_SIZE && txInsert == (txRead + txNumPackages) % RING_SIZE
      requires txNumPackages + NumPackages(|data|) < 0x1_0000
      modifies `txInsert, `txNumPackages, tx
      ensures txInsert == (txRead + txNumPackages) % RING_SIZE
      ensures Queue(tx[..], txRead, txNumPackages)
           == Wrap(old(Queue(tx[..], txRead, txNumPackages)) + Packetize(txMessageCnt, data))
    {
      var numBytes := |data|;
      var numPackages := numBytes / PACKAGE_SIZE;
      if numBytes % PACKAGE_SIZE != 0 {
        numPackages := numPackages + 1;
      }
      var numPadding;
      if numBytes > PACKAGE_SIZE {
        numPadding := numPackages * PACKAGE_SIZE - numBytes;
      } else {
        numPadding := PACKAGE_SIZE - numBytes;
      }

      ghost var slots, num := tx[..], txNumPackages;
      ghost var pkgs := Packetize(txMessageCnt, data);
      hide PutAll, Queue, Wrap, ArePackages, NumPackages, Packetize;
      PackageCount(numBytes);
      PacketizeCounts(txMessageCnt, data);
      assert numPackages == NumPackages(numBytes);
      PacketizeArePackages(txMessageCnt, data, numPadding);
      StorePackages(data, numPackages, numPadding, pkgs);
      PutAllStoresQueue(slots, txRead, num, pkgs);
      SameSlot(txRead, num, num + |pkgs|);
    }

    /** The loop of EnqueueMsg: byte after byte, package after package. */
    method StorePackages(data: seq<uint8>, numPackages: nat, numPadding: int, ghost pkgs: seq<Pkg>)
      requires tx.Length == RING_SIZE && txInsert < RING_SIZE
      requires txNumPackages + numPackages < 0x1_0000 && 0 <= numPadding <= PACKAGE_SIZE
      requires |pkgs| == numPackages && ArePackages(pkgs, txMessageCnt, data, numPadding)
      modifies `txInsert, `txNumPackages, tx
      ensures tx[..] == PutAll(old(tx[..]), old(txInsert), pkgs)
      ensures txInsert == (old(txInsert) + |pkgs|) % RING_SIZE
      ensures txNumPackages == old(txNumPackages) + |pkgs|
    {
      ghost var slots, insert := tx[..], txInsert;
      ghost var k := 0;
      var left := numPackages;
      var idx := 0;
      while left > 0
        invariant 0 <= left && k + left == numPackages
        invariant k * PACKAGE_SIZE <= idx < (k + 1) * PACKAGE_SIZE
        invariant txInsert == (insert + k) % RING_SIZE
        invariant txNumPackages == old(txNumPackages) + k
        invariant Filling(tx[..], slots, insert, pkgs, k, idx - k * PACKAGE_SIZE)
        decreases left, (k + 1) * PACKAGE_SIZE - idx
      {
        SplitIndex(idx, k);
        StoreByte(data, idx, numPadding, slots, insert, pkgs, k);
        if idx % PACKAGE_SIZE == PACKAGE_SIZE - 1 {
          FinishPackage(data, left, numPadding, slots, insert, pkgs, k);
          left := left - 1;
          k := k + 1;
        }
        idx := idx + 1;
      }
      assert pkgs[..k] == pkgs;
    }

    method StoreByte(data: seq<uint8>, idx: nat, ghost numPadding: int,
                     ghost slots: seq<Pkg>, ghost insert: nat, ghost pkgs: seq<Pkg>, ghost k: nat)
      requires tx.Length == RING_SIZE && txInsert == (insert + k) % RING_SIZE
      requires k < |pkgs| && k * PACKAGE_SIZE <= idx < (k + 1) * PACKAGE_SIZE
      requires 0 <= numPadding <= PACKAGE_SIZE && ArePackages(pkgs, txMessageCnt, data, numPadding)
      requires Filling(tx[..], slots, insert, pkgs, k, idx - k * PACKAGE_SIZE)
      modifies tx
      ensures Filling(tx[..], slots, insert, pkgs, k, idx - k * PACKAGE_SIZE + 1)
    {
      ghost var ring := tx[..];
      SplitIndex(idx, k);
      var byte := if idx < |data| then data[idx] else 0; // padding
      assert byte == pkgs[k].data[idx - k * PACKAGE_SIZE];
      tx[txInsert] := tx[txInsert].(data := tx[txInsert].data[idx % PACKAGE_SIZE := byte]);
      FillByte(ring, slots, insert, pkgs, k, idx - k * PACKAGE_SIZE, tx[..]);
    }

    method FinishPackage(ghost data: seq<uint8>, left: nat, numPadding: int,
                         ghost slots: seq<Pkg>, ghost insert: nat, ghost pkgs: seq<Pkg>, ghost k: nat)
      requires tx.Length == RING_SIZE && txInsert == (insert + k) % RING_SIZE && txNumPackages < 0xFFFF
      requires 0 < left && left + k == |pkgs|
      requires 0 <= numPadding <= PACKAGE_SIZE && ArePackages(pkgs, txMessageCnt, data, numPadding)
      requires Filling(tx[..], slots, insert, pkgs, k, PACKAGE_SIZE)
      modifies `txInsert, `txNumPackages, tx
      ensures Filling(tx[..], slots, insert, pkgs, k + 1, 0)
      ensures txInsert == (insert + k + 1) % RING_SIZE && txNumPackages == old(txNumPackages) + 1
    {
      ghost var ring := tx[..];
      var countdown: int8 := if left == 1 then -numPadding else ToInt8(left);
      tx[txInsert] := tx[txInsert].(packageCntd := countdown, messageCnt := txMessageCnt);
      FillPackage(ring, slots, insert, pkgs, k, tx[..]);
      txInsert := txInsert + 1;
      if txInsert >= RING_SIZE {
        txInsert := 0;
      }
      SameSlot(insert, k, k + 1);
      txNumPackages := txNumPackages + 1;
    }

    method WritePkg() returns (pkg: Pkg)
      requires Valid()
      modifies this
      ensures Valid()
      ensures pkg == Head(old(Tx()))
      ensures Tx() == Dequeue(old(Tx()))
      ensures Rx() == old(Rx())
    {
      if txNumPackages == 0 {
        return IdlePackage();
      }
      AdvanceRead(tx[..], txRead, txNumPackages);
      pkg := tx[txRead];
      if pkg.packageCntd <= 0 {
        txHandled := txHandled + [pkg.messageCnt];
      }
      txRead := txRead + 1;
      if txRead >= RING_SIZE {
        txRead := 0;
      }
      txNumPackages := txNumPackages - 1;
    }

    method CopyPackage(at: nat, data: seq<uint8>)
      requires at + |data| <= rx.Length
      modifies rx
      ensures rx[..] == Splice(old(rx[..]), at, data)
    {
      forall i | 0 <= i < |data| {
        rx[at + i] := data[i];
      }
    }

    /** The counters of ReadPkg: how many packages the message has. */
    method NotePackage(pkg: Pkg)
      requires RxValid(Rx()) && Receivable(pkg) && pkg.messageCnt != INVALID_MESSAGE_ID
      modifies `rxNumPackages, `rxPackageCntd
      ensures rxNumPackages == Expected(old(Rx()), pkg)
      ensures rxPackageCntd == if old(rxPackageCntd) != 0 then old(rxPackageCntd)
                               else if pkg.packageCntd <= 0 then 1 else pkg.packageCntd
    {
      var packageCntd := if pkg.packageCntd <= 0 then 1 else pkg.packageCntd;
      if pkg.packageCntd >= rxNumPackages {
        rxNumPackages := pkg.packageCntd;
      }
      if rxPackageCntd == 0 {
        rxNumPackages := packageCntd;
        rxPackageCntd := packageCntd;
      }
    }

    method ReadPkg(pkg: Pkg)
      requires Valid() && Receivable(pkg)
      modifies this, rx
      ensures Valid()
      ensures Rx() == RxRead(old(Rx()), pkg)
      ensures Tx() == old(Tx())
    {
      if pkg.messageCnt == INVALID_MESSAGE_ID {
        return;
      }
      ghost var r, t := Rx(), Tx();
      PackageFits(r, pkg);
      NotePackage(pkg);
      hide Expected, Receivable, Queue, Splice, RxValid;
      var packageCntd := if pkg.packageCntd <= 0 then 1 else pkg.packageCntd;
      CopyPackage((rxNumPackages - packageCntd) * PACKAGE_SIZE, pkg.data);
      assert tx[..] == old(tx[..]) && Tx() == t;
      if pkg.packageCntd <= 0 {
        rxHandled := rxHandled + [Message(pkg.messageCnt, rx[..rxNumPackages * PACKAGE_SIZE + pkg.packageCntd])];
        rxPackageCntd := 0;
      }
      assert Rx() == RxRead(r, pkg) && Tx() == t;
      hide RxRead;
    }
  }
}

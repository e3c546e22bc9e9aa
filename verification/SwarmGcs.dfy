/** The ground station of the swarm, GCS/Ground_Station.cpp and GCS/Swarm.cpp: command threads
    that poll what the quadcopters report, and the handler that stores the reports.

    Threads interleave arbitrarily, one read, write, lock operation or send at a time. Quads are
    numbered from 0. */
module SwarmGcs {
  const SWARM_INIT := 0
  const SWARM_NEGOTIATE_REF := 1
  const SWARM_WAIT_CMD := 2
  const SWARM_WAIT_CMD_START_ENGINE := 3
  const SWARM_WAIT_CMD_TAKEOFF := 4
  const SWARM_WAIT_EXEC_ACK := 5
  const SWARM_EXEC_CMD := 6
  const SWARM_REPORT_STATE := 7
  const SWARM_LANDHERE := 8
  const SWARM_LANDED := 9
  const SWARM_KILLED := 10

  const MAX_UINT64 := 0xFFFF_FFFF_FFFF_FFFF

  type Stamp = t: int | 0 <= t <= MAX_UINT64

  datatype Option<T> = None | Some(value: T)

  /** A report's number: it wraps to 0 behind the largest. */
  function NextStamp(t: Stamp): Stamp {
    if t < MAX_UINT64 then t + 1 else 0
  }

  // ---------- Threads ----------

  datatype Kind = Init | EndNegotiate | StartEngine | Takeoff | Go | ExecAck | LandHere | Kill

  /** The states a thread waits for, one call of wait_all_quads each. */
  function Waits(kind: Kind): seq<int> {
    match kind
    case Init => [SWARM_INIT, SWARM_NEGOTIATE_REF]
    case EndNegotiate => [SWARM_WAIT_CMD]
    case StartEngine => [SWARM_WAIT_CMD_START_ENGINE]
    case Takeoff => [SWARM_WAIT_CMD_TAKEOFF]
    case Go => [SWARM_WAIT_EXEC_ACK]
    case ExecAck => [SWARM_EXEC_CMD]
    case LandHere => [SWARM_LANDED]
    case Kill => [SWARM_KILLED]
  }

  datatype Pc =
    | Start // about to try GCS_busy
    | Guarding(second: bool, i: nat) // all_in_state before a Go or ExecAck command
    | Targeting(i: nat) // the first round of targets
    | Killing(i: nat) // the kill handler's first pass, before it waits
    | Entering // about to lock XBEE_WRITE, in wait_all_quads
    | Scanning(i: nat) // all_in_state in the loop condition
    | ScanningReport(i: nat) // all_in_state(SWARM_REPORT_STATE) while executing
    | AtQuad(i: nat) // top of the inner loop
    | AtStamp(i: nat) // state read, timestamp next
    | AtInitState(i: nat, second: bool) // timestamp read, state next: only in SWARM_INIT
    | Stamping(i: nat) // about to copy the timestamp
    | Sending(i: nat)
    | Leaving // about to unlock XBEE_WRITE
    | Unlocking // about to unlock GCS_busy
    | Done

  /** `last` is the array last_timestamp of the current wait. The last three fields are history:
      which quads the guard read in SWARM_WAIT_EXEC_ACK since GCS_busy was taken, and how many
      commands were sent to each quad, and how many reports of it stored, since the wait began. */
  datatype Thread = Thread(
    kind: Kind, wait: nat, pc: Pc, last: seq<Stamp>,
    seenReady: set<nat>, sends: seq<nat>, reports: seq<nat>)

  datatype World = World(
    state: seq<int>, stamp: seq<Stamp>,
    pending: Option<nat>, // the report handler has counted this quad's report, not stored its state
    busy: Option<nat>, // who holds GCS_busy
    write: Option<nat>, // who holds XBEE_WRITE
    threads: seq<Thread>)

  predicate WellFormed(th: Thread, quads: nat) {
    && th.wait < |Waits(th.kind)|
    && |th.last| == |th.sends| == |th.reports| == quads
  }

  function Wanted(th: Thread): int
    requires th.wait < |Waits(th.kind)|
  {
    Waits(th.kind)[th.wait]
  }

  // ---------- Commands ----------

  datatype Command = Ack(value: int) | Block(id: int) | Target(of: nat)

  datatype Message = Message(to: nat, command: Command)

  const LEADER := 0
  const BLOCK_START_ENGINE := 3
  const BLOCK_TAKE_OFF := 4
  const BLOCK_LAND_HERE := 11

  /** What is sent to quad `i` while waiting for state `s`. */
  function CommandFor(s: int, i: nat): Command {
    if s == SWARM_KILLED then Ack(255)
    else if s == SWARM_INIT then Ack(0xfe)
    else if s == SWARM_WAIT_CMD then Ack(2)
    else if s == SWARM_WAIT_CMD_START_ENGINE then Block(BLOCK_START_ENGINE)
    else if s == SWARM_WAIT_CMD_TAKEOFF then Block(BLOCK_TAKE_OFF)
    else if s == SWARM_WAIT_EXEC_ACK then Target(i)
    else if s == SWARM_EXEC_CMD then Ack(0xfd)
    else Block(BLOCK_LAND_HERE)
  }

  /** The message a thread is about to send. */
  function Outgoing(th: Thread): Option<Message>
    requires th.wait < |Waits(th.kind)|
  {
    match th.pc
    case Sending(i) => Some(Message(i, CommandFor(Wanted(th), i)))
    case Targeting(i) => if i < |th.last| then Some(Message(LEADER, Target(i))) else None
    case Killing(i) => if i + 1 < |th.last| then Some(Message(i, Ack(255))) else None
    case _ => None
  }

  // ---------- One step of a thread that touches no lock ----------

  /** Waiting for these two states nothing is sent. */
  predicate Polls(s: int) {
    s != SWARM_NEGOTIATE_REF && s != SWARM_REPORT_STATE
  }

  /** The test before a command is sent again; the one for landing names another state than
      the one waited for. */
  predicate Unsatisfied(s: int, reported: int) {
    reported != if s == SWARM_LANDED then SWARM_LANDHERE else s
  }

  /** The test in the execute phase, as it is written. */
  predicate NotExecuting(reported: int) {
    reported != SWARM_EXEC_CMD || reported != SWARM_REPORT_STATE
  }

  function At(th: Thread, pc: Pc): Thread {
    th.(pc := pc)
  }

  /** `timer` tells whether more than two seconds have passed since the last execute ack. */
  function Advance(th: Thread, state: seq<int>, stamp: seq<Stamp>, timer: bool): Thread
    requires |state| == |stamp| && WellFormed(th, |state|)
  {
    var n, s := |state|, Wanted(th);
    match th.pc
    case Guarding(second, i) => AdvanceGuard(th, state, second, i)
    case Targeting(i) => At(th, if i >= n then Entering else Targeting(i + 1))
    case Killing(i) => At(th, if i + 1 >= n then Entering else Killing(i + 1))
    case Scanning(i) =>
      if i >= n then At(th, Leaving)
      else if state[i] == s then At(th, Scanning(i + 1))
      else if s == SWARM_EXEC_CMD then At(th, ScanningReport(0))
      else At(th, if Polls(s) then AtQuad(0) else Scanning(0))
    case ScanningReport(i) =>
      if i >= n then At(th, Leaving)
      else At(th, if state[i] == SWARM_REPORT_STATE then ScanningReport(i + 1) else AtQuad(0))
    case AtQuad(i) =>
      if i >= n then At(th, Scanning(0))
      else if s == SWARM_INIT then At(th, if th.last[i] < stamp[i] then AtInitState(i, false) else AtQuad(i + 1))
      else if s == SWARM_EXEC_CMD then At(th, if NotExecuting(state[i]) && timer then Sending(i) else AtQuad(i + 1))
      else At(th, if Unsatisfied(s, state[i]) then AtStamp(i) else AtQuad(i + 1))
    case AtStamp(i) =>
      if i >= n then th else At(th, if th.last[i] < stamp[i] then Stamping(i) else AtQuad(i + 1))
    case AtInitState(i, second) =>
      if i >= n then th
      else if !second then At(th, if state[i] == SWARM_NEGOTIATE_REF then AtQuad(i + 1) else AtInitState(i, true))
      else At(th, if state[i] != SWARM_INIT then Stamping(i) else AtQuad(i + 1))
    case Stamping(i) =>
      if i >= n then th else th.(last := th.last[i := stamp[i]], pc := Sending(i))
    case Sending(i) =>
      if i >= n then th else th.(sends := th.sends[i := th.sends[i] + 1], pc := AtQuad(i + 1))
    case _ => th
  }

  /** A Go command needs all quads in one of two states, an execute ack all waiting for it. */
  function AdvanceGuard(th: Thread, state: seq<int>, second: bool, i: nat): Thread {
    if th.kind == ExecAck then
      if i >= |state| then At(th, Entering)
      else if state[i] == SWARM_WAIT_EXEC_ACK then
        th.(seenReady := th.seenReady + {i}, pc := Guarding(second, i + 1))
      else At(th, Unlocking)
    else
      if i >= |state| then At(th, Targeting(0))
      else if state[i] == (if second then SWARM_REPORT_STATE else SWARM_WAIT_CMD_TAKEOFF) then
        At(th, Guarding(second, i + 1))
      else At(th, if second then Unlocking else Guarding(true, 0))
  }

  // ---------- Steps of the whole station ----------

  datatype Action =
    | Spawn(kind: Kind) // a button is pressed, or the process is told to stop
    | Count(quad: nat) // the report handler counts a report
    | Store(reported: int) // and stores the state in it
    | Act(t: nat, timer: bool)

  function Zeros(n: nat): seq<nat> {
    seq(n, _ => 0)
  }

  function NoStamps(n: nat): seq<Stamp> {
    seq(n, _ => 0)
  }

  function NewThread(kind: Kind, quads: nat): Thread {
    Thread(kind, 0, Start, NoStamps(quads), {}, Zeros(quads), Zeros(quads))
  }

  function Counted(th: Thread, quad: nat): Thread {
    if quad < |th.reports| then th.(reports := th.reports[quad := th.reports[quad] + 1]) else th
  }

  function AllCounted(ths: seq<Thread>, quad: nat): (r: seq<Thread>)
    ensures |r| == |ths| && forall t :: 0 <= t < |ths| ==> r[t] == Counted(ths[t], quad)
  {
    seq(|ths|, t requires 0 <= t < |ths| => Counted(ths[t], quad))
  }

  function Put(w: World, t: nat, th: Thread): World
    requires t < |w.threads|
  {
    w.(threads := w.threads[t := th])
  }

  /** Trying GCS_busy: a thread that finds it taken gives up. The kill handler does not try. */
  function Begin(w: World, t: nat): World
    requires t < |w.threads|
  {
    var th := w.threads[t];
    if th.kind == Kill then Put(w, t, At(th, Killing(0)))
    else if w.busy.Some? then Put(w, t, At(th, Done))
    else
      var pc := if th.kind == Go || th.kind == ExecAck then Guarding(false, 0) else Entering;
      Put(w.(busy := Some(t)), t, th.(seenReady := {}, pc := pc))
  }

  function Enter(w: World, t: nat): World
    requires t < |w.threads|
  {
    var n := |w.state|;
    if w.write.Some? then w
    else
      Put(w.(write := Some(t)), t,
          w.threads[t].(last := NoStamps(n), sends := Zeros(n), reports := Zeros(n), pc := Scanning(0)))
  }

  function Leave(w: World, t: nat): World
    requires t < |w.threads|
  {
    var th := w.threads[t];
    var next :=
      if th.wait + 1 < |Waits(th.kind)| then th.(wait := th.wait + 1, pc := Entering)
      else At(th, if th.kind == Kill then Done else Unlocking);
    Put(w.(write := None), t, next)
  }

  function ActStep(w: World, t: nat, timer: bool): World
    requires t < |w.threads| && |w.state| == |w.stamp| && WellFormed(w.threads[t], |w.state|)
  {
    match w.threads[t].pc
    case Start => Begin(w, t)
    case Entering => Enter(w, t)
    case Leaving => Leave(w, t)
    case Unlocking => Put(w.(busy := None), t, At(w.threads[t], Done))
    case _ => Put(w, t, Advance(w.threads[t], w.state, w.stamp, timer))
  }

  predicate Sane(w: World) {
    |w.state| == |w.stamp| && forall t :: 0 <= t < |w.threads| ==> WellFormed(w.threads[t], |w.state|)
  }

  /** An action that is not possible leaves the world as it is. */
  function Next(w: World, a: Action): World
    requires Sane(w)
  {
    match a
    case Spawn(kind) => w.(threads := w.threads + [NewThread(kind, |w.state|)])
    case Count(quad) =>
      if w.pending.Some? || quad >= |w.stamp| then w
      else w.(stamp := w.stamp[quad := NextStamp(w.stamp[quad])], pending := Some(quad),
              threads := AllCounted(w.threads, quad))
    case Store(reported) =>
      if w.pending.None? || w.pending.value >= |w.state| then w
      else w.(state := w.state[w.pending.value := reported], pending := None)
    case Act(t, timer) => if t < |w.threads| then ActStep(w, t, timer) else w
  }

  // ---------- Swarm: what the quads last reported ----------

  /** The two steps of the report handler, nothing in between. */
  function Reported(w: World, quad: nat, reported: int): World
    requires Sane(w)
  {
    var counted := Next(w, Count(quad));
    if Sane(counted) then Next(counted, Store(reported)) else counted
  }

  lemma ReportedStores(w: World, quad: nat, reported: int)
    requires Sane(w) && w.pending.None? && quad < |w.stamp|
    ensures var w' := Reported(w, quad, reported);
      && w'.state == w.state[quad := reported]
      && w'.stamp == w.stamp[quad := NextStamp(w.stamp[quad])]
      && w'.pending.None?
  {
    assert Sane(Next(w, Count(quad)));
  }

  class Swarm {
    const state: array<int>
    const timestamp: array<Stamp>

    ghost predicate Shows(w: World)
      reads state, timestamp
    {
      state[..] == w.state && timestamp[..] == w.stamp
    }

    constructor (quads: nat)
      ensures state.Length == timestamp.Length == quads && fresh(state) && fresh(timestamp)
      ensures forall k :: 0 <= k < quads ==> state[k] == SWARM_KILLED
    {
      state := new int[quads](_ => SWARM_KILLED);
      timestamp := new Stamp[quads](_ => 0);
    }

    method SetQuadState(quad: nat, s: int)
      requires quad < state.Length == timestamp.Length
      modifies state, timestamp
      ensures state[..] == old(state[..])[quad := s]
      ensures timestamp[..] == old(timestamp[..])[quad := NextStamp(old(timestamp[quad]))]
      ensures forall w: World :: Sane(w) && w.pending.None? && old(Shows(w)) ==> Shows(Reported(w, quad, s))
    {
      if timestamp[quad] < MAX_UINT64 {
        timestamp[quad] := timestamp[quad] + 1;
      } else {
        timestamp[quad] := 0;
      }
      state[quad] := s;
      forall w: World | Sane(w) && w.pending.None? && old(Shows(w))
        ensures Shows(Reported(w, quad, s))
      {
        ReportedStores(w, quad, s);
      }
    }

    method AllInState(s: int) returns (all: bool)
      ensures all <==> forall k :: 0 <= k < state.Length ==> state[k] == s
    {
      for count := 0 to state.Length
        invariant forall k :: 0 <= k < count ==> state[k] == s
      {
        if state[count] != s {
          return false;
        }
      }
      return true;
    }
  }

  // ---------- What every thread keeps ----------

  /** Between taking and releasing GCS_busy. */
  predicate Inside(th: Thread) {
    th.kind != Kill && !th.pc.Start? && !th.pc.Done?
  }

  /** Between taking and releasing XBEE_WRITE. */
  predicate Waiting(th: Thread) {
    match th.pc
    case Start => false
    case Guarding(_, _) => false
    case Targeting(_) => false
    case Killing(_) => false
    case Entering => false
    case Unlocking => false
    case Done => false
    case _ => true
  }

  predicate PcFits(th: Thread, n: nat)
    requires th.wait < |Waits(th.kind)|
  {
    match th.pc
    case Guarding(_, i) => th.kind == Go || th.kind == ExecAck
    case Targeting(i) => th.kind == Go
    case Killing(i) => th.kind == Kill
    case AtStamp(i) => i < n && Wanted(th) != SWARM_EXEC_CMD
    case AtInitState(i, _) => i < n && Wanted(th) == SWARM_INIT
    case Stamping(i) => i < n && Wanted(th) != SWARM_EXEC_CMD
    case Sending(i) => i < n
    case Unlocking => th.kind != Kill
    case _ => true
  }

  predicate UpTo(seen: set<nat>, n: nat) {
    forall q :: 0 <= q < n ==> q in seen
  }

  /** An execute-ack thread past its guard has read every quad as ready. */
  predicate Ready(th: Thread, n: nat) {
    th.kind == ExecAck ==>
      match th.pc
      case Start => true
      case Unlocking => true
      case Done => true
      case Guarding(_, i) => UpTo(th.seenReady, i)
      case _ => UpTo(th.seenReady, n)
  }

  /** The timestamp test for quad `q` has been passed and its timestamp not yet copied. */
  predicate Committed(pc: Pc, q: nat) {
    pc == Stamping(q) || (pc.AtInitState? && pc.i == q)
  }

  /** Sends, reports, copied and current timestamp of one quad, during a gated wait. */
  predicate Balanced(pc: Pc, q: nat, sends: nat, reports: nat, last: Stamp, stamp: Stamp) {
    if Committed(pc, q) then sends <= reports
    else if pc == Sending(q) then sends <= reports && (last < stamp ==> sends + 1 <= reports)
    else sends <= reports + 1 && (last < stamp ==> sends <= reports)
  }

  /** A wait whose sends are gated by timestamps: any but that for execution. */
  predicate Gated(th: Thread)
    requires th.wait < |Waits(th.kind)|
  {
    Waiting(th) && Wanted(th) != SWARM_EXEC_CMD
  }

  predicate AllBalanced(th: Thread, stamp: seq<Stamp>)
    requires |th.last| == |th.sends| == |th.reports| == |stamp|
  {
    forall q :: 0 <= q < |stamp| ==> Balanced(th.pc, q, th.sends[q], th.reports[q], th.last[q], stamp[q])
  }

  predicate ThreadOk(th: Thread, stamp: seq<Stamp>) {
    && WellFormed(th, |stamp|) && PcFits(th, |stamp|) && Ready(th, |stamp|)
    && (Gated(th) ==> AllBalanced(th, stamp))
  }

  lemma AdvanceBalanced(th: Thread, state: seq<int>, stamp: seq<Stamp>, timer: bool, q: nat)
    requires |state| == |stamp| && ThreadOk(th, stamp) && Gated(th) && q < |stamp|
    ensures var th' := Advance(th, state, stamp, timer);
      Balanced(th'.pc, q, th'.sends[q], th'.reports[q], th'.last[q], stamp[q])
  {
    assert Balanced(th.pc, q, th.sends[q], th.reports[q], th.last[q], stamp[q]);
    hide AdvanceGuard, Ready;
  }

  lemma AdvanceKeepsOk(th: Thread, state: seq<int>, stamp: seq<Stamp>, timer: bool)
    requires |state| == |stamp| && ThreadOk(th, stamp) && !th.pc.Leaving? && !th.pc.Entering?
    ensures ThreadOk(Advance(th, state, stamp, timer), stamp)
    ensures Waiting(Advance(th, state, stamp, timer)) == Waiting(th)
    ensures Inside(Advance(th, state, stamp, timer)) == Inside(th)
  {
    var th' := Advance(th, state, stamp, timer);
    AdvanceKeepsShape(th, state, stamp, timer);
    AdvanceKeepsPlace(th, state, stamp, timer);
    AdvanceKeepsReady(th, state, stamp, timer);
    if Gated(th) {
      forall q | 0 <= q < |stamp|
        ensures Balanced(th'.pc, q, th'.sends[q], th'.reports[q], th'.last[q], stamp[q])
      {
        AdvanceBalanced(th, state, stamp, timer, q);
      }
    }
    hide Advance, Balanced, Ready, PcFits;
  }

  lemma AdvanceKeepsShape(th: Thread, state: seq<int>, stamp: seq<Stamp>, timer: bool)
    requires |state| == |stamp| && ThreadOk(th, stamp) && !th.pc.Leaving? && !th.pc.Entering?
    ensures var th' := Advance(th, state, stamp, timer);
      && WellFormed(th', |stamp|) && PcFits(th', |stamp|)
      && th'.kind == th.kind && th'.wait == th.wait
  {
    hide Ready, Gated, AllBalanced, Waiting, Inside;
    if th.pc.Guarding? {
      GuardKeepsShape(th, state);
    } else if !th.pc.Scanning? && !th.pc.ScanningReport? && !th.pc.AtQuad? {
      OtherKeepsShape(th, state, stamp, timer);
    }
    hide AdvanceGuard;
  }

  lemma GuardKeepsShape(th: Thread, state: seq<int>)
    requires WellFormed(th, |state|) && PcFits(th, |state|) && th.pc.Guarding?
    ensures var th' := AdvanceGuard(th, state, th.pc.second, th.pc.i);
      && WellFormed(th', |state|) && th'.kind == th.kind && th'.wait == th.wait && PcFits(th', |state|)
  {
  }

  lemma OtherKeepsShape(th: Thread, state: seq<int>, stamp: seq<Stamp>, timer: bool)
    requires |state| == |stamp| && WellFormed(th, |state|) && PcFits(th, |state|)
    requires !th.pc.Guarding? && !th.pc.Scanning? && !th.pc.ScanningReport? && !th.pc.AtQuad?
    requires !th.pc.Leaving? && !th.pc.Entering?
    ensures var th' := Advance(th, state, stamp, timer);
      && WellFormed(th', |stamp|) && PcFits(th', |stamp|)
      && th'.kind == th.kind && th'.wait == th.wait
  {
    hide AdvanceGuard;
  }

  lemma AdvanceKeepsPlace(th: Thread, state: seq<int>, stamp: seq<Stamp>, timer: bool)
    requires |state| == |stamp| && ThreadOk(th, stamp) && !th.pc.Leaving? && !th.pc.Entering?
    ensures Waiting(Advance(th, state, stamp, timer)) == Waiting(th)
    ensures Inside(Advance(th, state, stamp, timer)) == Inside(th)
  {
    hide Ready, Gated, AllBalanced;
  }

  lemma AdvanceKeepsReady(th: Thread, state: seq<int>, stamp: seq<Stamp>, timer: bool)
    requires |state| == |stamp| && ThreadOk(th, stamp)
    ensures Ready(Advance(th, state, stamp, timer), |stamp|)
  {
    hide AllBalanced;
  }

  /** A report counted keeps the balance of every wait. */
  lemma CountedKeepsOk(th: Thread, stamp: seq<Stamp>, quad: nat)
    requires ThreadOk(th, stamp) && quad < |stamp|
    ensures ThreadOk(Counted(th, quad), stamp[quad := NextStamp(stamp[quad])])
  {
    var th', stamp' := Counted(th, quad), stamp[quad := NextStamp(stamp[quad])];
    if Gated(th) {
      forall q | 0 <= q < |stamp|
        ensures Balanced(th'.pc, q, th'.sends[q], th'.reports[q], th'.last[q], stamp'[q])
      {
        assert Balanced(th.pc, q, th.sends[q], th.reports[q], th.last[q], stamp[q]);
      }
    }
    hide Balanced;
  }

  // ---------- The invariant of the station ----------

  predicate HolderExists(lock: Option<nat>, threads: seq<Thread>) {
    lock.Some? ==> lock.value < |threads|
  }

  predicate Inv(w: World) {
    && |w.state| == |w.stamp|
    && (w.pending.Some? ==> w.pending.value < |w.state|)
    && (forall t :: 0 <= t < |w.threads| ==> ThreadOk(w.threads[t], w.stamp))
    && (forall t :: 0 <= t < |w.threads| ==> (Inside(w.threads[t]) <==> w.busy == Some(t)))
    && (forall t :: 0 <= t < |w.threads| ==> (Waiting(w.threads[t]) <==> w.write == Some(t)))
    && HolderExists(w.busy, w.threads) && HolderExists(w.write, w.threads)
  }

  /** Nothing has been started; what was last reported, and when, is arbitrary. */
  predicate Initial(w: World) {
    && |w.state| == |w.stamp| && w.pending.None? && w.busy.None? && w.write.None? && w.threads == []
  }

  /** Replacing one thread: what is left to show about it. */
  lemma PutKeepsInv(w: World, t: nat, th: Thread, busy: Option<nat>, write: Option<nat>)
    requires Inv(w) && t < |w.threads| && ThreadOk(th, w.stamp)
    requires busy == w.busy || (w.busy.None? && busy == Some(t)) || (w.busy == Some(t) && busy.None?)
    requires write == w.write || (w.write.None? && write == Some(t)) || (w.write == Some(t) && write.None?)
    requires Inside(th) <==> busy == Some(t)
    requires Waiting(th) <==> write == Some(t)
    ensures Inv(Put(w.(busy := busy, write := write), t, th))
  {
    hide ThreadOk, Inside, Waiting;
  }

  lemma BeginKeepsInv(w: World, t: nat)
    requires Inv(w) && t < |w.threads| && w.threads[t].pc.Start?
    ensures Inv(Begin(w, t))
  {
    var th := w.threads[t];
    assert ThreadOk(th, w.stamp) && !Inside(th) && !Waiting(th);
    hide Inv, AllBalanced;
    if th.kind == Kill {
      PutKeepsInv(w, t, At(th, Killing(0)), w.busy, w.write);
    } else if w.busy.Some? {
      PutKeepsInv(w, t, At(th, Done), w.busy, w.write);
    } else {
      var pc := if th.kind == Go || th.kind == ExecAck then Guarding(false, 0) else Entering;
      PutKeepsInv(w, t, th.(seenReady := {}, pc := pc), Some(t), w.write);
    }
  }

  lemma EnterKeepsInv(w: World, t: nat)
    requires Inv(w) && t < |w.threads| && w.threads[t].pc.Entering?
    ensures Inv(Enter(w, t))
  {
    var th, n := w.threads[t], |w.state|;
    assert ThreadOk(th, w.stamp);
    if w.write.None? {
      var th' := th.(last := NoStamps(n), sends := Zeros(n), reports := Zeros(n), pc := Scanning(0));
      assert ThreadOk(th', w.stamp);
      assert Inside(th') == Inside(th);
      assert Inside(th) <==> w.busy == Some(t);
      hide Inv, ThreadOk;
      PutKeepsInv(w, t, th', w.busy, Some(t));
    }
  }

  lemma LeaveKeepsInv(w: World, t: nat)
    requires Inv(w) && t < |w.threads| && w.threads[t].pc.Leaving?
    ensures Inv(Leave(w, t))
  {
    var th := w.threads[t];
    assert ThreadOk(th, w.stamp);
    var next :=
      if th.wait + 1 < |Waits(th.kind)| then th.(wait := th.wait + 1, pc := Entering)
      else At(th, if th.kind == Kill then Done else Unlocking);
    assert Waiting(th) && !Waiting(next) && Inside(next) == Inside(th);
    assert ThreadOk(next, w.stamp);
    assert Inside(th) <==> w.busy == Some(t);
    assert w.write == Some(t);
    hide Inv, ThreadOk;
    PutKeepsInv(w, t, next, w.busy, None);
  }

  lemma UnlockKeepsInv(w: World, t: nat)
    requires Inv(w) && t < |w.threads| && w.threads[t].pc.Unlocking?
    ensures Inv(Put(w.(busy := None), t, At(w.threads[t], Done)))
  {
    var th := w.threads[t];
    assert ThreadOk(th, w.stamp) && Inside(th) && !Waiting(th);
    assert w.busy == Some(t) && w.write != Some(t);
    hide Inv;
    PutKeepsInv(w, t, At(th, Done), None, w.write);
  }

  lemma AdvanceKeepsInv(w: World, t: nat, timer: bool)
    requires Inv(w) && t < |w.threads|
    requires !w.threads[t].pc.Start? && !w.threads[t].pc.Entering? && !w.threads[t].pc.Leaving?
    ensures Sane(w) && Inv(Put(w, t, Advance(w.threads[t], w.state, w.stamp, timer)))
  {
    InvIsSane(w);
    var th := w.threads[t];
    assert ThreadOk(th, w.stamp);
    AdvanceKeepsOk(th, w.state, w.stamp, timer);
    assert Inside(th) <==> w.busy == Some(t);
    assert Waiting(th) <==> w.write == Some(t);
    hide Inv, Advance, ThreadOk, Inside, Waiting;
    PutKeepsInv(w, t, Advance(th, w.state, w.stamp, timer), w.busy, w.write);
  }

  lemma InvIsSane(w: World)
    requires Inv(w)
    ensures Sane(w)
  {
    hide PcFits, Ready, Gated, AllBalanced;
    forall t | 0 <= t < |w.threads|
      ensures WellFormed(w.threads[t], |w.state|)
    {
      assert ThreadOk(w.threads[t], w.stamp);
    }
  }

  lemma SpawnKeepsInv(w: World, kind: Kind)
    requires Inv(w)
    ensures Inv(w.(threads := w.threads + [NewThread(kind, |w.state|)]))
  {
    var th := NewThread(kind, |w.state|);
    assert ThreadOk(th, w.stamp) && !Inside(th) && !Waiting(th);
    hide ThreadOk, Inside, Waiting;
  }

  lemma CountKeepsInv(w: World, quad: nat)
    requires Inv(w) && quad < |w.stamp| && w.pending.None?
    ensures Inv(w.(stamp := w.stamp[quad := NextStamp(w.stamp[quad])], pending := Some(quad),
                   threads := AllCounted(w.threads, quad)))
  {
    var stamp' := w.stamp[quad := NextStamp(w.stamp[quad])];
    var ths := AllCounted(w.threads, quad);
    forall t | 0 <= t < |ths|
      ensures ThreadOk(ths[t], stamp')
      ensures Inside(ths[t]) == Inside(w.threads[t]) && Waiting(ths[t]) == Waiting(w.threads[t])
    {
      assert ThreadOk(w.threads[t], w.stamp);
      CountedKeepsOk(w.threads[t], w.stamp, quad);
      hide ThreadOk;
    }
    hide ThreadOk, Inside, Waiting;
  }

  lemma NextKeepsInv(w: World, a: Action)
    requires Inv(w)
    ensures Sane(w) && Inv(Next(w, a))
  {
    InvIsSane(w);
    match a
    case Spawn(kind) => SpawnKeepsInv(w, kind);
    case Count(quad) =>
      if w.pending.None? && quad < |w.stamp| {
        CountKeepsInv(w, quad);
      }
    case Store(reported) => hide ThreadOk, Inside, Waiting;
    case Act(t, timer) =>
      if t < |w.threads| {
        match w.threads[t].pc
        case Start => BeginKeepsInv(w, t);
        case Entering => EnterKeepsInv(w, t);
        case Leaving => LeaveKeepsInv(w, t);
        case Unlocking => UnlockKeepsInv(w, t);
        case _ => AdvanceKeepsInv(w, t, timer);
      }
  }

  lemma InitialInv(w: World)
    requires Initial(w)
    ensures Inv(w)
  {
  }

  /** The world after any interleaving of steps. */
  function Run(w0: World, actions: seq<Action>): (w: World)
    requires Initial(w0)
    ensures Inv(w) && Sane(w)
  {
    if |actions| == 0 then
      InitialInv(w0);
      InvIsSane(w0);
      w0
    else
      var before := Run(w0, actions[..|actions| - 1]);
      var after := Next(before, actions[|actions| - 1]);
      NextKeepsInv(before, actions[|actions| - 1]);
      InvIsSane(after);
      after
  }

  // ---------- What holds in every run ----------

  /** One command thread at most is active, and one thread at most is inside wait_all_quads. */
  lemma MutualExclusion(w0: World, actions: seq<Action>, t: nat, t': nat)
    requires Initial(w0)
    requires t < |Run(w0, actions).threads| && t' < |Run(w0, actions).threads|
    ensures var w := Run(w0, actions);
      && (Inside(w.threads[t]) && Inside(w.threads[t']) ==> t == t')
      && (Waiting(w.threads[t]) && Waiting(w.threads[t']) ==> t == t')
  {
    hide Run, Inside, Waiting;
    assert Inv(Run(w0, actions));
  }

  /** What step `a` sends. */
  function Sent(w: World, a: Action): Option<Message>
    requires Sane(w)
  {
    if a.Act? && a.t < |w.threads| then Outgoing(w.threads[a.t]) else None
  }

  /** An execute ack is sent only by the thread that holds GCS_busy, and only after it read
      every quad waiting for that ack since it took the lock. */
  lemma ExecuteAckOnlyWhenReady(w0: World, actions: seq<Action>, a: Action, to: nat)
    requires Initial(w0)
    requires Sent(Run(w0, actions), a) == Some(Message(to, Ack(0xfd)))
    ensures var w := Run(w0, actions);
      && a.Act? && w.busy == Some(a.t) && a.t < |w.threads|
      && w.threads[a.t].kind == ExecAck
      && forall q :: 0 <= q < |w.state| ==> q in w.threads[a.t].seenReady
  {
    var w := Run(w0, actions);
    var th := w.threads[a.t];
    hide Run, Sane;
    assert Inv(w);
    assert ThreadOk(th, w.stamp);
    assert Wanted(th) == SWARM_EXEC_CMD;
    assert th.kind == ExecAck;
    assert Inside(th);
  }

  /** What the kill handler still sends in its first pass. */
  function KillPass(th: Thread, state: seq<int>, stamp: seq<Stamp>): seq<Message>
    requires |state| == |stamp| && WellFormed(th, |state|)
    decreases if th.pc.Killing? && th.pc.i < |state| then |state| - th.pc.i else 0
  {
    if th.pc.Killing? then
      var rest := Advance(th, state, stamp, false);
      (if Outgoing(th).Some? then [Outgoing(th).value] else []) +
      (if th.pc.i < |state| then KillPass(rest, state, stamp) else [])
    else []
  }

  /** That pass reaches all quads but the last. */
  lemma {:induction false} KillPassSkipsTheLast(th: Thread, state: seq<int>, stamp: seq<Stamp>)
    requires |state| == |stamp| && WellFormed(th, |state|) && th.pc.Killing? && th.pc.i < |state|
    ensures KillPass(th, state, stamp)
         == seq(|state| - 1 - th.pc.i, k requires 0 <= k => Message(th.pc.i + k, Ack(255)))
    decreases |state| - th.pc.i
  {
    if th.pc.i + 1 < |state| {
      KillPassSkipsTheLast(Advance(th, state, stamp, false), state, stamp);
    }
  }

  /** So the kill handler tells the last quad only inside wait_all_quads, where a quad that does
      not report is told once at most (SendsAreGated). */
  lemma LastQuadKilledInWaitOnly(w0: World, actions: seq<Action>, a: Action, to: nat, c: Command)
    requires Initial(w0)
    requires a.Act? && a.t < |Run(w0, actions).threads| && Run(w0, actions).threads[a.t].kind == Kill
    requires Sent(Run(w0, actions), a) == Some(Message(to, c))
    ensures var w := Run(w0, actions);
      c == Ack(255) && to < |w.state| && (to + 1 == |w.state| ==> w.write == Some(a.t))
  {
    var w := Run(w0, actions);
    var th := w.threads[a.t];
    hide Run, Sane;
    assert Inv(w);
    assert ThreadOk(th, w.stamp);
    assert Waiting(th) <==> w.write == Some(a.t);
    hide Inv, Ready, Gated, AllBalanced;
  }

  /** In one wait, other than that for execution, a quad is sent at most one command more than
      the reports of it that came in. */
  lemma SendsAreGated(w0: World, actions: seq<Action>, t: nat, q: nat)
    requires Initial(w0)
    requires t < |Run(w0, actions).threads| && q < |Run(w0, actions).state|
    requires Gated(Run(w0, actions).threads[t])
    ensures var th := Run(w0, actions).threads[t]; th.sends[q] <= 1 + th.reports[q]
  {
    var w := Run(w0, actions);
    var th := w.threads[t];
    hide Run, Sane;
    assert Inv(w);
    assert ThreadOk(th, w.stamp);
    assert Balanced(th.pc, q, th.sends[q], th.reports[q], th.last[q], w.stamp[q]);
  }

  /** The history a thread keeps is what happened. A quad becomes seen as ready by a read that
      finds it so; a send is counted when it is made. */
  lemma AdvanceHistory(th: Thread, state: seq<int>, stamp: seq<Stamp>, timer: bool, q: nat)
    requires |state| == |stamp| && ThreadOk(th, stamp) && q < |state|
    ensures var th' := Advance(th, state, stamp, timer);
      && (q in th'.seenReady ==> q in th.seenReady || (Inside(th) && state[q] == SWARM_WAIT_EXEC_ACK))
      && th'.sends[q] == th.sends[q] + (if th.pc == Sending(q) then 1 else 0)
      && th'.reports[q] == th.reports[q]
  {
    hide Ready, AllBalanced;
  }

  lemma ActKeepsWellFormed(w: World, t: nat, timer: bool)
    requires Inv(w) && Sane(w) && t < |w.threads|
    ensures WellFormed(ActStep(w, t, timer).threads[t], |w.state|)
  {
    hide Inv, ThreadOk;
    NextKeepsInv(w, Act(t, timer));
    InvIsSane(Next(w, Act(t, timer)));
    hide Advance;
  }

  /** What a thread's own step does to its history: it sees a quad as ready, and counts a send,
      only so; taking GCS_busy forgets what was seen and taking XBEE_WRITE starts the counts again. */
  lemma OwnHistoryIsTrue(w: World, t: nat, timer: bool, q: nat)
    requires Inv(w) && Sane(w) && t < |w.threads| && q < |w.state|
    ensures WellFormed(ActStep(w, t, timer).threads[t], |w.state|)
    ensures var th, th' := w.threads[t], ActStep(w, t, timer).threads[t];
      match th.pc
      case Start => th'.seenReady == {} || (th'.seenReady == th.seenReady && !th'.pc.Guarding?)
      case Entering => w.write.Some? || (th'.sends[q] == 0 && th'.reports[q] == 0)
      case _ =>
        && (q in th'.seenReady && q !in th.seenReady ==> w.busy == Some(t) && w.state[q] == SWARM_WAIT_EXEC_ACK)
        && th'.sends[q] == th.sends[q] + (if th.pc == Sending(q) then 1 else 0)
        && th'.reports[q] == th.reports[q]
  {
    var th := w.threads[t];
    assert ThreadOk(th, w.stamp);
    assert Inside(th) <==> w.busy == Some(t);
    ActKeepsWellFormed(w, t, timer);
    hide Inv, ThreadOk;
    AdvanceHistory(th, w.state, w.stamp, timer, q);
    hide Advance, Inside;
  }

  /** Nothing else touches it, but for the reports, each of which counts once. */
  lemma OtherHistoryIsTrue(w: World, a: Action, t: nat, q: nat)
    requires Inv(w) && Sane(w) && t < |w.threads| && q < |w.state| && !(a.Act? && a.t == t)
    ensures |Next(w, a).threads| > t && |Next(w, a).threads[t].reports| == |w.state|
    ensures var th, th' := w.threads[t], Next(w, a).threads[t];
      && th'.seenReady == th.seenReady && th'.sends == th.sends
      && th'.reports[q] == th.reports[q] + (if a == Count(q) && w.pending.None? then 1 else 0)
  {
    hide Inv, Advance;
  }

  // ---------- The execute phase does not look at the state ----------

  /** The test in that phase excludes no state: the ack goes out whenever the timer allows. */
  lemma ExecuteAckIgnoresState(th: Thread, state: seq<int>, stamp: seq<Stamp>, timer: bool, i: nat)
    requires |state| == |stamp| && WellFormed(th, |state|) && i < |state|
    requires Wanted(th) == SWARM_EXEC_CMD && th.pc == AtQuad(i)
    ensures Advance(th, state, stamp, timer).pc == if timer then Sending(i) else AtQuad(i + 1)
  {
  }

  lemma RunSnoc(w0: World, actions: seq<Action>, a: Action)
    requires Initial(w0)
    ensures Run(w0, actions + [a]) == Next(Run(w0, actions), a)
  {
    hide Next;
    assert (actions + [a])[..|actions|] == actions;
  }

  /** Whenever a run comes to a quad in that phase, the quad can begin to execute and the ack
      be sent to it all the same. */
  lemma LateAck(w0: World, actions: seq<Action>, t: nat, i: nat)
    requires Initial(w0) && AboutToAck(Run(w0, actions), t, i)
    ensures var w := Run(w0, actions + [Count(i)] + [Store(SWARM_EXEC_CMD)] + [Act(t, true)]);
      && i < |w.state| && w.state[i] == SWARM_EXEC_CMD
      && Sent(w, Act(t, false)) == Some(Message(i, Ack(0xfd)))
  {
    RunSnoc(w0, actions, Count(i));
    RunSnoc(w0, actions + [Count(i)], Store(SWARM_EXEC_CMD));
    RunSnoc(w0, actions + [Count(i)] + [Store(SWARM_EXEC_CMD)], Act(t, true));
    hide Run, Next;
    var w1 := Run(w0, actions + [Count(i)]);
    CountBeforeAck(Run(w0, actions), t, i);
    StoreBeforeAck(w1, t, i);
    AckAnyway(Run(w0, actions + [Count(i)] + [Store(SWARM_EXEC_CMD)]), t, i);
  }

  /** Thread `t` is at the top of the inner loop of the execute phase, at quad `i`. */
  predicate AboutToAck(w: World, t: nat, i: nat) {
    && w.pending.None? && AtAck(w, t, i)
  }

  predicate AtAck(w: World, t: nat, i: nat) {
    && i < |w.state| == |w.stamp| && t < |w.threads|
    && w.threads[t].kind == ExecAck && w.threads[t].pc == AtQuad(i)
  }

  lemma CountBeforeAck(w: World, t: nat, i: nat)
    requires Sane(w) && AboutToAck(w, t, i)
    ensures AtAck(Next(w, Count(i)), t, i) && Next(w, Count(i)).pending == Some(i)
  {
    hide ActStep;
  }

  lemma StoreBeforeAck(w: World, t: nat, i: nat)
    requires Sane(w) && AtAck(w, t, i) && w.pending == Some(i)
    ensures var w' := Next(w, Store(SWARM_EXEC_CMD)); AtAck(w', t, i) && w'.state[i] == SWARM_EXEC_CMD
  {
    hide ActStep;
  }

  lemma AckAnyway(w: World, t: nat, i: nat)
    requires Sane(w) && AtAck(w, t, i)
    requires Sane(Next(w, Act(t, true)))
    ensures var w' := Next(w, Act(t, true));
      w'.state == w.state && Sent(w', Act(t, false)) == Some(Message(i, Ack(0xfd)))
  {
    ExecuteAckIgnoresState(w.threads[t], w.state, w.stamp, true, i);
    assert Advance(w.threads[t], w.state, w.stamp, true) == At(w.threads[t], Sending(i));
    hide Advance;
  }

  /** And runs do come there: one quad waits for the ack, the command starts, takes both locks
      and finds the quad not executing yet. */
  lemma LateAckIsReachable() returns (w0: World, actions: seq<Action>)
    ensures Initial(w0) && AboutToAck(Run(w0, actions), 0, 0)
  {
    w0, actions := LoneBegins();
    hide Run, Lone, Initial;
    actions := FollowThread(w0, actions, Start);
    actions := FollowThread(w0, actions, Guarding(false, 0));
    actions := FollowThread(w0, actions, Guarding(false, 1));
    actions := FollowThread(w0, actions, Entering);
    actions := FollowThread(w0, actions, Scanning(0));
    actions := FollowThread(w0, actions, ScanningReport(0));
    LoneIsAtAck(Run(w0, actions));
  }

  lemma LoneBegins() returns (w0: World, actions: seq<Action>)
    ensures Initial(w0) && Lone(Run(w0, actions), Start)
  {
    w0 := World([SWARM_WAIT_EXEC_ACK], [0], None, None, None, []);
    assert Run(w0, []) == w0;
    RunSnoc(w0, [], Spawn(ExecAck));
    actions := [] + [Spawn(ExecAck)];
    hide Run;
    assert Next(w0, Spawn(ExecAck)).threads == [] + [NewThread(ExecAck, 1)];
  }

  /** One quad, waiting for the ack, and one thread, an execute command at `pc`. */
  predicate Lone(w: World, pc: Pc) {
    && w.state == [SWARM_WAIT_EXEC_ACK] && |w.stamp| == 1 && w.pending.None?
    && |w.threads| == 1 && w.threads[0].kind == ExecAck && w.threads[0].wait == 0 && w.threads[0].pc == pc
    && (pc == Start ==> w.busy.None?)
    && (pc == Start || pc.Guarding? || pc == Entering ==> w.write.None?)
  }

  function NextPc(pc: Pc): Pc {
    match pc
    case Start => Guarding(false, 0)
    case Guarding(_, i) => if i == 0 then Guarding(false, 1) else Entering
    case Entering => Scanning(0)
    case Scanning(_) => ScanningReport(0)
    case _ => AtQuad(0)
  }

  predicate OnTheWay(pc: Pc) {
    || pc == Start || pc == Guarding(false, 0) || pc == Guarding(false, 1)
    || pc == Entering || pc == Scanning(0) || pc == ScanningReport(0)
  }

  lemma FollowThread(w0: World, actions: seq<Action>, pc: Pc) returns (more: seq<Action>)
    requires Initial(w0) && Lone(Run(w0, actions), pc)
    requires OnTheWay(pc)
    ensures Lone(Run(w0, more), NextPc(pc))
  {
    RunSnoc(w0, actions, Act(0, true));
    more := actions + [Act(0, true)];
    hide Run;
    if pc == Start || pc == Entering {
      LoneLockStep(Run(w0, actions), pc);
    } else {
      LoneStep(Run(w0, actions), pc);
    }
  }

  lemma LoneLockStep(w: World, pc: Pc)
    requires Sane(w) && Lone(w, pc) && (pc == Start || pc == Entering)
    ensures Lone(Next(w, Act(0, true)), NextPc(pc))
  {
    hide Advance;
  }

  lemma LoneStep(w: World, pc: Pc)
    requires Sane(w) && Lone(w, pc)
    requires OnTheWay(pc) && pc != Start && pc != Entering
    ensures Lone(Next(w, Act(0, true)), NextPc(pc))
  {
    var th := w.threads[0];
    assert Next(w, Act(0, true)) == Put(w, 0, Advance(th, w.state, w.stamp, true));
    hide Next;
    LoneAdvance(th, w.state, w.stamp);
    hide Advance;
  }

  lemma LoneAdvance(th: Thread, state: seq<int>, stamp: seq<Stamp>)
    requires state == [SWARM_WAIT_EXEC_ACK] && |stamp| == 1 && WellFormed(th, 1) && th.kind == ExecAck && th.wait == 0
    requires OnTheWay(th.pc) && th.pc != Start && th.pc != Entering
    ensures var th' := Advance(th, state, stamp, true);
      th'.kind == ExecAck && th'.wait == 0 && th'.pc == NextPc(th.pc)
  {
  }

  lemma LoneIsAtAck(w: World)
    requires Lone(w, AtQuad(0))
    ensures AboutToAck(w, 0, 0)
  {
  }
}

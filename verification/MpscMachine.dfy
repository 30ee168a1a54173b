/**
 The MPSC ring as a transition system. A `State` holds every shared variable of the channel, what
 each producer thread and the receiving thread are about to do next, and histories of what was
 claimed, delivered and handed back. One `Move` performs exactly one access to shared memory (a
 load, a store, a read-modify-write, a slot read or write, or one critical section of a mutex), so
 a run of moves is an interleaving of the threads and every run is some interleaving.
 */
module MpscMachine {
  import opened Arith
  import opened Common

  /** A `Sender` handle. */
  type Hid = nat

  datatype Slot = Slot(round: int, cell: Cell)

  /** One call of `try_send` (or one round of the loop in `send`, which sets `blocking`).
      `start` is the shared head when the call began and `fails` counts the compare-exchanges that
      it lost to another producer; both are histories. */
  datatype Op = Op(h: Hid, v: Ticket, blocking: bool, start: nat, fails: nat)

  /** What a producer thread does next. */
  datatype ProdPC =
    | Idle
    // Sender::try_send
    | CheckRx(op: Op)                   // load rx_dropped
    | LoadClaim(op: Op)                 // load claim
    | LoadHead(op: Op, seqNo: nat)      // load head into cached_head
    | Cas(op: Op, seqNo: nat)           // compare_exchange_weak(seq, seq + 1)
    | Write(op: Op, seqNo: nat)         // write the payload into the slot
    | Publish(op: Op, seqNo: nat)       // store the round
    // Sender::send, Park arm
    | PushList(op: Op)                  // lock the waiter list and push
    | SetWaiting(op: Op)                // store waiting = true
    | ReloadClaim(op: Op)               // load claim
    | ReloadHead(op: Op, seen: nat)     // load head
    | ReloadRx(op: Op)                  // load rx_dropped
    | Park(op: Op)                      // thread::park
    // Parker::wake
    | WakeLoad                          // load parked
    | WakeClear                         // store parked = false
    | WakeTake                          // lock the handle slot and take
    | WakeUnpark(target: Tid)           // unpark and release the lock

  datatype Producer = Producer(pc: ProdPC, token: bool)

  /** What the receiving thread does next. */
  datatype ConsPC =
    | Resting
    | Gone                                        // the receiver has been dropped
    // Receiver::try_recv
    | Probe(blocking: bool)                       // load the round of the next slot
    | ProbeSenders(blocking: bool)                // load senders
    | ProbeAgain(blocking: bool)                  // load the round once more
    | Take                                        // move the payload out, advance the private head
    | StoreHead                                   // store head
    // Receiver::recv, Park arm
    | Spin(left: nat)                             // one of the re-checks before parking
    | PrepSlot                                    // lock the handle slot and register
    | PrepFlag                                    // store parked = true
    | RecheckRound                                // load the round
    | RecheckSenders                              // load senders
    | Cancel                                      // store parked = false
    | Parked                                      // thread::park
    | ClearFlag                                   // store parked = false
    // Receiver::drain
    | DrainLoad(count: nat, max: nat)             // load the round of the next slot
    | DrainTake(count: nat, max: nat)             // move the payload out
    | Callback(count: nat, max: nat)              // inside f
    | DrainStore(count: nat, unwinding: bool)     // PublishGuard::drop
    // Receiver::drop
    | SetRxDropped                                // store rx_dropped = true
    // WaiterList::wake_all; `last` when called from Receiver::drop
    | SwapWaiting(last: bool)                     // swap waiting with false
    | LockList(last: bool)                        // lock the list and take its entries
    | UnparkAll(rest: seq<Tid>, last: bool)       // unpark them one by one, holding the lock

  /** The receiver handle and the thread that uses it. `closed` records that some call returned
      `Disconnected`; `skipped` that the latest advance of the head was not followed by a wake,
      because `f` unwound inside `drain`. */
  datatype Consumer = Consumer(pc: ConsPC, head: nat, tid: Tid, token: bool, closed: bool, skipped: bool)

  /** A won claim: the payload and the thread that won it. */
  datatype Claim = Claim(ticket: Ticket, who: Tid)

  /** Where a payload went. */
  datatype Fate =
    | Held(who: Tid)           // still owned by a running call
    | HandedBack(at: nat)      // returned inside an error, at this position of `returned`
    | Accepted(seqNo: nat)     // put into the ring under this sequence

  datatype Ring = Ring(slots: seq<Slot>, claim: nat, head: nat)

  /** The two ends: the live `Sender` handles with their `cached_head`, and the receiver's flag. */
  datatype Ends = Ends(handles: map<Hid, nat>, senders: nat, rxDropped: bool)

  /** The consumer's Parker (flag, handle slot and its lock) and the producers' WaiterList. */
  datatype Parking = Parking(parked: bool, registered: Option<Tid>, slotLock: Option<Tid>, waiting: bool, list: seq<Tid>)

  /** `dropped` is what Shared::drop dropped, once it has run; `fault` is set by undefined behaviour
      (reading memory that holds no payload), a leak (overwriting one) or an arithmetic overflow. */
  datatype History = History(
    log: seq<Claim>, delivered: seq<Ticket>, fate: seq<Fate>, returned: seq<Ticket>,
    dropped: Option<seq<Ticket>>, fault: bool)

  /** `park` is true for the strategy `WaitStrategy::Park`. */
  datatype State = State(
    cap: nat, park: bool, ring: Ring, ends: Ends, wait: Parking,
    prods: map<Tid, Producer>, rx: Consumer, hist: History)

  datatype Move =
    | StartSend(t: Tid, h: Hid, blocking: bool)
    | CloneSender(h: Hid, h': Hid)
    | DropSender(t: Tid, h: Hid)            // fetch_sub
    | StepProd(t: Tid, quirk: bool)         // quirk: spurious CAS failure, spurious park return
    | StartRecv(blocking: bool)
    | StartDrain(max: nat)
    | StartDropRx
    | StepCons(quirk: bool)                 // quirk: spurious park return, f unwinds
    | ProdNoise(t: Tid, token: bool)        // other code unparks the thread, or uses up its token
    | ConsNoise(tid: Tid, token: bool)      // the same; between calls the receiver may change thread
    | Reap                                  // Shared::drop

  const PARK_SPINS: nat := 16

  // ---------- reading the state ----------

  function SlotAt(s: State, seqNo: nat): Slot
    requires 0 < s.cap == |s.ring.slots|
  {
    s.ring.slots[SlotOf(seqNo, s.cap)]
  }

  /** Receiver::slot_published. */
  predicate Published(s: State, seqNo: nat)
    requires 0 < s.cap == |s.ring.slots|
  {
    SlotAt(s, seqNo).round == Tag(seqNo, s.cap)
  }

  /** The bound a producer that sees head `h` compares its sequence with. */
  function Limit(h: nat, cap: nat): nat {
    Saturate(h + cap)
  }

  predicate InOp(pc: ProdPC) {
    pc.CheckRx? || pc.LoadClaim? || pc.LoadHead? || pc.Cas? || pc.Write? || pc.Publish? ||
    pc.PushList? || pc.SetWaiting? || pc.ReloadClaim? || pc.ReloadHead? || pc.ReloadRx? || pc.Park?
  }

  /** The call has won a sequence that it has not published yet. */
  predicate InFlight(pc: ProdPC) {
    pc.Write? || pc.Publish?
  }

  predicate HandleFree(s: State, h: Hid) {
    h in s.ends.handles && forall t :: t in s.prods && InOp(s.prods[t].pc) ==> s.prods[t].pc.op.h != h
  }

  predicate WellShaped(s: State) {
    && 0 < s.cap == |s.ring.slots|
    && forall t :: t in s.prods && InOp(s.prods[t].pc) ==> s.prods[t].pc.op.h in s.ends.handles
  }

  // ---------- the initial state ----------

  predicate Init(s: State) {
    && 0 < s.cap <= USIZE_MAX
    && |s.ring.slots| == s.cap
    && (forall i :: 0 <= i < s.cap ==> s.ring.slots[i] == Slot(-1, None))
    && s.ring.claim == 0 && s.ring.head == 0
    && |s.ends.handles| == 1 && (forall h :: h in s.ends.handles ==> s.ends.handles[h] == 0)
    && s.ends.senders == 1 && !s.ends.rxDropped
    && !s.wait.parked && s.wait.registered == None && s.wait.slotLock == None
    && !s.wait.waiting && s.wait.list == []
    && (forall t :: t in s.prods ==> s.prods[t].pc == Idle)
    && s.rx.pc == Resting && s.rx.head == 0 && !s.rx.closed && !s.rx.skipped
    && s.hist.log == [] && s.hist.delivered == [] && s.hist.fate == [] && s.hist.returned == [] && s.hist.dropped == None
    && !s.hist.fault
  }

  // ---------- producer steps ----------

  function SetPC(s: State, t: Tid, pc: ProdPC): State
    requires t in s.prods
  {
    s.(prods := s.prods[t := s.prods[t].(pc := pc)])
  }

  /** The local test of the claim loop against the handle's cached head. */
  function Decide(s: State, op: Op, seqNo: nat): ProdPC
    requires op.h in s.ends.handles
  {
    if seqNo >= Limit(s.ends.handles[op.h], s.cap) then LoadHead(op, seqNo) else Cas(op, seqNo)
  }

  /** A fresh call of `try_send` on the same payload. */
  function Renew(s: State, op: Op): ProdPC {
    CheckRx(op.(start := s.ring.head, fails := 0))
  }

  /** The call ends with an error that carries the payload. */
  function GiveBack(s: State, t: Tid, op: Op): State
    requires t in s.prods && op.v < |s.hist.fate|
  {
    SetPC(s.(hist := s.hist.(returned := s.hist.returned + [op.v], fate := s.hist.fate[op.v := HandedBack(|s.hist.returned|)])), t, Idle)
  }

  /** What `send` does after `try_send` returned `Full`. */
  function OnFull(s: State, t: Tid, op: Op): State
    requires t in s.prods && op.v < |s.hist.fate|
  {
    if !op.blocking then GiveBack(s, t, op)
    else if s.park then SetPC(s, t, PushList(op))
    else SetPC(s, t, Renew(s, op))
  }

  predicate ListUnlocked(s: State) {
    !s.rx.pc.UnparkAll?
  }

  predicate ProdEnabled(s: State, t: Tid, quirk: bool) {
    t in s.prods &&
    match s.prods[t].pc
    case Idle => false
    case PushList(_) => ListUnlocked(s)
    case Park(_) => s.prods[t].token || quirk
    case WakeTake => s.wait.slotLock == None
    case _ => true
  }

  function StepCas(s: State, t: Tid, op: Op, seqNo: nat, quirk: bool): State
    requires t in s.prods && op.h in s.ends.handles && op.v < |s.hist.fate|
  {
    if s.ring.claim == seqNo && !quirk then
      SetPC(s.(ring := s.ring.(claim := seqNo + 1),
               hist := s.hist.(log := s.hist.log + [Claim(op.v, t)], fate := s.hist.fate[op.v := Accepted(|s.hist.log|)],
                               fault := s.hist.fault || seqNo + 1 > USIZE_MAX)), t, Write(op, seqNo))
    else
      SetPC(s, t, Decide(s, if s.ring.claim == seqNo then op else op.(fails := op.fails + 1), s.ring.claim))
  }

  function StepWrite(s: State, t: Tid, op: Op, seqNo: nat): State
    requires t in s.prods && 0 < s.cap == |s.ring.slots|
  {
    var i := SlotOf(seqNo, s.cap);
    SetPC(s.(ring := s.ring.(slots := s.ring.slots[i := s.ring.slots[i].(cell := Some(op.v))]),
             hist := s.hist.(fault := s.hist.fault || s.ring.slots[i].cell != None)), t, Publish(op, seqNo))
  }

  function StepPublish(s: State, t: Tid, seqNo: nat): State
    requires t in s.prods && 0 < s.cap == |s.ring.slots|
  {
    var i := SlotOf(seqNo, s.cap);
    SetPC(s.(ring := s.ring.(slots := s.ring.slots[i := s.ring.slots[i].(round := Tag(seqNo, s.cap))])), t,
          if s.park then WakeLoad else Idle)
  }

  function StepLoadHead(s: State, t: Tid, op: Op, seqNo: nat): State
    requires t in s.prods && op.v < |s.hist.fate|
  {
    var s1 := s.(ends := s.ends.(handles := s.ends.handles[op.h := s.ring.head]));
    if seqNo >= Limit(s.ring.head, s.cap) then OnFull(s1, t, op) else SetPC(s1, t, Cas(op, seqNo))
  }

  function StepTake(s: State, t: Tid): State
    requires t in s.prods
  {
    match s.wait.registered
    case None => SetPC(s, t, Idle)
    case Some(u) => SetPC(s.(wait := s.wait.(registered := None, slotLock := Some(t))), t, WakeUnpark(u))
  }

  function StepUnpark(s: State, t: Tid, u: Tid): State
    requires t in s.prods
  {
    SetPC(s.(wait := s.wait.(slotLock := None), rx := if u == s.rx.tid then s.rx.(token := true) else s.rx), t, Idle)
  }

  function ProdStep(s: State, t: Tid, quirk: bool): State
    requires WellShaped(s) && ProdEnabled(s, t, quirk)
    requires InOp(s.prods[t].pc) ==> s.prods[t].pc.op.v < |s.hist.fate|
  {
    match s.prods[t].pc
    case Idle => s
    case CheckRx(op) => if s.ends.rxDropped then GiveBack(s, t, op) else SetPC(s, t, LoadClaim(op))
    case LoadClaim(op) => SetPC(s, t, Decide(s, op, s.ring.claim))
    case LoadHead(op, seqNo) => StepLoadHead(s, t, op, seqNo)
    case Cas(op, seqNo) => StepCas(s, t, op, seqNo, quirk)
    case Write(op, seqNo) => StepWrite(s, t, op, seqNo)
    case Publish(op, seqNo) => StepPublish(s, t, seqNo)
    case PushList(op) => SetPC(s.(wait := s.wait.(list := s.wait.list + [t])), t, SetWaiting(op))
    case SetWaiting(op) => SetPC(s.(wait := s.wait.(waiting := true)), t, ReloadClaim(op))
    case ReloadClaim(op) => SetPC(s, t, ReloadHead(op, s.ring.claim))
    case ReloadHead(op, seen) =>
      SetPC(s, t, if seen < Limit(s.ring.head, s.cap) then Renew(s, op) else ReloadRx(op))
    case ReloadRx(op) => SetPC(s, t, if s.ends.rxDropped then Renew(s, op) else Park(op))
    case Park(op) => s.(prods := s.prods[t := Producer(Renew(s, op), false)])
    case WakeLoad => SetPC(s, t, if s.wait.parked then WakeClear else Idle)
    case WakeClear => SetPC(s.(wait := s.wait.(parked := false)), t, WakeTake)
    case WakeTake => StepTake(s, t)
    case WakeUnpark(u) => StepUnpark(s, t, u)
  }

  // ---------- consumer steps ----------

  function SetRx(s: State, pc: ConsPC): State {
    s.(rx := s.rx.(pc := pc))
  }

  predicate ConsEnabled(s: State, quirk: bool) {
    match s.rx.pc
    case Resting => false
    case Gone => false
    case PrepSlot => s.wait.slotLock == None
    case Parked => s.rx.token || quirk
    case _ => true
  }

  /** Move the payload out of the next slot and advance the private head. */
  function MoveOut(s: State, pc: ConsPC): State
    requires 0 < s.cap == |s.ring.slots|
  {
    var i := SlotOf(s.rx.head, s.cap);
    match s.ring.slots[i].cell
    case None => s.(hist := s.hist.(fault := true), rx := s.rx.(pc := pc))
    case Some(v) =>
      s.(ring := s.ring.(slots := s.ring.slots[i := s.ring.slots[i].(cell := None)]),
         hist := s.hist.(delivered := s.hist.delivered + [v], fault := s.hist.fault || s.rx.head + 1 > USIZE_MAX),
         rx := s.rx.(pc := pc, head := s.rx.head + 1))
  }

  function AfterWake(last: bool): ConsPC {
    if last then Gone else Resting
  }

  function EnterWake(s: State, last: bool): State {
    s.(rx := s.rx.(pc := SwapWaiting(last), skipped := false))
  }

  function StepStoreHead(s: State): State {
    var s1 := s.(ring := s.ring.(head := s.rx.head));
    if s.park then EnterWake(s1, false) else SetRx(s1, Resting)
  }

  function StepDrainStore(s: State, count: nat, unwinding: bool): State {
    if count == 0 then SetRx(s, Resting)
    else if unwinding then s.(ring := s.ring.(head := s.rx.head), rx := s.rx.(pc := Resting, skipped := true))
    else StepStoreHead(s)
  }

  function Unpark(s: State, t: Tid): State {
    if t in s.prods then s.(prods := s.prods[t := s.prods[t].(token := true)]) else s
  }

  function StepProbeAgain(s: State): State
    requires 0 < s.cap == |s.ring.slots|
  {
    if Published(s, s.rx.head) then SetRx(s, Take)
    else s.(rx := s.rx.(pc := Resting, closed := true))
  }

  function StepProbeSenders(s: State, blocking: bool): State {
    SetRx(s, if s.ends.senders == 0 then ProbeAgain(blocking)
             else if !blocking then Resting
             else if s.park then Spin(PARK_SPINS) else Probe(true))
  }

  function StepUnparkAll(s: State, rest: seq<Tid>, last: bool): State {
    if rest == [] then SetRx(s, AfterWake(last))
    else SetRx(Unpark(s, rest[0]), UnparkAll(rest[1..], last))
  }

  function ConsStep(s: State, quirk: bool): State
    requires WellShaped(s) && ConsEnabled(s, quirk)
  {
    match s.rx.pc
    case Resting => s
    case Gone => s
    case Probe(b) => SetRx(s, if Published(s, s.rx.head) then Take else ProbeSenders(b))
    case ProbeSenders(b) => StepProbeSenders(s, b)
    case ProbeAgain(b) => StepProbeAgain(s)
    case Take => MoveOut(s, StoreHead)
    case StoreHead => StepStoreHead(s)
    case Spin(left) =>
      SetRx(s, if Published(s, s.rx.head) then Probe(true)
               else if left <= 1 then PrepSlot else Spin(left - 1))
    case PrepSlot => s.(wait := s.wait.(registered := Some(s.rx.tid)), rx := s.rx.(pc := PrepFlag))
    case PrepFlag => s.(wait := s.wait.(parked := true), rx := s.rx.(pc := RecheckRound))
    case RecheckRound => SetRx(s, if Published(s, s.rx.head) then Cancel else RecheckSenders)
    case RecheckSenders => SetRx(s, if s.ends.senders == 0 then Cancel else Parked)
    case Cancel => s.(wait := s.wait.(parked := false), rx := s.rx.(pc := Probe(true)))
    case Parked => s.(rx := s.rx.(pc := ClearFlag, token := false))
    case ClearFlag => s.(wait := s.wait.(parked := false), rx := s.rx.(pc := Probe(true)))
    case DrainLoad(c, m) =>
      SetRx(s, if Published(s, s.rx.head) then DrainTake(c, m) else DrainStore(c, false))
    case DrainTake(c, m) => MoveOut(s, Callback(c + 1, m))
    case Callback(c, m) =>
      SetRx(s, if quirk then DrainStore(c, true) else if c < m then DrainLoad(c, m) else DrainStore(c, false))
    case DrainStore(c, u) => StepDrainStore(s, c, u)
    case SetRxDropped => EnterWake(s.(ends := s.ends.(rxDropped := true)), true)
    case SwapWaiting(last) => s.(wait := s.wait.(waiting := false), rx := s.rx.(pc := if s.wait.waiting then LockList(last) else AfterWake(last)))
    case LockList(last) => s.(wait := s.wait.(list := []), rx := s.rx.(pc := UnparkAll(s.wait.list, last)))
    case UnparkAll(rest, last) => StepUnparkAll(s, rest, last)
  }

  // ---------- the remaining moves ----------

  /** Shared::drop walks the published prefix from the shared head. `lap` bounds the walk: it looks
      at each slot at most once (see `WalkStops`). */
  function Walk(slots: seq<Slot>, cap: nat, seqNo: nat, lap: nat): seq<nat>
    requires 0 < cap == |slots|
    decreases lap
  {
    if lap == 0 || slots[SlotOf(seqNo, cap)].round != Tag(seqNo, cap) then []
    else [seqNo] + Walk(slots, cap, seqNo + 1, lap - 1)
  }

  function CellsOf(slots: seq<Slot>, cap: nat, seqs: seq<nat>): seq<Cell>
    requires 0 < cap == |slots|
  {
    seq(|seqs|, k requires 0 <= k < |seqs| => slots[SlotOf(seqs[k], cap)].cell)
  }

  function Payloads(cells: seq<Cell>): seq<Ticket> {
    seq(|cells|, k requires 0 <= k < |cells| => if cells[k].Some? then cells[k].value else 0)
  }

  function StepReap(s: State): State
    requires 0 < s.cap == |s.ring.slots|
  {
    var cells := CellsOf(s.ring.slots, s.cap, Walk(s.ring.slots, s.cap, s.ring.head, s.cap + 1));
    s.(hist := s.hist.(dropped := Some(Payloads(cells)), fault := s.hist.fault || None in cells))
  }

  /** The last `Arc` goes away: no handle is left and no call is running. */
  predicate AllDone(s: State) {
    && s.ends.handles == map[]
    && s.rx.pc == Gone
    && forall t :: t in s.prods ==> s.prods[t].pc == Idle
  }

  predicate Enabled(s: State, m: Move) {
    WellShaped(s) &&
    match m
    case StartSend(t, h, _) => t in s.prods && s.prods[t].pc == Idle && HandleFree(s, h)
    case CloneSender(h, h') => HandleFree(s, h) && h' !in s.ends.handles
    case DropSender(t, h) => t in s.prods && s.prods[t].pc == Idle && HandleFree(s, h) && s.ends.senders > 0
    case StepProd(t, q) => ProdEnabled(s, t, q) && (InOp(s.prods[t].pc) ==> s.prods[t].pc.op.v < |s.hist.fate|)
    case StartRecv(_) => s.rx.pc == Resting
    case StartDrain(_) => s.rx.pc == Resting
    case StartDropRx => s.rx.pc == Resting
    case StepCons(q) => ConsEnabled(s, q)
    case ProdNoise(t, token) => t in s.prods && (token || s.prods[t].pc == Idle)
    case ConsNoise(tid, token) =>
      || (s.rx.pc == Resting)
      || (s.rx.pc.Callback? && tid == s.rx.tid)
      || (token && tid == s.rx.tid)
    case Reap => AllDone(s) && s.hist.dropped == None
  }

  function Apply(s: State, m: Move): State
    requires Enabled(s, m)
  {
    match m
    case StartSend(t, h, b) =>
      SetPC(s.(hist := s.hist.(fate := s.hist.fate + [Held(t)])), t, CheckRx(Op(h, |s.hist.fate|, b, s.ring.head, 0)))
    case CloneSender(h, h') => s.(ends := s.ends.(handles := s.ends.handles[h' := 0], senders := s.ends.senders + 1))
    case DropSender(t, h) =>
      SetPC(s.(ends := s.ends.(handles := s.ends.handles - {h}, senders := s.ends.senders - 1)), t, if s.ends.senders == 1 then WakeLoad else Idle)
    case StepProd(t, q) => ProdStep(s, t, q)
    case StartRecv(b) => SetRx(s, Probe(b))
    case StartDrain(max) => SetRx(s, if max > 0 then DrainLoad(0, max) else Resting)
    case StartDropRx => SetRx(s, SetRxDropped)
    case StepCons(q) => ConsStep(s, q)
    case ProdNoise(t, token) => s.(prods := s.prods[t := s.prods[t].(token := token)])
    case ConsNoise(tid, token) => s.(rx := s.rx.(tid := tid, token := token))
    case Reap => StepReap(s)
  }

  // ---------- runs ----------

  ghost predicate Next(s: State, s': State) {
    exists m :: Enabled(s, m) && s' == Apply(s, m)
  }

  /** A finite run: consecutive states are one move apart. */
  ghost predicate IsRun(run: seq<State>) {
    |run| > 0 && forall i, j {:trigger Next(run[i], run[j])} :: 0 <= i && j == i + 1 && j < |run| ==> Next(run[i], run[j])
  }

  ghost predicate Reachable(s: State) {
    exists run :: IsRun(run) && Init(run[0]) && run[|run| - 1] == s
  }
}

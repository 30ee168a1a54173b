/**
 The MPSC ring on store buffers, for the strategy Park. Every store of `MpscMachine` (a slot, a round, the head,
 the flags) goes into the buffer of the thread that makes it and reaches memory later, in order; a `SeqCst`
 fence, a mutex lock and a read-modify-write wait until the buffer of their thread is empty. All other steps
 read memory as it is.
 */
module MpscBuffered {
  import opened Common
  import opened Arith
  import M = MpscMachine

  /** A store of a sending thread. The operation and the sequence that it belongs to are bookkeeping. */
  datatype TxStore =
    | Cell(op: M.Op, q: nat)        // the payload into its slot
    | Round(op: M.Op, q: nat)       // the slot's round
    | Waiting(op: M.Op)             // waiting = true
    | LowerFlag                     // parked = false, in Parker::wake

  /** A store of the receiver. `LateHead` is that of a drain that unwinds, which no fence follows; for the
      other head stores `from` says where they were made. */
  datatype RxStore =
    | RaiseFlag                             // parked = true
    | Withdraw                              // parked = false, in cancel or after park
    | LateHead(n: nat)
    | NewHead(n: nat, from: M.ConsPC)
    | DropFlag                              // rx_dropped = true

  /** `mem` has memory as it is, and the threads where they are. */
  datatype State = State(mem: M.State, bufs: map<Tid, seq<TxStore>>, rxBuf: seq<RxStore>)

  datatype Move =
    | Do(c: M.Move)
    | FlushTx(t: Tid)
    | FlushRx

  function BufOf(bufs: map<Tid, seq<TxStore>>, t: Tid): seq<TxStore> {
    if t in bufs then bufs[t] else []
  }

  predicate IsStore(pc: M.ProdPC) {
    pc.Write? || pc.Publish? || pc.SetWaiting? || pc.WakeClear?
  }

  predicate IsRxStore(pc: M.ConsPC) {
    pc.PrepFlag? || pc.Cancel? || pc.ClearFlag? || pc.StoreHead? || pc.SetRxDropped? || (pc.DrainStore? && pc.count > 0)
  }

  /** A fence (before the load of `parked` and before the re-check), a lock, or a compare-exchange. */
  predicate Waits(pc: M.ProdPC) {
    pc.WakeLoad? || pc.ReloadClaim? || pc.PushList? || pc.WakeTake? || pc.Cas?
  }

  predicate RxWaits(pc: M.ConsPC) {
    pc.RecheckRound? || pc.SwapWaiting? || pc.PrepSlot? || pc.LockList?
  }

  /** A call that has not stored its round for good still has its handle. */
  predicate Returned(s: State, h: M.Hid) {
    forall t :: t in s.bufs ==> forall e :: e in s.bufs[t] && e.Round? ==> e.op.h != h
  }

  predicate Enabled(s: State, m: Move) {
    match m
    case Do(c) =>
      M.Enabled(s.mem, c) && (
        match c
        case StepProd(t, _) => Waits(s.mem.prods[t].pc) ==> BufOf(s.bufs, t) == []
        case StepCons(_) => RxWaits(s.mem.rx.pc) ==> s.rxBuf == []
        case StartSend(_, h, _) => Returned(s, h)
        case CloneSender(h, _) => Returned(s, h)
        case DropSender(_, h) => Returned(s, h)
        case ConsNoise(tid, _) => tid == s.mem.rx.tid || s.rxBuf == []    // a hand-over synchronizes
        case _ => true)
    case FlushTx(t) => 0 < s.mem.cap == |s.mem.ring.slots| && BufOf(s.bufs, t) != []
    case FlushRx => s.rxBuf != []
  }

  // ---------- stores enter the buffers ----------

  /** The store that a thread is about to make. */
  function StoreOf(pc: M.ProdPC): TxStore
    requires IsStore(pc)
  {
    match pc
    case Write(op, q) => Cell(op, q)
    case Publish(op, q) => Round(op, q)
    case SetWaiting(op) => Waiting(op)
    case WakeClear => LowerFlag
  }

  /** Where it is once that store is in its buffer. */
  function AfterStore(pc: M.ProdPC): M.ProdPC
    requires IsStore(pc)
  {
    match pc
    case Write(op, q) => M.Publish(op, q)
    case Publish(op, q) => M.WakeLoad
    case SetWaiting(op) => M.ReloadClaim(op)
    case WakeClear => M.WakeTake
  }

  function IssueTx(s: State, t: Tid): State
    requires t in s.mem.prods && IsStore(s.mem.prods[t].pc)
  {
    var pc := s.mem.prods[t].pc;
    s.(mem := M.SetPC(s.mem, t, AfterStore(pc)), bufs := s.bufs[t := BufOf(s.bufs, t) + [StoreOf(pc)]])
  }

  /** The store that the receiver is about to make. */
  function RxStoreOf(rx: M.Consumer): RxStore
    requires IsRxStore(rx.pc)
  {
    match rx.pc
    case PrepFlag => RaiseFlag
    case Cancel => Withdraw
    case ClearFlag => Withdraw
    case StoreHead => NewHead(rx.head, rx.pc)
    case DrainStore(_, unwinding) => if unwinding then LateHead(rx.head) else NewHead(rx.head, rx.pc)
    case SetRxDropped => DropFlag
  }

  /** The receiver after it has issued its store. */
  function AfterRxStore(rx: M.Consumer): M.Consumer
    requires IsRxStore(rx.pc)
  {
    match rx.pc
    case PrepFlag => rx.(pc := M.RecheckRound)
    case Cancel => rx.(pc := M.Probe(true))
    case ClearFlag => rx.(pc := M.Probe(true))
    case StoreHead => rx.(pc := M.SwapWaiting(false))
    case DrainStore(_, unwinding) => if unwinding then rx.(pc := M.Resting, skipped := true) else rx.(pc := M.SwapWaiting(false))
    case SetRxDropped => rx.(pc := M.SwapWaiting(true))
  }

  function IssueRx(s: State): State
    requires IsRxStore(s.mem.rx.pc)
  {
    s.(mem := s.mem.(rx := AfterRxStore(s.mem.rx)), rxBuf := s.rxBuf + [RxStoreOf(s.mem.rx)])
  }

  // ---------- and reach memory ----------

  function Land(m: M.State, e: TxStore): M.State
    requires 0 < m.cap == |m.ring.slots|
  {
    match e
    case Cell(op, q) =>
      var i := SlotOf(q, m.cap);
      m.(ring := m.ring.(slots := m.ring.slots[i := m.ring.slots[i].(cell := Some(op.v))]),
         hist := m.hist.(fault := m.hist.fault || m.ring.slots[i].cell != None))
    case Round(_, q) =>
      var i := SlotOf(q, m.cap);
      m.(ring := m.ring.(slots := m.ring.slots[i := m.ring.slots[i].(round := Tag(q, m.cap))]))
    case Waiting(_) => m.(wait := m.wait.(waiting := true))
    case LowerFlag => m.(wait := m.wait.(parked := false))
  }

  function RxLand(m: M.State, e: RxStore): M.State {
    match e
    case RaiseFlag => m.(wait := m.wait.(parked := true))
    case Withdraw => m.(wait := m.wait.(parked := false))
    case LateHead(n) => m.(ring := m.ring.(head := n))
    case NewHead(n, _) => m.(ring := m.ring.(head := n), rx := m.rx.(skipped := false))
    case DropFlag => m.(ends := m.ends.(rxDropped := true), rx := m.rx.(skipped := false))
  }

  function Apply(s: State, m: Move): State
    requires Enabled(s, m)
  {
    match m
    case Do(c) =>
      if c.StepProd? && IsStore(s.mem.prods[c.t].pc) then IssueTx(s, c.t)
      else if c.StepCons? && IsRxStore(s.mem.rx.pc) then IssueRx(s)
      else s.(mem := M.Apply(s.mem, c))
    case FlushTx(t) => s.(mem := Land(s.mem, s.bufs[t][0]), bufs := s.bufs[t := s.bufs[t][1..]])
    case FlushRx => s.(mem := RxLand(s.mem, s.rxBuf[0]), rxBuf := s.rxBuf[1..])
  }

  predicate Init(s: State) {
    M.Init(s.mem) && s.mem.park && s.bufs == map[] && s.rxBuf == []
  }

  ghost predicate Next(s: State, s': State) {
    exists m :: Enabled(s, m) && s' == Apply(s, m)
  }

  /** A finite run: consecutive states are one move apart. */
  ghost predicate IsRun(run: seq<State>) {
    |run| > 0 && forall i, j {:trigger Next(run[i], run[j])} :: 0 <= i && j == i + 1 && j < |run| ==> Next(run[i], run[j])
  }

  ghost predicate Reachable(s: State) {
    exists run :: IsRun(run) && Init(run[0]) && run[|run| - 1] == s
  }
}

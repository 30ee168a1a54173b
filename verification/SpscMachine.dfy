/**
 The SPSC ring as a transition system with its data: slots, the two shared counters, and the copies of
 them that each side caches. Each move is one access to shared memory. The accesses of the park protocol
 touch none of these variables and are left to `SpscPark`.
 */
module SpscMachine {
  import opened Arith
  import opened Common

  /** What the sending thread does next. `blocking` is set when `send` called `try_send`. */
  datatype TxPC =
    | Idle
    | Gone
    | CheckGone(v: Ticket, blocking: bool)    // load disconnected
    | ReloadHead(v: Ticket, blocking: bool)   // load head into cached_head
    | Write(v: Ticket)                        // write the slot, advance the private tail
    | StoreTail                               // store tail
    | StoreGone                               // drop: store disconnected = true

  datatype RxPC =
    | Resting
    | Left
    | ReloadTail                              // load tail into cached_tail
    | LoadGone                                // load disconnected
    | ReloadAgain                             // load tail once more
    | Take                                    // read the slot, advance the private head
    | StoreHead                               // store head
    | DrainReload(count: nat, max: nat)
    | DrainTake(count: nat, max: nat)
    | Callback(count: nat, max: nat)          // inside f
    | DrainStore(count: nat)                  // PublishGuard::drop
    | StoreClosed                             // drop: store disconnected = true

  datatype Sender = Sender(pc: TxPC, tail: nat, cachedHead: nat)

  /** `drained` records that some call returned `Disconnected`. */
  datatype Receiver = Receiver(pc: RxPC, head: nat, cachedTail: nat, drained: bool)

  /** Where a payload went. */
  datatype Fate = Held | HandedBack(at: nat) | Accepted(seqNo: nat)

  /** `fault` is set by a read of a slot without a payload, an overwritten payload, or an underflow. */
  datatype History = History(
    log: seq<Ticket>, delivered: seq<Ticket>, fate: seq<Fate>, returned: seq<Ticket>,
    dropped: Option<seq<Ticket>>, fault: bool)

  datatype State = State(
    cap: nat, buf: seq<Cell>, tail: nat, head: nat, disconnected: bool,
    tx: Sender, rx: Receiver, hist: History)

  datatype Move =
    | StartSend(blocking: bool)
    | StartDropTx
    | StepTx
    | StartRecv
    | StartDrain(max: nat)
    | StartDropRx
    | StepRx(unwinds: bool)
    | Reap

  predicate Init(s: State) {
    && 0 < s.cap == |s.buf| && (forall i :: 0 <= i < s.cap ==> s.buf[i] == None)
    && s.tail == 0 && s.head == 0 && !s.disconnected
    && s.tx == Sender(Idle, 0, 0) && s.rx == Receiver(Resting, 0, 0, false)
    && s.hist == History([], [], [], [], None, false)
  }

  // ---------- the sender ----------

  function SetTx(s: State, pc: TxPC): State {
    s.(tx := s.tx.(pc := pc))
  }

  /** The call ends with an error that carries the payload. */
  function GiveBack(s: State, v: Ticket): State
    requires v < |s.hist.fate|
  {
    SetTx(s.(hist := s.hist.(returned := s.hist.returned + [v], fate := s.hist.fate[v := HandedBack(|s.hist.returned|)])), Idle)
  }

  /** A difference of counters that would underflow is recorded as a fault. */
  function StepCheckGone(s: State, v: Ticket, blocking: bool): State
    requires v < |s.hist.fate|
  {
    if s.disconnected then GiveBack(s, v)
    else
      SetTx(s.(hist := s.hist.(fault := s.hist.fault || s.tx.tail - s.tx.cachedHead < 0)),
            if s.tx.tail - s.tx.cachedHead == s.cap then ReloadHead(v, blocking) else Write(v))
  }

  function StepReloadHead(s: State, v: Ticket, blocking: bool): State
    requires v < |s.hist.fate|
  {
    var s1 := s.(tx := s.tx.(cachedHead := s.head), hist := s.hist.(fault := s.hist.fault || s.tx.tail - s.head < 0));
    if s.tx.tail - s.head != s.cap then SetTx(s1, Write(v))
    else if blocking then SetTx(s1, CheckGone(v, true))
    else GiveBack(s1, v)
  }

  function StepWrite(s: State, v: Ticket): State
    requires v < |s.hist.fate| && 0 < s.cap == |s.buf|
  {
    var i := SlotOf(s.tx.tail, s.cap);
    s.(buf := s.buf[i := Some(v)],
       tx := s.tx.(tail := s.tx.tail + 1, pc := StoreTail),
       hist := s.hist.(log := s.hist.log + [v], fate := s.hist.fate[v := Accepted(|s.hist.log|)], fault := s.hist.fault || s.buf[i] != None))
  }

  function PayloadOf(pc: TxPC): Option<Ticket> {
    match pc
    case CheckGone(v, _) => Some(v)
    case ReloadHead(v, _) => Some(v)
    case Write(v) => Some(v)
    case _ => None
  }

  predicate TxEnabled(s: State) {
    && s.tx.pc != Idle && s.tx.pc != Gone && 0 < s.cap == |s.buf|
    && (PayloadOf(s.tx.pc).Some? ==> PayloadOf(s.tx.pc).value < |s.hist.fate|)
  }

  function TxStep(s: State): State
    requires TxEnabled(s)
  {
    match s.tx.pc
    case Idle => s
    case Gone => s
    case CheckGone(v, b) => StepCheckGone(s, v, b)
    case ReloadHead(v, b) => StepReloadHead(s, v, b)
    case Write(v) => StepWrite(s, v)
    case StoreTail => SetTx(s.(tail := s.tx.tail), Idle)
    case StoreGone => SetTx(s.(disconnected := true), Gone)
  }

  // ---------- the receiver ----------

  function SetRx(s: State, pc: RxPC): State {
    s.(rx := s.rx.(pc := pc))
  }

  /** Read the next slot and advance the private head. */
  function MoveOut(s: State, pc: RxPC): State
    requires 0 < s.cap == |s.buf|
  {
    var i := SlotOf(s.rx.head, s.cap);
    match s.buf[i]
    case None => s.(hist := s.hist.(fault := true), rx := s.rx.(pc := pc))
    case Some(v) =>
      s.(buf := s.buf[i := None], hist := s.hist.(delivered := s.hist.delivered + [v]),
         rx := s.rx.(pc := pc, head := s.rx.head + 1))
  }

  function AfterReloadTail(s: State, found: RxPC, empty: RxPC): State {
    s.(rx := s.rx.(cachedTail := s.tail, pc := if s.rx.head == s.tail then empty else found))
  }

  function StepReloadAgain(s: State): State {
    if s.tail == s.rx.head then s.(rx := s.rx.(pc := Resting, drained := true))
    else s.(rx := s.rx.(pc := Take, cachedTail := s.tail))
  }

  /** The head of the drain loop. */
  function DrainNext(s: State, count: nat, max: nat): RxPC {
    if count >= max then DrainStore(count)
    else if s.rx.head == s.rx.cachedTail then DrainReload(count, max)
    else DrainTake(count, max)
  }

  function RxStep(s: State, unwinds: bool): State
    requires s.rx.pc != Resting && s.rx.pc != Left && 0 < s.cap == |s.buf|
  {
    match s.rx.pc
    case Resting => s
    case Left => s
    case ReloadTail => AfterReloadTail(s, Take, LoadGone)
    case LoadGone => SetRx(s, if s.disconnected then ReloadAgain else Resting)
    case ReloadAgain => StepReloadAgain(s)
    case Take => MoveOut(s, StoreHead)
    case StoreHead => SetRx(s.(head := s.rx.head), Resting)
    case DrainReload(c, m) => AfterReloadTail(s, DrainTake(c, m), DrainStore(c))
    case DrainTake(c, m) => MoveOut(s, Callback(c + 1, m))
    case Callback(c, m) => SetRx(s, if unwinds then DrainStore(c) else DrainNext(s, c, m))
    case DrainStore(c) => SetRx(if c == 0 then s else s.(head := s.rx.head), Resting)
    case StoreClosed => SetRx(s.(disconnected := true), Left)
  }

  // ---------- the remaining moves ----------

  /** Shared::drop drops the payloads of `head..tail`. */
  function CellsBetween(buf: seq<Cell>, cap: nat, lo: nat, hi: nat): seq<Cell>
    requires 0 < cap == |buf| && lo <= hi
  {
    seq(hi - lo, k requires 0 <= k < hi - lo => buf[SlotOf(lo + k, cap)])
  }

  function Payloads(cells: seq<Cell>): seq<Ticket> {
    seq(|cells|, k requires 0 <= k < |cells| => if cells[k].Some? then cells[k].value else 0)
  }

  function StepReap(s: State): State
    requires 0 < s.cap == |s.buf|
  {
    var cells := CellsBetween(s.buf, s.cap, s.head, if s.head <= s.tail then s.tail else s.head);
    s.(hist := s.hist.(dropped := Some(Payloads(cells)), fault := s.hist.fault || None in cells))
  }

  predicate Enabled(s: State, m: Move) {
    0 < s.cap == |s.buf| &&
    match m
    case StartSend(_) => s.tx.pc == Idle
    case StartDropTx => s.tx.pc == Idle
    case StepTx => TxEnabled(s)
    case StartRecv => s.rx.pc == Resting
    case StartDrain(_) => s.rx.pc == Resting
    case StartDropRx => s.rx.pc == Resting
    case StepRx(_) => s.rx.pc != Resting && s.rx.pc != Left
    case Reap => s.tx.pc == Gone && s.rx.pc == Left && s.hist.dropped == None
  }

  function Apply(s: State, m: Move): State
    requires Enabled(s, m)
  {
    match m
    case StartSend(b) => SetTx(s.(hist := s.hist.(fate := s.hist.fate + [Held])), CheckGone(|s.hist.fate|, b))
    case StartDropTx => SetTx(s, StoreGone)
    case StepTx => TxStep(s)
    case StartRecv => SetRx(s, if s.rx.head == s.rx.cachedTail then ReloadTail else Take)
    case StartDrain(max) => SetRx(s, DrainNext(s, 0, max))
    case StartDropRx => SetRx(s, StoreClosed)
    case StepRx(u) => RxStep(s, u)
    case Reap => StepReap(s)
  }

  ghost predicate Next(s: State, s': State) {
    exists m :: Enabled(s, m) && s' == Apply(s, m)
  }

  /** A finite run: consecutive states are one move apart. */
  ghost predicate IsRun(run: seq<State>) {
    |run| > 0 && forall i, j {:trigger Next(run[i], run[j])} :: 0 <= i && j == i + 1 && j < |run| ==> Next(run[i], run[j])
  }

  ghost predicate Reachable(s: State) {
    exists run :: IsRun(run) && Init(run[0]) && run[|run| - 1] == s
  }
}

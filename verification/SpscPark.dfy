/**
 The park protocol of the SPSC ring on a machine with store buffers. Every store goes into the
 buffer of the thread that makes it and reaches memory later, in order; only a `SeqCst` fence, a
 mutex lock and other read-modify-writes wait until the thread's buffer is empty. The payload
 slots are left out here; `SpscBuffered` adds them.

 The two sides are symmetric: each has its own counter (`tail` for the sender, `head` for the
 receiver), waits on the peer's counter, and wakes the peer after it has stored its own.
 */
module SpscPark {
  import opened Common

  datatype Side = Tx | Rx

  function Other(x: Side): Side {
    if x.Tx? then Rx else Tx
  }

  datatype Write =
    | SetCtr(n: nat)                        // tail or head
    | SetGone                               // disconnected = true
    | SetParked(of: Side, on: bool)         // the flag of one side's Parker

  /** What follows a `Parker::wake`. */
  datatype Then = Done | WakeTx | Quit

  datatype PC =
    | Idle | Gone
    | CheckGone(b: bool)              // try_send: load disconnected
    | Reload(b: bool)                 // load the peer's counter into the cache
    | LoadGone(b: bool)               // try_recv: load disconnected
    | ReloadAgain                     // try_recv: load tail once more
    | StoreCtr(wake: bool)            // store the own counter; `wake` is false when a drain unwinds
    | Fence                           // fence(SeqCst) before the wake
    | PrepLock                        // prepare_park: lock the handle slot and register
    | PrepFlag                        // prepare_park: store parked = true
    | PrepFence                       // fence(SeqCst) before the re-check
    | RecheckCtr                      // load the peer's counter
    | RecheckGone                     // load disconnected
    | Cancel                          // store parked = false
    | Park                            // thread::park
    | ClearFlag                       // store parked = false
    | DrainReload(count: nat, max: nat)
    | Callback(count: nat, max: nat)
    | StoreGone                       // drop: store disconnected = true
    | GoneFence                       // drop: fence(SeqCst)
    | WakeLoad(of: Side, next: Then)      // load parked
    | WakeClear(of: Side, next: Then)     // store parked = false
    | WakeLock(of: Side, next: Then)      // lock the handle slot and take
    | WakeUnpark(of: Side, next: Then)    // unpark and release the lock

  /** `ctr` is the thread's private counter, `pub` the value it has stored last (perhaps still in the
      buffer), `cached` its cached copy of the peer's counter. */
  datatype Thread = Thread(pc: PC, ctr: nat, pub: nat, cached: nat, token: bool, buf: seq<Write>)

  datatype Parker = Parker(parked: bool, registered: bool, lock: Option<Side>)

  /** `fences` and `lockDrains` say whether a fence and a lock wait for the buffer; the real ones do.
      `skipped` is set while the latest head store was made by an unwinding drain. */
  datatype Config = Config(cap: nat, fences: bool, lockDrains: bool)

  datatype State = State(
    cfg: Config,
    tx: Thread, rx: Thread, tail: nat, head: nat, gone: bool,
    txParker: Parker, rxParker: Parker, skipped: bool)

  datatype Move =
    | Flush(x: Side)
    | Step(x: Side, quirk: bool)            // quirk: spurious park return, unwinding callback
    | StartOp(x: Side, b: bool)             // send or recv when `b`, else try_send or try_recv
    | StartDrain(max: nat)
    | StartDrop(x: Side)
    | Noise(x: Side, token: bool)           // other code unparks the thread or uses up its token

  // ---------- access by side ----------

  // Every access below goes through these, so that proofs can work with the laws in their contracts.

  function Th(s: State, x: Side): Thread {
    if x.Tx? then s.tx else s.rx
  }

  function Pk(s: State, x: Side): Parker {
    if x.Tx? then s.txParker else s.rxParker
  }

  function Ctr(s: State, x: Side): nat {
    if x.Tx? then s.tail else s.head
  }

  function Put(s: State, x: Side, th: Thread): (r: State)
    ensures forall z :: Th(r, z) == if z == x then th else Th(s, z)
    ensures forall z :: Pk(r, z) == Pk(s, z)
    ensures forall z :: Ctr(r, z) == Ctr(s, z)
    ensures r.cfg == s.cfg && r.gone == s.gone && r.skipped == s.skipped
  {
    if x.Tx? then s.(tx := th) else s.(rx := th)
  }

  function PutPk(s: State, x: Side, p: Parker): (r: State)
    ensures forall z :: Th(r, z) == Th(s, z)
    ensures forall z :: Pk(r, z) == if z == x then p else Pk(s, z)
    ensures forall z :: Ctr(r, z) == Ctr(s, z)
    ensures r.cfg == s.cfg && r.gone == s.gone && r.skipped == s.skipped
  {
    if x.Tx? then s.(txParker := p) else s.(rxParker := p)
  }

  function PutCtr(s: State, x: Side, n: nat): (r: State)
    ensures forall z :: Th(r, z) == Th(s, z)
    ensures forall z :: Pk(r, z) == Pk(s, z)
    ensures forall z :: Ctr(r, z) == if z == x then n else Ctr(s, z)
    ensures r.cfg == s.cfg && r.gone == s.gone && r.skipped == s.skipped
  {
    if x.Tx? then s.(tail := n) else s.(head := n)
  }

  function PutFlags(s: State, gone: bool, skipped: bool): (r: State)
    ensures forall z :: Th(r, z) == Th(s, z)
    ensures forall z :: Pk(r, z) == Pk(s, z)
    ensures forall z :: Ctr(r, z) == Ctr(s, z)
    ensures r.cfg == s.cfg && r.gone == gone && r.skipped == skipped
  {
    s.(gone := gone, skipped := skipped)
  }

  function SetPC(s: State, x: Side, pc: PC): State {
    Put(s, x, Th(s, x).(pc := pc))
  }

  // ---------- loads, stores and buffers ----------

  /** A store enters the buffer. */
  function Issue(th: Thread, w: Write): Thread {
    th.(buf := th.buf + [w])
  }

  /** The last buffered store to a flag, which a load by the same thread sees first. */
  function Forwarded(buf: seq<Write>, z: Side): Option<bool> {
    if buf == [] then None
    else
      var w := buf[|buf| - 1];
      if w.SetParked? && w.of == z then Some(w.on) else Forwarded(buf[..|buf| - 1], z)
  }

  function LoadParked(s: State, x: Side, z: Side): bool {
    match Forwarded(Th(s, x).buf, z)
    case Some(on) => on
    case None => Pk(s, z).parked
  }

  function LoadDisconnected(s: State, x: Side): bool {
    s.gone || SetGone in Th(s, x).buf
  }

  /** The oldest buffered store reaches memory. */
  function Apply1(s: State, x: Side, w: Write): State {
    match w
    case SetCtr(n) => PutCtr(s, x, n)
    case SetGone => PutFlags(s, true, s.skipped)
    case SetParked(z, on) => PutPk(s, z, Pk(s, z).(parked := on))
  }

  function FlushOne(s: State, x: Side): State
    requires Th(s, x).buf != []
  {
    Put(Apply1(s, x, Th(s, x).buf[0]), x, Th(s, x).(buf := Th(s, x).buf[1..]))
  }

  // ---------- steps ----------

  /** The ring looks full to the sender, or empty to the receiver. */
  predicate Blocked(cap: nat, x: Side, ctr: nat, peer: nat) {
    if x.Tx? then ctr == peer + cap else ctr == peer
  }

  /** The same test as written in the re-checks before parking. */
  predicate StillBlocked(cap: nat, x: Side, ctr: nat, peer: nat) {
    if x.Tx? then ctr >= peer + cap else ctr == peer
  }

  /** The slot is written or read and the private counter moves on. */
  function Commit(s: State, x: Side): State {
    Put(s, x, Th(s, x).(ctr := Th(s, x).ctr + 1, pc := StoreCtr(true)))
  }

  /** The local test against the cached counter. */
  function Test(s: State, x: Side, b: bool): State {
    if Blocked(s.cfg.cap, x, Th(s, x).ctr, Th(s, x).cached) then SetPC(s, x, Reload(b)) else Commit(s, x)
  }

  function Begin(s: State, x: Side, b: bool): State {
    if x.Tx? then SetPC(s, x, CheckGone(b)) else Test(s, x, b)
  }

  /** `Full` or `Empty`. */
  function Fail(s: State, x: Side, b: bool): State {
    SetPC(s, x, if b then PrepLock else Idle)
  }

  function StepReload(s: State, x: Side, b: bool): State {
    var s1 := Put(s, x, Th(s, x).(cached := Ctr(s, Other(x))));
    if !Blocked(s.cfg.cap, x, Th(s, x).ctr, Ctr(s, Other(x))) then Commit(s1, x)
    else if x.Tx? then Fail(s1, x, b) else SetPC(s1, x, LoadGone(b))
  }

  function StepReloadAgain(s: State): State {
    if Ctr(s, Tx) == Th(s, Rx).ctr then SetPC(s, Rx, Idle)
    else Commit(Put(s, Rx, Th(s, Rx).(cached := Ctr(s, Tx))), Rx)
  }

  /** The head of the drain loop. */
  function DrainTest(s: State, count: nat, max: nat): State {
    if count >= max then DrainEnd(s, count)
    else if Th(s, Rx).ctr == Th(s, Rx).cached then SetPC(s, Rx, DrainReload(count, max))
    else Put(s, Rx, Th(s, Rx).(ctr := Th(s, Rx).ctr + 1, pc := Callback(count + 1, max)))
  }

  function DrainEnd(s: State, count: nat): State {
    SetPC(s, Rx, if count == 0 then Idle else StoreCtr(true))
  }

  function StepDrainReload(s: State, count: nat, max: nat): State {
    var th := Th(s, Rx).(cached := Ctr(s, Tx));
    if th.ctr == th.cached then DrainEnd(Put(s, Rx, th), count)
    else Put(s, Rx, th.(ctr := th.ctr + 1, pc := Callback(count + 1, max)))
  }

  function StepStoreCtr(s: State, x: Side, wake: bool): State {
    var th := Th(s, x);
    PutFlags(Put(s, x, Issue(th.(pub := th.ctr, pc := if wake then Fence else Idle), SetCtr(th.ctr))),
             s.gone, if x.Rx? then !wake else s.skipped)
  }

  function StepStoreGone(s: State, x: Side): State {
    PutFlags(Put(s, x, Issue(Th(s, x).(pc := GoneFence), SetGone)), s.gone, s.skipped && x.Tx?)
  }

  function IssueParked(s: State, x: Side, z: Side, on: bool, pc: PC): State {
    Put(s, x, Issue(Th(s, x).(pc := pc), SetParked(z, on)))
  }

  function After(next: Then): PC {
    match next
    case Done => Idle
    case WakeTx => WakeLoad(Tx, Quit)
    case Quit => Gone
  }

  function StepLock(s: State, x: Side, z: Side, next: Then): State {
    if Pk(s, z).registered then
      SetPC(PutPk(s, z, Pk(s, z).(registered := false, lock := Some(x))), x, WakeUnpark(z, next))
    else
      SetPC(s, x, After(next))
  }

  function StepUnpark(s: State, x: Side, z: Side, next: Then): State {
    var s1 := PutPk(s, z, Pk(s, z).(lock := None));
    SetPC(Put(s1, z, Th(s1, z).(token := true)), x, After(next))
  }

  function StepRecheckCtr(s: State, x: Side): State {
    SetPC(s, x, if StillBlocked(s.cfg.cap, x, Th(s, x).ctr, Ctr(s, Other(x))) then RecheckGone else Cancel)
  }

  function StepWakeLoad(s: State, x: Side, z: Side, next: Then): State {
    SetPC(s, x, if LoadParked(s, x, z) then WakeClear(z, next) else After(next))
  }

  predicate Drained(s: State, x: Side) {
    Th(s, x).buf == []
  }

  predicate StepEnabled(s: State, x: Side, quirk: bool) {
    match Th(s, x).pc
    case Idle => false
    case Gone => false
    case LoadGone(_) => x.Rx?
    case ReloadAgain => x.Rx?
    case DrainReload(_, _) => x.Rx?
    case Callback(_, _) => x.Rx?
    case CheckGone(_) => x.Tx?
    case Fence => s.cfg.fences ==> Drained(s, x)
    case GoneFence => s.cfg.fences ==> Drained(s, x)
    case PrepFence => s.cfg.fences ==> Drained(s, x)
    case PrepLock => Pk(s, x).lock == None && (s.cfg.lockDrains ==> Drained(s, x))
    case WakeLock(z, _) => Pk(s, z).lock == None && (s.cfg.lockDrains ==> Drained(s, x))
    case Park => Th(s, x).token || quirk
    case _ => true
  }

  function StepOf(s: State, x: Side, quirk: bool): State {
    var th, y := Th(s, x), Other(x);
    match th.pc
    case Idle => s
    case Gone => s
    case CheckGone(b) => if LoadDisconnected(s, x) then SetPC(s, x, Idle) else Test(s, x, b)
    case Reload(b) => StepReload(s, x, b)
    case LoadGone(b) => if LoadDisconnected(s, x) then SetPC(s, x, ReloadAgain) else Fail(s, x, b)
    case ReloadAgain => StepReloadAgain(s)
    case StoreCtr(w) => StepStoreCtr(s, x, w)
    case Fence => SetPC(s, x, WakeLoad(y, Done))
    case PrepLock => SetPC(PutPk(s, x, Pk(s, x).(registered := true)), x, PrepFlag)
    case PrepFlag => IssueParked(s, x, x, true, PrepFence)
    case PrepFence => SetPC(s, x, RecheckCtr)
    case RecheckCtr => StepRecheckCtr(s, x)
    case RecheckGone => SetPC(s, x, if LoadDisconnected(s, x) then Cancel else Park)
    case Cancel => Begin(IssueParked(s, x, x, false, Idle), x, true)
    case Park => Put(s, x, th.(token := false, pc := ClearFlag))
    case ClearFlag => Begin(IssueParked(s, x, x, false, Idle), x, true)
    case DrainReload(c, m) => StepDrainReload(s, c, m)
    case Callback(c, m) => if quirk then SetPC(s, Rx, StoreCtr(false)) else DrainTest(s, c, m)
    case StoreGone => StepStoreGone(s, x)
    case GoneFence => SetPC(s, x, WakeLoad(Rx, WakeTx))
    case WakeLoad(z, n) => StepWakeLoad(s, x, z, n)
    case WakeClear(z, n) => IssueParked(s, x, z, false, WakeLock(z, n))
    case WakeLock(z, n) => StepLock(s, x, z, n)
    case WakeUnpark(z, n) => StepUnpark(s, x, z, n)
  }

  predicate Enabled(s: State, m: Move) {
    match m
    case Flush(x) => !Drained(s, x)
    case Step(x, q) => StepEnabled(s, x, q)
    case StartOp(x, _) => Th(s, x).pc == Idle
    case StartDrain(_) => Th(s, Rx).pc == Idle
    case StartDrop(x) => Th(s, x).pc == Idle
    case Noise(x, token) => token || Th(s, x).pc == Idle || Th(s, x).pc.Callback?
  }

  function Apply(s: State, m: Move): State
    requires Enabled(s, m)
  {
    match m
    case Flush(x) => FlushOne(s, x)
    case Step(x, q) => StepOf(s, x, q)
    case StartOp(x, b) => Begin(s, x, b)
    case StartDrain(max) => DrainTest(s, 0, max)
    case StartDrop(x) => SetPC(s, x, StoreGone)
    case Noise(x, token) => Put(s, x, Th(s, x).(token := token))
  }

  predicate Init(s: State) {
    && s.cfg.cap > 0
    && (forall x :: Th(s, x).pc == Idle && Th(s, x).ctr == 0 && Th(s, x).pub == 0 && Th(s, x).cached == 0 && Th(s, x).buf == [])
    && (forall x :: Pk(s, x) == Parker(false, false, None))
    && (forall x :: Ctr(s, x) == 0) && !s.gone && !s.skipped
  }

  ghost predicate Next(s: State, s': State) {
    exists m :: Enabled(s, m) && s' == Apply(s, m)
  }

  ghost predicate IsRun(run: seq<State>) {
    |run| > 0 && forall i, j {:trigger Next(run[i], run[j])} :: 0 <= i && j == i + 1 && j < |run| ==> Next(run[i], run[j])
  }

  ghost predicate Reachable(s: State) {
    exists run :: IsRun(run) && Init(run[0]) && run[|run| - 1] == s
  }
}

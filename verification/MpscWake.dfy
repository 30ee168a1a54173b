/**
 The park and wake protocol of the MPSC ring: no wakeup is lost. A second inductive invariant, on
 top of the ring's own, says for every parked side that its wakeup is on its way.
 */
module MpscWake {
  import opened Arith
  import opened Common
  import opened MpscMachine
  import opened MpscInvariant

  // ---------- the consumer and the threads that wake it ----------

  /** The thread has published, or dropped the last sender, and has not finished waking. */
  predicate Waking(pc: ProdPC) {
    pc.WakeLoad? || pc.WakeClear? || pc.WakeTake? || pc.WakeUnpark?
  }

  ghost predicate At(s: State, t: Tid, pc: ProdPC) {
    t in s.prods && s.prods[t].pc == pc
  }

  /** The consumer has registered its handle and not yet returned from the park. */
  predicate Registered(pc: ConsPC) {
    pc.PrepFlag? || pc.RecheckRound? || pc.RecheckSenders? || pc.Parked?
  }

  predicate RxParkArm(pc: ConsPC) {
    Registered(pc) || pc.Spin? || pc.PrepSlot? || pc.Cancel? || pc.ClearFlag?
  }

  /** The consumer's token is there, or a thread is about to set it. */
  ghost predicate Notified(s: State) {
    s.rx.token || exists t :: At(s, t, WakeUnpark(s.rx.tid))
  }

  /** The handle slot is locked by the thread that is about to unpark, if any. */
  ghost predicate LockOK(s: State) {
    && (forall t :: t in s.prods ==> (s.wait.slotLock == Some(t) <==> s.prods[t].pc.WakeUnpark?))
    && (s.wait.slotLock.Some? ==> s.wait.slotLock.value in s.prods)
  }

  /** A registered consumer can still be found: its handle is in the slot, and either the flag says
      so or a thread that has cleared the flag is on its way to the slot. */
  ghost predicate Findable(s: State) {
    Registered(s.rx.pc) ==>
      || Notified(s)
      || (s.wait.registered == Some(s.rx.tid)
          && (s.rx.pc.PrepFlag? || s.wait.parked || exists t :: At(s, t, WakeTake)))
  }

  /** While the consumer is registered no thread can be about to unpark anybody else: a handle left
      over from another thread was replaced under the lock. */
  ghost predicate NoStaleHandle(s: State) {
    Registered(s.rx.pc) ==>
      && (s.wait.registered == None || s.wait.registered == Some(s.rx.tid))
      && forall t :: t in s.prods && s.prods[t].pc.WakeUnpark? ==> s.prods[t].pc.target == s.rx.tid
  }

  /** What the consumer waits for has happened although its own check, already made, missed it. */
  ghost predicate RxMissed(s: State)
    requires 0 < s.cap == |s.ring.slots|
  {
    || ((s.rx.pc.RecheckSenders? || s.rx.pc.Parked?) && Published(s, s.rx.head))
    || (s.rx.pc.Parked? && s.ends.senders == 0)
  }

  ghost predicate RxOwed(s: State)
    requires 0 < s.cap == |s.ring.slots|
  {
    RxMissed(s) ==> s.rx.token || exists t :: t in s.prods && Waking(s.prods[t].pc)
  }

  ghost predicate RxWake(s: State)
    requires 0 < s.cap == |s.ring.slots|
  {
    && LockOK(s) && NoStaleHandle(s) && Findable(s) && RxOwed(s)
    && (RxParkArm(s.rx.pc) ==> s.park)
  }

  // ---------- the producers and the receiver that wakes them ----------

  /** The producer has pushed itself on the list and not yet returned from the park. */
  predicate Listed(pc: ProdPC) {
    pc.SetWaiting? || pc.ReloadClaim? || pc.ReloadHead? || pc.ReloadRx? || pc.Park?
  }

  predicate WakingAll(pc: ConsPC) {
    pc.SwapWaiting? || pc.LockList? || pc.UnparkAll?
  }

  /** A listed producer can still be found: it has been notified, or the receiver is about to unpark
      it, or it is on the list and something leads there. */
  ghost predicate ListedFindable(s: State, t: Tid)
    requires t in s.prods
  {
    || s.prods[t].token
    || (s.rx.pc.UnparkAll? && t in s.rx.pc.rest)
    || (t in s.wait.list && (s.prods[t].pc.SetWaiting? || s.wait.waiting || s.rx.pc.LockList?))
  }

  /** There is room, or nobody to wait for, although the producer's own check missed it. */
  ghost predicate TxMissed(s: State, t: Tid)
    requires t in s.prods
  {
    || ((s.prods[t].pc.ReloadRx? || s.prods[t].pc.Park?) && s.ring.claim < Limit(s.ring.head, s.cap))
    || (s.prods[t].pc.Park? && s.ends.rxDropped)
  }

  ghost predicate TxWake(s: State, t: Tid)
    requires t in s.prods
  {
    Listed(s.prods[t].pc) ==>
      && s.park
      && ListedFindable(s, t)
      && (TxMissed(s, t) ==> s.prods[t].token || WakingAll(s.rx.pc) || s.rx.skipped)
  }

  ghost predicate AllTxWake(s: State) {
    && (forall t :: t in s.prods ==> TxWake(s, t))
    && (forall t :: t in s.prods && s.prods[t].pc.PushList? ==> s.park)
    && (s.rx.pc.UnparkAll? ==> s.wait.list == [])
    && (s.rx.skipped ==> !s.ends.rxDropped && !WakingAll(s.rx.pc))
  }

  ghost predicate WakeInv(s: State) {
    Inv(s) && RxWake(s) && AllTxWake(s)
  }

  lemma WakeInit(s: State)
    requires Init(s)
    ensures WakeInv(s)
  {
    InvInit(s);
  }

  // ---------- the consumer side is kept ----------

  /** Moves that touch nothing the consumer's wakeup depends on. */
  ghost predicate RxWakeSame(s: State, s': State)
    requires 0 < s.cap == |s.ring.slots| && 0 < s'.cap == |s'.ring.slots|
  {
    && s'.park == s.park && s'.rx == s.rx
    && s'.wait.registered == s.wait.registered && s'.wait.parked == s.wait.parked && s'.wait.slotLock == s.wait.slotLock
    && (RxMissed(s') ==> RxMissed(s))
    && s'.prods.Keys == s.prods.Keys
    && forall t :: t in s.prods && (Waking(s.prods[t].pc) || Waking(s'.prods[t].pc)) ==> s'.prods[t].pc == s.prods[t].pc
  }

  lemma RxWakeFrame(s: State, s': State)
    requires 0 < s.cap == |s.ring.slots| && 0 < s'.cap == |s'.ring.slots|
    requires RxWake(s) && RxWakeSame(s, s')
    ensures RxWake(s')
  {
    assert forall t, u :: At(s, t, WakeUnpark(u)) ==> At(s', t, WakeUnpark(u));
    assert forall t :: At(s, t, WakeTake) ==> At(s', t, WakeTake);
  }

  /** A thread starts waking: whatever it has made true is now owed. */
  lemma RxWakeStarts(s: State, s': State, t: Tid)
    requires 0 < s.cap == |s.ring.slots| && 0 < s'.cap == |s'.ring.slots|
    requires RxWake(s) && t in s.prods && !Waking(s.prods[t].pc)
    requires t in s'.prods && s'.prods == s.prods[t := s'.prods[t]] && s'.prods[t].pc == WakeLoad
    requires s'.park == s.park && s'.rx == s.rx
    requires s'.wait.registered == s.wait.registered && s'.wait.parked == s.wait.parked && s'.wait.slotLock == s.wait.slotLock
    ensures RxWake(s')
  {
    assert forall u, v :: At(s, u, WakeUnpark(v)) ==> At(s', u, WakeUnpark(v));
    assert forall u :: At(s, u, WakeTake) ==> At(s', u, WakeTake);
    assert Waking(s'.prods[t].pc);
  }

  lemma RxWakeLoad(s: State, s': State, t: Tid)
    requires 0 < s.cap == |s.ring.slots| && RxWake(s) && At(s, t, WakeLoad)
    requires s' == SetPC(s, t, if s.wait.parked then WakeClear else Idle)
    ensures RxWake(s')
  {
    assert forall u, v :: At(s, u, WakeUnpark(v)) ==> At(s', u, WakeUnpark(v));
    assert forall u :: At(s, u, WakeTake) ==> At(s', u, WakeTake);
    if RxMissed(s') && !s'.rx.token {
      assert RxMissed(s);
      if s.wait.parked {
        assert Waking(s'.prods[t].pc);
      } else if u :| At(s, u, WakeUnpark(s.rx.tid)) {
        assert Waking(s'.prods[u].pc);
      } else {
        var u :| At(s, u, WakeTake);
        assert Waking(s'.prods[u].pc);
      }
    }
  }

  lemma RxWakeClear(s: State, s': State, t: Tid)
    requires 0 < s.cap == |s.ring.slots| && RxWake(s) && At(s, t, WakeClear)
    requires s' == SetPC(s.(wait := s.wait.(parked := false)), t, WakeTake)
    ensures RxWake(s')
  {
    assert forall u, v :: At(s, u, WakeUnpark(v)) ==> At(s', u, WakeUnpark(v));
    assert At(s', t, WakeTake) && Waking(s'.prods[t].pc);
  }

  lemma RxWakeTakeNothing(s: State, s': State, t: Tid)
    requires 0 < s.cap == |s.ring.slots| && RxWake(s) && At(s, t, WakeTake) && s.wait.slotLock == None && s.wait.registered == None
    requires s' == SetPC(s, t, Idle)
    ensures RxWake(s')
  {
    assert forall u :: u in s.prods ==> !s.prods[u].pc.WakeUnpark?;
  }

  lemma RxWakeTakeHandle(s: State, s': State, t: Tid, u: Tid)
    requires 0 < s.cap == |s.ring.slots| && RxWake(s) && At(s, t, WakeTake) && s.wait.slotLock == None && s.wait.registered == Some(u)
    requires s' == SetPC(s.(wait := s.wait.(registered := None, slotLock := Some(t))), t, WakeUnpark(u))
    ensures RxWake(s')
  {
    assert forall u :: u in s.prods ==> !s.prods[u].pc.WakeUnpark?;
    assert At(s', t, WakeUnpark(u)) && Waking(s'.prods[t].pc);
  }

  lemma RxWakeTake(s: State, s': State, t: Tid)
    requires 0 < s.cap == |s.ring.slots| && RxWake(s) && At(s, t, WakeTake) && s.wait.slotLock == None
    requires s' == StepTake(s, t)
    ensures RxWake(s')
  {
    hide RxWake;
    match s.wait.registered
    case None => RxWakeTakeNothing(s, s', t);
    case Some(u) => RxWakeTakeHandle(s, s', t, u);
  }

  lemma RxWakeUnpark(s: State, s': State, t: Tid, u: Tid)
    requires 0 < s.cap == |s.ring.slots| && RxWake(s) && At(s, t, WakeUnpark(u))
    requires s' == StepUnpark(s, t, u)
    ensures RxWake(s')
  {
    assert s.wait.slotLock == Some(t);
    assert forall w :: w in s.prods && w != t ==> !s.prods[w].pc.WakeUnpark?;
  }

  /** What a step inside `try_send` or `send` can change. */
  ghost predicate CallFrame(s: State, s': State, t: Tid) {
    && t in s.prods && t in s'.prods
    && s' == s.(ring := s.ring.(slots := s'.ring.slots, claim := s'.ring.claim), ends := s.ends.(handles := s'.ends.handles),
                wait := s.wait.(waiting := s'.wait.waiting, list := s'.wait.list), hist := s'.hist,
                prods := s.prods[t := s'.prods[t]])
    && 0 < s.cap == |s.ring.slots| == |s'.ring.slots|
    && (s.prods[t].pc.Publish? || forall i :: 0 <= i < s.cap ==> s'.ring.slots[i].round == s.ring.slots[i].round)
    && (Waking(s'.prods[t].pc) ==> s'.prods[t].pc == WakeLoad)
    && (s.prods[t].pc.Publish? && s.park ==> s'.prods[t].pc == WakeLoad)
  }

  lemma GiveBackFrame(s: State, s': State, t: Tid, op: Op)
    requires 0 < s.cap == |s.ring.slots| && t in s.prods && op.v < |s.hist.fate| && !s.prods[t].pc.Publish?
    requires s' == GiveBack(s, t, op)
    ensures CallFrame(s, s', t)
  {
  }

  lemma SetPCFrame(s: State, s': State, t: Tid, pc: ProdPC)
    requires 0 < s.cap == |s.ring.slots| && t in s.prods && !s.prods[t].pc.Publish? && !Waking(pc)
    requires s' == SetPC(s, t, pc)
    ensures CallFrame(s, s', t)
  {
  }

  lemma LoadHeadFrame(s: State, s': State, t: Tid, op: Op, q: nat)
    requires 0 < s.cap == |s.ring.slots| && t in s.prods && op.v < |s.hist.fate| && !s.prods[t].pc.Publish?
    requires s' == StepLoadHead(s, t, op, q)
    ensures CallFrame(s, s', t)
  {
    if q < Limit(s.ring.head, s.cap) { assert CallFrame(s, s', t); } else if !op.blocking { assert CallFrame(s, s', t); } else { assert CallFrame(s, s', t); }
  }

  lemma CasFrame(s: State, s': State, t: Tid, op: Op, q: nat, quirk: bool)
    requires 0 < s.cap == |s.ring.slots| && t in s.prods && op.h in s.ends.handles && op.v < |s.hist.fate| && !s.prods[t].pc.Publish?
    requires s' == StepCas(s, t, op, q, quirk)
    ensures CallFrame(s, s', t)
  {
    if s.ring.claim == q && !quirk { assert CallFrame(s, s', t); } else { assert CallFrame(s, s', t); }
  }

  lemma WriteFrame(s: State, s': State, t: Tid, op: Op, q: nat)
    requires 0 < s.cap == |s.ring.slots| && t in s.prods && !s.prods[t].pc.Publish?
    requires s' == StepWrite(s, t, op, q)
    ensures CallFrame(s, s', t)
  {
  }

  lemma PublishFrame(s: State, s': State, t: Tid, op: Op, q: nat)
    requires 0 < s.cap == |s.ring.slots| && t in s.prods && s.prods[t].pc == Publish(op, q)
    requires s' == StepPublish(s, t, q)
    ensures CallFrame(s, s', t)
  {
  }

  lemma ParkFrame(s: State, s': State, t: Tid, pc: ProdPC)
    requires 0 < s.cap == |s.ring.slots| && t in s.prods && !s.prods[t].pc.Publish? && !Waking(pc)
    requires s' == s.(prods := s.prods[t := Producer(pc, false)])
    ensures CallFrame(s, s', t)
  {
  }

  lemma PushFrame(s: State, t: Tid, op: Op)
    requires 0 < s.cap == |s.ring.slots| && t in s.prods && !s.prods[t].pc.Publish?
    ensures CallFrame(s, SetPC(s.(wait := s.wait.(list := s.wait.list + [t])), t, SetWaiting(op)), t)
    ensures CallFrame(s, SetPC(s.(wait := s.wait.(waiting := true)), t, ReloadClaim(op)), t)
  {
  }

  lemma CallStepFrame(s: State, t: Tid, quirk: bool)
    requires Enabled(s, StepProd(t, quirk)) && InOp(s.prods[t].pc)
    ensures CallFrame(s, ProdStep(s, t, quirk), t)
  {
    hide CallFrame;
    var s' := ProdStep(s, t, quirk);
    match s.prods[t].pc
    case CheckRx(op) => if s.ends.rxDropped { GiveBackFrame(s, s', t, op); } else { SetPCFrame(s, s', t, LoadClaim(op)); }
    case LoadClaim(op) => SetPCFrame(s, s', t, Decide(s, op, s.ring.claim));
    case LoadHead(op, q) => LoadHeadFrame(s, s', t, op, q);
    case Cas(op, q) => CasFrame(s, s', t, op, q, quirk);
    case Write(op, q) => WriteFrame(s, s', t, op, q);
    case Publish(op, q) => PublishFrame(s, s', t, op, q);
    case PushList(op) => PushFrame(s, t, op);
    case SetWaiting(op) => PushFrame(s, t, op);
    case ReloadClaim(op) => SetPCFrame(s, s', t, ReloadHead(op, s.ring.claim));
    case ReloadHead(op, seen) =>
      SetPCFrame(s, s', t, if seen < Limit(s.ring.head, s.cap) then Renew(s, op) else ReloadRx(op));
    case ReloadRx(op) => SetPCFrame(s, s', t, if s.ends.rxDropped then Renew(s, op) else Park(op));
    case Park(op) => ParkFrame(s, s', t, Renew(s, op));
  }

  /** A producer step outside `Parker::wake`. */
  lemma RxWakeProd(s: State, s': State, t: Tid)
    requires 0 < s.cap == |s.ring.slots| && RxWake(s) && t in s.prods && InOp(s.prods[t].pc) && CallFrame(s, s', t)
    ensures RxWake(s')
  {
    if s'.prods[t].pc == WakeLoad {
      hide RxWake;
      RxWakeStarts(s, s', t);
    } else {
      var i := SlotOf(s.rx.head, s.cap);
      assert !s.rx.pc.Parked? || !s.prods[t].pc.Publish?;
      assert !s.rx.pc.RecheckSenders? || !s.prods[t].pc.Publish?;
      RxWakeFrame(s, s');
    }
  }

  // -- steps of the consumer --

  /** Outside the park arm the receiver changes neither the lock nor any producer's counter. */
  ghost predicate Unregistered(s: State, s': State) {
    && s'.wait.slotLock == s.wait.slotLock && !Registered(s'.rx.pc) && s'.park == s.park && s'.cap == s.cap && |s'.ring.slots| == |s.ring.slots|
    && s'.prods.Keys == s.prods.Keys && (forall t :: t in s.prods ==> s'.prods[t].pc == s.prods[t].pc)
    && (RxParkArm(s'.rx.pc) ==> RxParkArm(s.rx.pc) || s.park)
  }

  lemma RxWakeUnregistered(s: State, s': State)
    requires 0 < s.cap == |s.ring.slots| && RxWake(s) && Unregistered(s, s')
    ensures RxWake(s')
  {
  }

  lemma SetRxUnregistered(s: State, s': State, pc: ConsPC)
    requires !Registered(pc) && (RxParkArm(pc) ==> RxParkArm(s.rx.pc) || s.park)
    requires s' == SetRx(s, pc)
    ensures Unregistered(s, s')
  {
  }

  lemma MoveOutUnregistered(s: State, s': State, pc: ConsPC)
    requires 0 < s.cap == |s.ring.slots| && !RxParkArm(pc)
    requires s' == MoveOut(s, pc)
    ensures Unregistered(s, s')
  {
    hide SlotOf;
    if SlotAt(s, s.rx.head).cell.None? { assert Unregistered(s, s'); } else { assert Unregistered(s, s'); }
  }

  lemma ProbeAgainUnregistered(s: State, s': State)
    requires 0 < s.cap == |s.ring.slots|
    requires s' == StepProbeAgain(s)
    ensures Unregistered(s, s')
  {
    hide Published;
    if Published(s, s.rx.head) { assert Unregistered(s, s'); } else { assert Unregistered(s, s'); }
  }

  lemma ProbeSendersUnregistered(s: State, s': State, b: bool)
    requires s' == StepProbeSenders(s, b)
    ensures Unregistered(s, s')
  {
  }

  lemma StoreHeadUnregistered(s: State, s': State)
    requires s' == StepStoreHead(s)
    ensures Unregistered(s, s')
  {
  }

  lemma DrainStoreUnregistered(s: State, s': State, c: nat, u: bool)
    requires s' == StepDrainStore(s, c, u)
    ensures Unregistered(s, s')
  {
    if c == 0 { assert Unregistered(s, s'); } else if u { assert Unregistered(s, s'); } else { StoreHeadUnregistered(s, s'); }
  }

  lemma UnparkAllUnregistered(s: State, s': State, rest: seq<Tid>, last: bool)
    requires s' == StepUnparkAll(s, rest, last)
    ensures Unregistered(s, s')
  {
    if rest == [] { assert Unregistered(s, s'); } else { assert Unregistered(s, s'); }
  }

  lemma ReleaseUnregistered(s: State, quirk: bool)
    requires WellShaped(s) && ConsEnabled(s, quirk)
    requires var pc := s.rx.pc; pc.SetRxDropped? || pc.SwapWaiting? || pc.LockList? || pc.Cancel? || pc.ClearFlag? || pc.Parked?
    ensures Unregistered(s, ConsStep(s, quirk))
  {
  }

  lemma RxWakePrep(s: State, s': State)
    requires 0 < s.cap == |s.ring.slots| && RxWake(s) && s.rx.pc == PrepSlot && s.wait.slotLock == None
    requires s' == s.(wait := s.wait.(registered := Some(s.rx.tid)), rx := s.rx.(pc := PrepFlag))
    ensures RxWake(s')
  {
  }

  lemma RxWakeFlag(s: State, s': State)
    requires 0 < s.cap == |s.ring.slots| && RxWake(s) && s.rx.pc == PrepFlag
    requires s' == s.(wait := s.wait.(parked := true), rx := s.rx.(pc := RecheckRound))
    ensures RxWake(s')
  {
    assert forall u, v :: At(s, u, WakeUnpark(v)) ==> At(s', u, WakeUnpark(v));
  }

  lemma RxWakeRecheck(s: State, pc: ConsPC)
    requires 0 < s.cap == |s.ring.slots| && RxWake(s)
    requires (s.rx.pc == RecheckRound && !Published(s, s.rx.head) && pc == RecheckSenders)
             || (s.rx.pc == RecheckSenders && s.ends.senders != 0 && pc == Parked)
    ensures RxWake(SetRx(s, pc))
  {
    var s' := SetRx(s, pc);
    assert forall u, v :: At(s, u, WakeUnpark(v)) ==> At(s', u, WakeUnpark(v));
    assert forall u :: At(s, u, WakeTake) ==> At(s', u, WakeTake);
  }

  /** No step of the receiver loses its own wakeup. */
  lemma RxWakeCons(s: State, quirk: bool)
    requires 0 < s.cap == |s.ring.slots| && WellShaped(s) && RxWake(s) && ConsEnabled(s, quirk)
    ensures 0 < ConsStep(s, quirk).cap == |ConsStep(s, quirk).ring.slots| && RxWake(ConsStep(s, quirk))
  {
    hide RxWake, Unregistered, Published, SlotOf;
    var s' := ConsStep(s, quirk);
    match s.rx.pc
    case PrepSlot => RxWakePrep(s, s');
    case PrepFlag => RxWakeFlag(s, s');
    case RecheckRound => if Published(s, s.rx.head) { SetRxUnregistered(s, s', Cancel); RxWakeUnregistered(s, s'); } else { RxWakeRecheck(s, RecheckSenders); }
    case RecheckSenders => if s.ends.senders == 0 { SetRxUnregistered(s, s', Cancel); RxWakeUnregistered(s, s'); } else { RxWakeRecheck(s, Parked); }
    case _ => UnregisteredStep(s, quirk); RxWakeUnregistered(s, s');
  }

  lemma UnregisteredStep(s: State, quirk: bool)
    requires WellShaped(s) && ConsEnabled(s, quirk)
    requires var pc := s.rx.pc; !(pc.PrepSlot? || pc.PrepFlag? || pc.RecheckRound? || pc.RecheckSenders?)
    ensures Unregistered(s, ConsStep(s, quirk))
  {
    hide Unregistered, Published, SlotOf;
    var s' := ConsStep(s, quirk);
    match s.rx.pc
    case Probe(b) => SetRxUnregistered(s, s', if Published(s, s.rx.head) then Take else ProbeSenders(b));
    case ProbeSenders(b) => ProbeSendersUnregistered(s, s', b);
    case ProbeAgain(b) => ProbeAgainUnregistered(s, s');
    case Take => MoveOutUnregistered(s, s', StoreHead);
    case StoreHead => StoreHeadUnregistered(s, s');
    case Spin(left) => SetRxUnregistered(s, s', if Published(s, s.rx.head) then Probe(true) else if left <= 1 then PrepSlot else Spin(left - 1));
    case DrainLoad(c, m) => SetRxUnregistered(s, s', if Published(s, s.rx.head) then DrainTake(c, m) else DrainStore(c, false));
    case DrainTake(c, m) => MoveOutUnregistered(s, s', Callback(c + 1, m));
    case Callback(c, m) =>
      SetRxUnregistered(s, s', if quirk then DrainStore(c, true) else if c < m then DrainLoad(c, m) else DrainStore(c, false));
    case DrainStore(c, u) => DrainStoreUnregistered(s, s', c, u);
    case UnparkAll(rest, last) => UnparkAllUnregistered(s, s', rest, last);
    case _ => ReleaseUnregistered(s, quirk);
  }

  // ---------- the producer side is kept ----------

  /** A listed producer that does not move keeps its wakeup while the list only grows, the flag is
      only set, no head is published and the receiver's wake phase stays where it is. */
  lemma TxFrame(s: State, s': State, t: Tid)
    requires t in s.prods && t in s'.prods && TxWake(s, t)
    requires s'.prods[t].pc == s.prods[t].pc && (s.prods[t].token ==> s'.prods[t].token)
    requires s'.park == s.park && s'.cap == s.cap && s'.ring.head == s.ring.head && s.ring.claim <= s'.ring.claim
    requires s'.rx.skipped == s.rx.skipped && s'.ends.rxDropped == s.ends.rxDropped
    requires s'.rx.pc == s.rx.pc || (!WakingAll(s.rx.pc) && !WakingAll(s'.rx.pc))
    requires s.wait.list <= s'.wait.list && (s.wait.waiting ==> s'.wait.waiting)
    ensures TxWake(s', t)
  {
    if t in s.wait.list {
      var i :| 0 <= i < |s.wait.list| && s.wait.list[i] == t;
      assert s'.wait.list[i] == t;
    }
  }

  lemma AllTxFrame(s: State, s': State, t: Tid)
    requires AllTxWake(s) && t in s.prods && t in s'.prods && s'.prods == s.prods[t := s'.prods[t]]
    requires TxWake(s', t) && (s'.prods[t].pc.PushList? ==> s.park)
    requires s'.park == s.park && s'.cap == s.cap && s'.ring.head == s.ring.head && s.ring.claim <= s'.ring.claim
    requires s'.rx == s.rx.(token := s'.rx.token) && s'.ends.rxDropped == s.ends.rxDropped
    requires s.wait.list <= s'.wait.list && (s.wait.waiting ==> s'.wait.waiting)
    requires s'.wait.list == s.wait.list || ListUnlocked(s)
    ensures AllTxWake(s')
  {
    hide TxWake;
    forall u | u in s'.prods ensures TxWake(s', u) {
      if u != t { TxFrame(s, s', u); }
    }
  }

  /** A step that leaves the thread outside the waiting part of `send`. */
  lemma TxUnlisted(s: State, s': State, t: Tid)
    requires AllTxWake(s) && CallFrame(s, s', t) && s.ring.claim <= s'.ring.claim
    requires s'.wait == s.wait && !Listed(s'.prods[t].pc) && (s'.prods[t].pc.PushList? ==> s.park)
    ensures AllTxWake(s')
  {
    AllTxFrame(s, s', t);
  }

  lemma TxPush(s: State, t: Tid, op: Op)
    requires AllTxWake(s) && At(s, t, PushList(op)) && ListUnlocked(s)
    ensures AllTxWake(SetPC(s.(wait := s.wait.(list := s.wait.list + [t])), t, SetWaiting(op)))
  {
    AllTxFrame(s, SetPC(s.(wait := s.wait.(list := s.wait.list + [t])), t, SetWaiting(op)), t);
  }

  lemma TxSetWaiting(s: State, t: Tid, op: Op)
    requires AllTxWake(s) && At(s, t, SetWaiting(op))
    ensures AllTxWake(SetPC(s.(wait := s.wait.(waiting := true)), t, ReloadClaim(op)))
  {
    AllTxFrame(s, SetPC(s.(wait := s.wait.(waiting := true)), t, ReloadClaim(op)), t);
  }

  lemma TxAdvance(s: State, t: Tid, pc: ProdPC)
    requires AllTxWake(s) && t in s.prods && Listed(s.prods[t].pc) && !s.prods[t].pc.SetWaiting?
    requires !Listed(pc) || (!pc.SetWaiting? && (TxMissed(SetPC(s, t, pc), t) ==> TxMissed(s, t)))
    requires !pc.PushList?
    ensures AllTxWake(SetPC(s, t, pc))
  {
    AllTxFrame(s, SetPC(s, t, pc), t);
  }

  lemma TxParked(s: State, t: Tid, pc: ProdPC)
    requires AllTxWake(s) && t in s.prods && !Listed(pc) && !pc.PushList?
    ensures AllTxWake(s.(prods := s.prods[t := Producer(pc, false)]))
  {
    AllTxFrame(s, s.(prods := s.prods[t := Producer(pc, false)]), t);
  }

  lemma ClaimGrows(s: State, t: Tid, quirk: bool)
    requires Enabled(s, StepProd(t, quirk)) && InOp(s.prods[t].pc) && !Listed(s.prods[t].pc) && !s.prods[t].pc.PushList?
    ensures var s' := ProdStep(s, t, quirk);
            s'.wait == s.wait && t in s'.prods && !Listed(s'.prods[t].pc) && (s'.prods[t].pc.PushList? ==> s.park)
            && s.ring.claim <= s'.ring.claim
  {
    var s' := ProdStep(s, t, quirk);
    match s.prods[t].pc
    case CheckRx(op) =>
    case LoadClaim(op) =>
    case LoadHead(op, q) =>
    case Cas(op, q) =>
    case Write(op, q) =>
    case Publish(op, q) =>
  }

  lemma TxWaitArm(s: State, t: Tid, quirk: bool)
    requires AllTxWake(s) && Enabled(s, StepProd(t, quirk)) && (Listed(s.prods[t].pc) || s.prods[t].pc.PushList?)
    requires s.prods[t].pc.ReloadHead? ==> s.prods[t].pc.seen <= s.ring.claim
    ensures AllTxWake(ProdStep(s, t, quirk))
  {
    hide AllTxWake;
    match s.prods[t].pc
    case PushList(op) => TxPush(s, t, op);
    case SetWaiting(op) => TxSetWaiting(s, t, op);
    case ReloadClaim(op) => TxAdvance(s, t, ReloadHead(op, s.ring.claim));
    case ReloadHead(op, seen) => TxAdvance(s, t, if seen < Limit(s.ring.head, s.cap) then Renew(s, op) else ReloadRx(op));
    case ReloadRx(op) => TxAdvance(s, t, if s.ends.rxDropped then Renew(s, op) else Park(op));
    case Park(op) => TxParked(s, t, Renew(s, op));
  }

  lemma SeenIsOld(s: State, t: Tid)
    requires Inv(s) && t in s.prods && s.prods[t].pc.ReloadHead?
    ensures s.prods[t].pc.seen <= s.ring.claim
  {
    assert ThreadOK(s, t);
  }

  lemma TxProd(s: State, t: Tid, quirk: bool)
    requires WakeInv(s) && Enabled(s, StepProd(t, quirk)) && InOp(s.prods[t].pc)
    ensures AllTxWake(ProdStep(s, t, quirk))
  {
    if s.prods[t].pc.ReloadHead? { SeenIsOld(s, t); }
    hide AllTxWake, Inv, RxWake, CallFrame, ProdStep;
    if Listed(s.prods[t].pc) || s.prods[t].pc.PushList? {
      TxWaitArm(s, t, quirk);
    } else {
      CallStepFrame(s, t, quirk);
      ClaimGrows(s, t, quirk);
      TxUnlisted(s, ProdStep(s, t, quirk), t);
    }
  }

  // -- steps of the receiver --

  /** The receiver neither publishes a head nor is inside `wake_all`. */
  lemma TxQuiet(s: State, s': State)
    requires AllTxWake(s) && s'.prods == s.prods && s'.park == s.park && s'.cap == s.cap
    requires s'.wait.list == s.wait.list && s'.wait.waiting == s.wait.waiting
    requires s'.ring.head == s.ring.head && s'.ring.claim == s.ring.claim
    requires s'.ends.rxDropped == s.ends.rxDropped && s'.rx.skipped == s.rx.skipped
    requires !WakingAll(s.rx.pc) && !WakingAll(s'.rx.pc)
    ensures AllTxWake(s')
  {
    forall t | t in s'.prods ensures TxWake(s', t) {
      TxFrame(s, s', t);
    }
  }

  /** A new head, or the receiver's drop, is followed by a wake. */
  lemma TxEnter(s: State, s': State, last: bool)
    requires AllTxWake(s) && !WakingAll(s.rx.pc)
    requires s' == EnterWake(s.(ring := s.ring.(head := s'.ring.head), ends := s.ends.(rxDropped := s'.ends.rxDropped)), last)
    ensures AllTxWake(s')
  {
    forall t | t in s'.prods ensures TxWake(s', t) {
      assert TxWake(s, t);
    }
  }

  lemma TxSkip(s: State, s': State)
    requires AllTxWake(s) && !WakingAll(s.rx.pc) && !s.ends.rxDropped
    requires s' == s.(ring := s.ring.(head := s'.ring.head), rx := s.rx.(pc := Resting, skipped := true))
    ensures AllTxWake(s')
  {
    forall t | t in s'.prods ensures TxWake(s', t) {
      assert TxWake(s, t);
    }
  }

  /** Without parking nobody is listed, and no wake is needed. */
  lemma TxNoPark(s: State, s': State)
    requires AllTxWake(s) && !s.park && !WakingAll(s.rx.pc)
    requires s' == s.(ring := s.ring.(head := s'.ring.head), rx := s.rx.(pc := Resting))
    ensures AllTxWake(s')
  {
    forall t | t in s'.prods ensures TxWake(s', t) {
      assert TxWake(s, t);
    }
  }

  lemma TxSwap(s: State, s': State, last: bool)
    requires AllTxWake(s) && s.rx.pc == SwapWaiting(last)
    requires s' == s.(wait := s.wait.(waiting := false), rx := s.rx.(pc := if s.wait.waiting then LockList(last) else AfterWake(last)))
    ensures AllTxWake(s')
  {
    forall t | t in s'.prods ensures TxWake(s', t) {
      assert TxWake(s, t);
    }
  }

  lemma TxLock(s: State, s': State, last: bool)
    requires AllTxWake(s) && s.rx.pc == LockList(last)
    requires s' == s.(wait := s.wait.(list := []), rx := s.rx.(pc := UnparkAll(s.wait.list, last)))
    ensures AllTxWake(s')
  {
    forall t | t in s'.prods ensures TxWake(s', t) {
      assert TxWake(s, t);
    }
  }

  lemma TxUnparkAll(s: State, s': State, rest: seq<Tid>, last: bool)
    requires AllTxWake(s) && s.rx.pc == UnparkAll(rest, last)
    requires s' == StepUnparkAll(s, rest, last)
    ensures AllTxWake(s')
  {
    forall t | t in s'.prods ensures TxWake(s', t) {
      assert TxWake(s, t);
      assert rest != [] && t in rest ==> t == rest[0] || t in rest[1..];
    }
  }

  lemma TxStoreHead(s: State, s': State)
    requires AllTxWake(s) && !WakingAll(s.rx.pc) && s' == StepStoreHead(s)
    ensures AllTxWake(s')
  {
    hide AllTxWake;
    if s.park { TxEnter(s, s', false); } else { TxNoPark(s, s'); }
  }

  lemma TxDrainStore(s: State, s': State, c: nat, u: bool)
    requires AllTxWake(s) && s.rx.pc == DrainStore(c, u) && !s.ends.rxDropped && s' == StepDrainStore(s, c, u)
    ensures AllTxWake(s')
  {
    hide AllTxWake;
    if c == 0 { TxQuiet(s, s'); } else if u { TxSkip(s, s'); } else { TxStoreHead(s, s'); }
  }

  predicate Releasing(pc: ConsPC) {
    pc.StoreHead? || pc.DrainStore? || pc.SetRxDropped? || WakingAll(pc)
  }

  /** The other steps of the receiver do not concern the producers. */
  ghost predicate QuietStep(s: State, s': State) {
    && s'.prods == s.prods && s'.park == s.park && s'.cap == s.cap && s'.ends == s.ends
    && s'.wait.list == s.wait.list && s'.wait.waiting == s.wait.waiting
    && s'.ring.head == s.ring.head && s'.ring.claim == s.ring.claim
    && s'.rx.skipped == s.rx.skipped && !WakingAll(s'.rx.pc)
  }

  lemma MoveOutQuiet(s: State, s': State, pc: ConsPC)
    requires 0 < s.cap == |s.ring.slots| && !WakingAll(pc) && s' == MoveOut(s, pc)
    ensures QuietStep(s, s')
  {
    hide SlotOf;
    if SlotAt(s, s.rx.head).cell.None? { assert QuietStep(s, s'); } else { assert QuietStep(s, s'); }
  }

  lemma SetRxQuiet(s: State, s': State, pc: ConsPC)
    requires s' == SetRx(s, pc) && !WakingAll(pc)
    ensures QuietStep(s, s')
  {
  }

  lemma ProbeQuiet(s: State, s': State)
    requires 0 < s.cap == |s.ring.slots| && s' == StepProbeAgain(s)
    ensures QuietStep(s, s')
  {
    hide Published;
    if Published(s, s.rx.head) { assert QuietStep(s, s'); } else { assert QuietStep(s, s'); }
  }

  lemma ParkArmQuiet(s: State, quirk: bool)
    requires WellShaped(s) && ConsEnabled(s, quirk) && (Registered(s.rx.pc) || s.rx.pc.PrepSlot? || s.rx.pc.Cancel? || s.rx.pc.ClearFlag?)
    ensures QuietStep(s, ConsStep(s, quirk))
  {
  }

  lemma QuietSteps(s: State, quirk: bool)
    requires WellShaped(s) && ConsEnabled(s, quirk) && !Releasing(s.rx.pc)
    ensures QuietStep(s, ConsStep(s, quirk))
  {
    hide QuietStep, Published, SlotOf;
    var s' := ConsStep(s, quirk);
    match s.rx.pc
    case Probe(b) => SetRxQuiet(s, s', if Published(s, s.rx.head) then Take else ProbeSenders(b));
    case ProbeSenders(b) => SetRxQuiet(s, s', StepProbeSenders(s, b).rx.pc);
    case ProbeAgain(b) => ProbeQuiet(s, s');
    case Take => MoveOutQuiet(s, s', StoreHead);
    case Spin(left) => SetRxQuiet(s, s', if Published(s, s.rx.head) then Probe(true) else if left <= 1 then PrepSlot else Spin(left - 1));
    case DrainLoad(c, m) => SetRxQuiet(s, s', if Published(s, s.rx.head) then DrainTake(c, m) else DrainStore(c, false));
    case DrainTake(c, m) => MoveOutQuiet(s, s', Callback(c + 1, m));
    case Callback(c, m) =>
      SetRxQuiet(s, s', if quirk then DrainStore(c, true) else if c < m then DrainLoad(c, m) else DrainStore(c, false));
    case _ => ParkArmQuiet(s, quirk);
  }

  lemma TxCons(s: State, quirk: bool)
    requires WakeInv(s) && ConsEnabled(s, quirk)
    ensures WellShaped(s) && AllTxWake(ConsStep(s, quirk))
  {
    InvIsWellShaped(s);
    if Releasing(s.rx.pc) {
      TxRelease(s, quirk);
    } else {
      QuietSteps(s, quirk);
      hide AllTxWake, Inv, RxWake, ConsStep;
      TxQuiet(s, ConsStep(s, quirk));
    }
  }

  lemma TxRelease(s: State, quirk: bool)
    requires WakeInv(s) && WellShaped(s) && ConsEnabled(s, quirk) && Releasing(s.rx.pc)
    ensures AllTxWake(ConsStep(s, quirk))
  {
    assert s.ends.rxDropped <==> Dropping(s.rx.pc);
    hide AllTxWake, Inv, RxWake;
    var s' := ConsStep(s, quirk);
    match s.rx.pc
    case StoreHead => TxStoreHead(s, s');
    case DrainStore(c, u) => TxDrainStore(s, s', c, u);
    case SetRxDropped => TxEnter(s, s', true);
    case SwapWaiting(last) => TxSwap(s, s', last);
    case LockList(last) => TxLock(s, s', last);
    case UnparkAll(rest, last) => TxUnparkAll(s, s', rest, last);
  }

  // ---------- all moves ----------

  lemma WakeProdStep(s: State, t: Tid, quirk: bool)
    requires WakeInv(s) && Enabled(s, StepProd(t, quirk))
    ensures WakeInv(ProdStep(s, t, quirk))
  {
    KeepProd(s, t, quirk);
    if InOp(s.prods[t].pc) {
      CallStepFrame(s, t, quirk);
      TxProd(s, t, quirk);
      hide Inv, AllTxWake, CallFrame, ProdStep;
      RxWakeProd(s, ProdStep(s, t, quirk), t);
    } else {
      WakeParker(s, t, quirk);
    }
  }

  /** The steps of `Parker::wake`. */
  lemma WakeParkerFlag(s: State, t: Tid, s': State)
    requires 0 < s.cap == |s.ring.slots| && RxWake(s) && AllTxWake(s)
    requires || (At(s, t, WakeLoad) && s' == SetPC(s, t, if s.wait.parked then WakeClear else Idle))
             || (At(s, t, WakeClear) && s' == SetPC(s.(wait := s.wait.(parked := false)), t, WakeTake))
    ensures 0 < s'.cap == |s'.ring.slots| && RxWake(s') && AllTxWake(s')
  {
    hide RxWake, AllTxWake;
    if At(s, t, WakeLoad) { RxWakeLoad(s, s', t); } else { RxWakeClear(s, s', t); }
    AllTxFrame(s, s', t);
  }

  lemma WakeParkerSlot(s: State, t: Tid, s': State)
    requires 0 < s.cap == |s.ring.slots| && RxWake(s) && AllTxWake(s) && t in s.prods
    requires || (s.prods[t].pc == WakeTake && s.wait.slotLock == None && s' == StepTake(s, t))
             || (s.prods[t].pc.WakeUnpark? && s' == StepUnpark(s, t, s.prods[t].pc.target))
    ensures 0 < s'.cap == |s'.ring.slots| && RxWake(s') && AllTxWake(s')
  {
    hide RxWake, AllTxWake;
    if s.prods[t].pc == WakeTake { RxWakeTake(s, s', t); } else { RxWakeUnpark(s, s', t, s.prods[t].pc.target); }
    AllTxFrame(s, s', t);
  }

  lemma WakeParker(s: State, t: Tid, quirk: bool)
    requires 0 < s.cap == |s.ring.slots| && RxWake(s) && AllTxWake(s)
    requires Enabled(s, StepProd(t, quirk)) && !InOp(s.prods[t].pc)
    ensures var s' := ProdStep(s, t, quirk);
            0 < s'.cap == |s'.ring.slots| && RxWake(s') && AllTxWake(s')
  {
    hide RxWake, AllTxWake, StepCas, StepWrite, StepPublish, StepLoadHead, GiveBack, StepTake, StepUnpark;
    if s.prods[t].pc.WakeLoad? || s.prods[t].pc.WakeClear? {
      WakeParkerFlag(s, t, ProdStep(s, t, quirk));
    } else {
      WakeParkerSlot(s, t, ProdStep(s, t, quirk));
    }
  }

  lemma WakeConsStep(s: State, quirk: bool)
    requires WakeInv(s) && ConsEnabled(s, quirk)
    ensures WellShaped(s) && WakeInv(ConsStep(s, quirk))
  {
    KeepCons(s, quirk);
    TxCons(s, quirk);
    hide Inv, AllTxWake, ConsStep;
    RxWakeConsInv(s, quirk);
  }

  lemma RxWakeConsInv(s: State, quirk: bool)
    requires WakeInv(s) && WellShaped(s) && ConsEnabled(s, quirk)
    ensures 0 < ConsStep(s, quirk).cap == |ConsStep(s, quirk).ring.slots| && RxWake(ConsStep(s, quirk))
  {
    RxWakeCons(s, quirk);
  }

  lemma CapKept(s: State, m: Move)
    requires Inv(s) && Enabled(s, m) && Inv(Apply(s, m))
    ensures 0 < s.cap == |s.ring.slots| && 0 < Apply(s, m).cap == |Apply(s, m).ring.slots|
  {
    hide Apply, Enabled;
  }

  lemma WakeStartSend(s: State, m: Move)
    requires WakeInv(s) && Enabled(s, m) && (m.StartSend? || m.CloneSender? || m.ProdNoise?)
    requires Inv(Apply(s, m))
    ensures WakeInv(Apply(s, m))
  {
    hide ProdStep, ConsStep, StepReap, Counters, Window, Threads, Handles, ReceiverOK, Delivery, Fates, ThreadOrder, Reaped;
    var s' := Apply(s, m);
    CapKept(s, m);
    RxWakeFrame(s, s');
    if m.CloneSender? {
      hide RxWake, Inv;
      assert s'.prods == s.prods;
      forall t | t in s'.prods ensures TxWake(s', t) { TxFrame(s, s', t); }
    } else {
      hide RxWake, Inv;
      AllTxFrame(s, s', m.t);
    }
  }

  lemma WakeDropSender(s: State, t: Tid, h: Hid)
    requires WakeInv(s) && Enabled(s, DropSender(t, h)) && Inv(Apply(s, DropSender(t, h)))
    ensures WakeInv(Apply(s, DropSender(t, h)))
  {
    var s' := Apply(s, DropSender(t, h));
    if s.ends.senders == 1 { RxWakeStarts(s, s', t); } else { RxWakeFrame(s, s'); }
    hide RxWake, Inv;
    AllTxFrame(s, s', t);
  }

  lemma WakeStartRx(s: State, m: Move)
    requires WakeInv(s) && Enabled(s, m) && (m.StartRecv? || m.StartDrain? || m.StartDropRx?)
    requires Inv(Apply(s, m))
    ensures WakeInv(Apply(s, m))
  {
    hide RxWake, Inv, AllTxWake;
    var s' := Apply(s, m);
    SetRxUnregistered(s, s', s'.rx.pc);
    RxWakeUnregistered(s, s');
    TxQuiet(s, s');
  }

  lemma WakeConsNoise(s: State, s': State, tid: Tid, token: bool)
    requires 0 < s.cap == |s.ring.slots| && RxWake(s) && AllTxWake(s)
    requires Enabled(s, ConsNoise(tid, token)) && s' == Apply(s, ConsNoise(tid, token))
    ensures RxWake(s') && AllTxWake(s')
  {
    forall t | t in s'.prods ensures TxWake(s', t) {
      TxFrame(s, s', t);
    }
  }

  lemma WakeReap(s: State)
    requires WakeInv(s) && Enabled(s, Reap) && Inv(Apply(s, Reap))
    ensures WakeInv(Apply(s, Reap))
  {
    var s' := Apply(s, Reap);
    RxWakeFrame(s, s');
    hide RxWake, Inv;
    TxQuiet(s, s');
  }

  /** Every move keeps the wake invariant. */
  lemma WakeStep(s: State, m: Move)
    requires WakeInv(s) && Enabled(s, m)
    ensures WakeInv(Apply(s, m))
  {
    InvStep(s, m);
    match m
    case StepProd(t, q) => hide WakeInv; WakeProdStep(s, t, q);
    case StepCons(q) => hide WakeInv; WakeConsStep(s, q);
    case DropSender(t, h) => hide WakeInv; WakeDropSender(s, t, h);
    case ConsNoise(tid, token) => WakeConsNoise(s, Apply(s, m), tid, token);
    case Reap => hide WakeInv; WakeReap(s);
    case StartSend(t, h, b) => hide WakeInv; WakeStartSend(s, m);
    case CloneSender(h, h') => hide WakeInv; WakeStartSend(s, m);
    case ProdNoise(t, token) => hide WakeInv; WakeStartSend(s, m);
    case _ => hide WakeInv; WakeStartRx(s, m);
  }
}

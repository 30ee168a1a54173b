/**
 What the MPSC ring guarantees on store buffers: its memory is safe and first in first out, nothing is lost on
 disconnection, and with the fences where they are no wakeup is lost.
 */
module MpscBufferedTheorems {
  import opened Common
  import opened Arith
  import M = MpscMachine
  import R = MpscInvariant
  import W = MpscWake
  import T = MpscTheorems
  import opened MpscBuffered
  import opened MpscBufferedInvariant

  lemma {:induction false} RunKeepsInv(run: seq<State>, i: nat)
    requires IsRun(run) && Init(run[0]) && i < |run|
    ensures Inv(run[i])
  {
    hide Inv, Init, Enabled, Apply;
    if i == 0 {
      InvInit(run[0]);
    } else {
      RunKeepsInv(run, i - 1);
      assert Next(run[i - 1], run[i]);
      var m :| Enabled(run[i - 1], m) && run[i] == Apply(run[i - 1], m);
      InvStep(run[i - 1], m, run[i]);
    }
  }

  lemma ReachableInv(s: State)
    requires Reachable(s)
    ensures Inv(s)
  {
    hide Init, Inv;
    var run :| IsRun(run) && Init(run[0]) && run[|run| - 1] == s;
    RunKeepsInv(run, |run| - 1);
  }

  // ---------- what store buffers add to interleavings ----------

  /** A step of a sender whose loads of the head and of `parked` return what memory still has: a head that is
      behind only by the store of a drain that unwound, and a flag that the receiver has withdrawn. */
  ghost predicate OldLoad(v: M.State, v': M.State) {
    exists t, q, head: nat, parked :: CanStep(v, t, q) && Stale(v, head, parked) && v' == SeenStep(v, t, q, head, parked)
  }

  /** The begin of a call: what it notes as the head at its start (for counting retries) may be older too. */
  ghost predicate OldStart(v: M.State, v': M.State) {
    exists t, h, b, head: nat :: M.Enabled(v, M.StartSend(t, h, b)) && head <= v.ring.head
      && v' == M.SetPC(v.(hist := v.hist.(fate := v.hist.fate + [M.Held(t)])), t, M.CheckRx(M.Op(h, |v.hist.fate|, b, head, 0)))
  }

  ghost predicate Interleaved(v: M.State, v': M.State) {
    v' == v || M.Next(v, v') || OldLoad(v, v') || OldStart(v, v')
  }

  /** Refinement: seen at the moments at which its stores land, a move on store buffers is a move of the
      interleaving machine or none, except that a load may return an old value of the two stores that no
      fence follows. */
  lemma RefinesInterleaving(s: State, m: Move, s': State)
    requires Reachable(s) && Enabled(s, m) && s' == Apply(s, m)
    ensures Interleaved(Virtual(s), Virtual(s'))
  {
    ReachableInv(s);
    hide Inv, Reachable, Virtual, OldLoad, OldStart, M.Enabled, M.Apply;
    var v, v' := Virtual(s), Virtual(s');
    match m
    case FlushTx(t) => KeepFlushTx(s, t, s');
    case FlushRx => if IsLate(s.rxBuf[0]) { KeepFlushLate(s, s'); } else { KeepFlushStep(s, s'); }
    case Do(c) =>
      match c
      case StepProd(t, q) => if IsStore(s.mem.prods[t].pc) { KeepIssueTx(s, t, s'); } else { LoadIsOld(s, t, q, s'); }
      case StepCons(q) =>
        if !IsRxStore(s.mem.rx.pc) { KeepStepRx(s, q, s'); }
        else if LateStore(s.mem.rx.pc) { KeepIssueLate(s, false, s'); }
        else { KeepIssueRx(s, s'); }
      case StartSend(t, h, b) => StartIsOld(s, t, h, b, s');
      case CloneSender(_, _) => KeepHandles(s, c, s');
      case DropSender(_, _) => KeepHandles(s, c, s');
      case ProdNoise(_, _) => KeepHandles(s, c, s');
      case ConsNoise(tid, token) => KeepConsNoise(s, tid, token, s');
      case Reap => KeepReap(s, s');
      case _ => KeepRxStarts(s, c, s');
  }

  lemma LoadIsOld(s: State, t: Tid, q: bool, s': State)
    requires Inv(s) && Enabled(s, Do(M.StepProd(t, q))) && !IsStore(s.mem.prods[t].pc) && s' == Apply(s, Do(M.StepProd(t, q)))
    ensures OldLoad(Virtual(s), Virtual(s'))
  {
    hide Inv, Virtual, SeenStep, Enabled, Apply;
    KeepLoadTx(s, t, q, s');
    MemoryIsStale(s);
  }

  lemma StartIsOld(s: State, t: Tid, h: M.Hid, b: bool, s': State)
    requires Inv(s) && Enabled(s, Do(M.StartSend(t, h, b))) && s' == Apply(s, Do(M.StartSend(t, h, b)))
    ensures OldStart(Virtual(s), Virtual(s'))
  {
    hide Inv, Virtual, Enabled, Apply;
    KeepStartSend(s, t, h, b, s');
  }

  // ---------- the data ----------

  /** No read of empty memory, no overwritten payload, no overflow; the head in memory may only be behind. */
  lemma NoFault(s: State)
    requires Reachable(s)
    ensures !s.mem.hist.fault && s.mem.ring.claim <= USIZE_MAX
    ensures s.mem.ring.head <= s.mem.rx.head <= s.mem.ring.claim <= s.mem.rx.head + s.mem.cap
  {
    ReachableInv(s);
    MemoryIsStale(s);
    hide W.RxWake, W.AllTxWake, Prods, BuffersOK, HeadAfter;
  }

  lemma RoundWaits(s: State, t: Tid)
    requires Inv(s) && BufOf(s.bufs, t) != []
    ensures t in s.mem.prods && t in s.bufs && t in Virtual(s).prods
    ensures Virtual(s).prods[t].pc == Behind(s.mem.prods[t].pc, s.bufs[t]) && TxShape(s.mem.prods[t].pc, s.bufs[t])
  {
    hide W.WakeInv, TxShape, HeadAfter, RxBehind;
  }

  /** When a slot write lands the slot is empty in memory, and it is the write of the oldest claim of that slot. */
  lemma WritesLandInEmptySlots(s: State, t: Tid)
    requires Reachable(s) && t in s.bufs && s.bufs[t] != [] && s.bufs[t][0].Cell?
    ensures var e := s.bufs[t][0];
      && 0 < s.mem.cap == |s.mem.ring.slots| && s.mem.ring.slots[SlotOf(e.q, s.mem.cap)] == M.Slot(StaleTag(e.q, s.mem.cap), None)
      && s.mem.rx.head <= e.q < |s.mem.hist.log| && s.mem.hist.log[e.q] == M.Claim(e.op.v, t)
  {
    ReachableInv(s);
    RoundWaits(s, t);
    VirtualSlots(s);
    assert R.ThreadOK(Virtual(s), t);
  }

  lemma VirtualSlots(s: State)
    ensures var v := Virtual(s); v.ring.slots == s.mem.ring.slots && v.cap == s.mem.cap && v.rx.head == s.mem.rx.head && v.hist == s.mem.hist
    ensures var v := Virtual(s); v.ring.claim == s.mem.ring.claim && v.ends == s.mem.ends && v.rx.skipped == s.mem.rx.skipped
  {
    hide Prods, HeadAfter, RxBehind;
  }

  /** The slot to be read holds the payload of the next claim, in memory: its write landed before its round. */
  lemma SlotIsReady(s: State)
    requires Reachable(s) && (s.mem.rx.pc.Take? || s.mem.rx.pc.DrainTake?)
    ensures 0 < s.mem.cap == |s.mem.ring.slots| && s.mem.rx.head < |s.mem.hist.log|
    ensures s.mem.ring.slots[SlotOf(s.mem.rx.head, s.mem.cap)].cell == Some(s.mem.hist.log[s.mem.rx.head].ticket)
  {
    ReachableInv(s);
    OnlyLatePending(s.mem.rx, s.rxBuf);
    VirtualSlots(s);
    R.PublishedMeansClaimed(Virtual(s), s.mem.rx.head);
  }

  /** First in, first out, without gaps: deliveries are the won claims in order. */
  lemma DeliveredIsPrefixOfLog(s: State)
    requires Reachable(s)
    ensures |s.mem.hist.delivered| == s.mem.rx.head <= |s.mem.hist.log|
    ensures forall i :: 0 <= i < s.mem.rx.head ==> s.mem.hist.delivered[i] == s.mem.hist.log[i].ticket
  {
    ReachableInv(s);
    VirtualSlots(s);
    assert R.Delivery(Virtual(s));
  }

  /** After `Disconnected` there is no sender handle and everything ever accepted has been delivered, although the
      last publish and the drop are seen through different locations. */
  lemma DisconnectedIsLossless(s: State)
    requires Reachable(s) && s.mem.rx.closed
    ensures s.mem.ends.handles == map[] && |s.mem.hist.delivered| == |s.mem.hist.log|
  {
    ReachableInv(s);
    VirtualSlots(s);
    assert R.ReceiverOK(Virtual(s)) && R.Delivery(Virtual(s));
  }

  // ---------- no lost wakeup ----------

  /** A thread that waits at a fence or a lock is where the interleaving has it, or past a store of its own. */
  lemma WhereItIs(pc: M.ProdPC, b: seq<TxStore>)
    requires TxShape(pc, b)
    ensures !IsStore(Behind(pc, b)) ==> pc == Behind(pc, b) && b == []
    ensures Behind(pc, b).WakeClear? ==> pc.WakeClear? || pc.WakeTake?
    ensures pc.Park? || pc.WakeUnpark? ==> b == []
    ensures forall e :: e in b && e.Round? ==> pc.WakeLoad?
  {
  }

  lemma AtInMemory(s: State, t: Tid, pc: M.ProdPC)
    requires Inv(s) && W.At(Virtual(s), t, pc)
    ensures !IsStore(pc) ==> W.At(s.mem, t, pc)
    ensures pc == M.WakeClear ==> W.At(s.mem, t, M.WakeClear) || W.At(s.mem, t, M.WakeTake)
  {
    ViewParts(s);
    ShapeOf(s.mem.prods, s.bufs, t);
    WhereItIs(s.mem.prods[t].pc, BufOf(s.bufs, t));
    hide W.WakeInv, TxShape, Behind, IsStore;
  }

  /** The round of the receiver's next slot is on its way to memory. */
  ghost predicate RoundPending(s: State) {
    exists t, e :: e in BufOf(s.bufs, t) && e.Round? && e.q == s.mem.rx.head
  }

  lemma ParkedIsDrained(s: State)
    requires Inv(s) && s.mem.rx.pc == M.Parked
    ensures s.rxBuf == [] && Virtual(s).rx == s.mem.rx && Virtual(s).ring == s.mem.ring && Virtual(s).wait == s.mem.wait
  {
    OnlyLatePending(s.mem.rx, s.rxBuf);
    NothingLate(s);
    ViewParts(s);
    hide W.WakeInv, Prods;
  }

  /** No lost wakeup, consumer: if it sleeps without a token although its next slot is published in memory or in
      somebody's buffer, or no sender is left, then a thread is on its way to unpark it and will find it. */
  lemma ConsumerWakeupIsNotLost(s: State)
    requires Reachable(s) && s.mem.rx.pc == M.Parked && !s.mem.rx.token
    requires 0 < s.mem.cap == |s.mem.ring.slots| && (M.Published(s.mem, s.mem.rx.head) || RoundPending(s) || s.mem.ends.senders == 0)
    ensures T.ReceiverWillBeWoken(s.mem)
  {
    hide Inv, Reachable, Virtual, M.Published, RoundPending, T.ReceiverWillBeWoken;
    ReachableInv(s);
    ParkedIsDrained(s);
    var v := Virtual(s);
    SleeperFacts(s);
    if t :| W.At(v, t, M.WakeUnpark(v.rx.tid)) {
      AtInMemory(s, t, M.WakeUnpark(v.rx.tid));
      WokenBy(s.mem, t);
    } else if t :| W.At(v, t, M.WakeTake) {
      AtInMemory(s, t, M.WakeTake);
      WokenBy(s.mem, t);
    } else {
      var t := AWaker(s);
      WokenBy(s.mem, t);
    }
  }

  /** Some thread that has published, or dropped the last sender, is inside its wake. */
  lemma AWaker(s: State) returns (t: Tid)
    requires Inv(s) && s.mem.rx.pc == M.Parked && !s.mem.rx.token && Virtual(s).rx == s.mem.rx && Virtual(s).ring == s.mem.ring
    requires 0 < s.mem.cap == |s.mem.ring.slots| && (M.Published(s.mem, s.mem.rx.head) || RoundPending(s) || s.mem.ends.senders == 0)
    ensures t in s.mem.prods && W.Waking(s.mem.prods[t].pc) && (s.mem.prods[t].pc.WakeUnpark? ==> W.At(Virtual(s), t, M.WakeUnpark(s.mem.prods[t].pc.target)))
  {
    hide Inv, Virtual, M.Published, BufOf;
    var v := Virtual(s);
    VirtualSlots(s);
    PublishedInMemory(s.mem, v);
    if RoundPending(s) {
      var u, e :| e in BufOf(s.bufs, u) && e.Round? && e.q == s.mem.rx.head;
      PendingWaits(s, u, e);
      t := u;
    } else {
      SleeperFacts(s);
      t :| t in v.prods && W.Waking(v.prods[t].pc);
      AtInMemory(s, t, v.prods[t].pc);
    }
  }

  lemma WokenBy(m: M.State, t: Tid)
    requires t in m.prods && W.Waking(m.prods[t].pc) && (m.prods[t].pc.WakeUnpark? ==> m.prods[t].pc.target == m.rx.tid)
    requires !m.prods[t].pc.WakeUnpark? ==> m.wait.registered == Some(m.rx.tid) && (m.wait.parked || m.prods[t].pc.WakeTake?)
    ensures T.ReceiverWillBeWoken(m)
  {
    assert W.At(m, t, m.prods[t].pc);
  }

  lemma PublishedInMemory(m: M.State, v: M.State)
    requires 0 < m.cap == |m.ring.slots| && v.cap == m.cap && v.ring == m.ring && v.rx == m.rx
    ensures M.Published(v, v.rx.head) <==> M.Published(m, m.rx.head)
  {
  }

  lemma PendingWaits(s: State, t: Tid, e: TxStore)
    requires Inv(s) && e in BufOf(s.bufs, t) && e.Round?
    ensures W.At(s.mem, t, M.WakeLoad)
  {
    hide W.WakeInv, TxShape, Behind, HeadAfter, RxBehind;
    RoundWaits(s, t);
    WhereItIs(s.mem.prods[t].pc, s.bufs[t]);
  }

  /** What the invariant says of a receiver that sleeps. */
  lemma SleeperFacts(s: State)
    requires Inv(s) && Virtual(s).rx == s.mem.rx && s.mem.rx.pc == M.Parked && !s.mem.rx.token
    ensures var v := Virtual(s);
      && 0 < v.cap == |v.ring.slots|
      && ((exists t :: W.At(v, t, M.WakeUnpark(v.rx.tid)))
          || (v.wait.registered == Some(v.rx.tid) && (v.wait.parked || exists t :: W.At(v, t, M.WakeTake))))
      && (forall t, u :: W.At(v, t, M.WakeUnpark(u)) ==> u == v.rx.tid)
      && (M.Published(v, v.rx.head) || v.ends.senders == 0 ==> exists t :: t in v.prods && W.Waking(v.prods[t].pc))
  {
    hide Virtual, BuffersOK, R.Window, R.Threads, R.Handles, R.Delivery, R.Fates, R.ThreadOrder, R.Reaped;
  }

  /** The receiver is at the fence between a store of the head or of its drop and the wake. */
  ghost predicate Announcing(s: State) {
    exists e :: e in s.rxBuf && (e.NewHead? || e.DropFlag?)
  }

  /** The head that the receiver has stored last, in memory or not. */
  function StoredHead(s: State): nat {
    if s.rxBuf != [] && s.rxBuf[|s.rxBuf| - 1].NewHead? then s.rxBuf[|s.rxBuf| - 1].n else HeadAfter(s.rxBuf, s.mem.ring.head)
  }

  /** There is room, or nobody to wait for, by a store of the receiver that need not have landed. */
  predicate CanProceed(s: State) {
    s.mem.ring.claim < M.Limit(StoredHead(s), s.mem.cap) || s.mem.ends.rxDropped || DropFlag in s.rxBuf
  }

  lemma AnnouncingShape(rx: M.Consumer, b: seq<RxStore>)
    requires RxShape(rx, b)
    ensures (exists e :: e in b && (e.NewHead? || e.DropFlag?)) ==>
              rx.pc.SwapWaiting? && var pc := RxBehind(rx.pc, b); !pc.LockList? && !pc.UnparkAll?
    ensures !(exists e :: e in b && (e.NewHead? || e.DropFlag?)) ==>
              DropFlag !in b && (b != [] ==> !b[|b| - 1].NewHead?) && (RxBehind(rx.pc, b) == rx.pc || rx.pc == M.RecheckRound)
    ensures RxBehind(rx.pc, b).PrepFlag? || RxBehind(rx.pc, b) == rx.pc || (exists e :: e in b && (e.NewHead? || e.DropFlag?))
  {
    if b != [] {
      var last := b[|b| - 1];
      assert last in b;
      assert forall i :: 0 <= i < |b| - 1 ==> IsLate(b[i]);
    }
  }

  /** No lost wakeup, producers: one that sleeps without a token although there is room, or nobody to wait for,
      by stores that need not have reached memory, is about to be unparked, if and only if the latest head was
      not stored by a drain that unwound. */
  lemma ProducerWakeupIsNotLost(s: State, t: Tid)
    requires Reachable(s) && t in s.mem.prods && s.mem.prods[t].pc.Park? && !s.mem.prods[t].token && CanProceed(s)
    ensures T.WillBeUnparked(s.mem, t) <==> Announcing(s) || !s.mem.rx.skipped
  {
    hide Inv, Reachable, RxShape, TxShape, Virtual, HeadAfter, RxBehind, Behind, Prods, Announcing, CanProceed;
    ReachableInv(s);
    ParkedProducer(s, t);
    assert RxShape(s.mem.rx, s.rxBuf) by { RxShapeHolds(s); }
    AnnouncingMeans(s);
    VirtualSlots(s);
    ViewParts(s);
    ViewLists(s);
  }

  lemma RxShapeHolds(s: State)
    requires Inv(s)
    ensures RxShape(s.mem.rx, s.rxBuf)
  {
    hide W.WakeInv;
  }

  /** What the invariant says of a producer that sleeps. */
  lemma ParkedProducer(s: State, t: Tid)
    requires Inv(s) && t in s.mem.prods && s.mem.prods[t].pc.Park? && !s.mem.prods[t].token
    ensures var v := Virtual(s);
      && ((v.rx.pc.UnparkAll? && t in v.rx.pc.rest) || (t in v.wait.list && (v.wait.waiting || v.rx.pc.LockList?)))
      && (v.ring.claim < M.Limit(v.ring.head, v.cap) || v.ends.rxDropped ==> W.WakingAll(v.rx.pc) || v.rx.skipped)
      && (v.rx.skipped ==> !v.ends.rxDropped && !W.WakingAll(v.rx.pc))
      && (v.rx.pc.UnparkAll? ==> v.wait.list == [])
  {
    ShapeOf(s.mem.prods, s.bufs, t);
    WhereItIs(s.mem.prods[t].pc, BufOf(s.bufs, t));
    hide BuffersOK, R.Inv, W.RxWake, TxShape, Behind, HeadAfter, RxBehind;
    var v := Virtual(s);
    assert t in v.prods && W.TxWake(v, t);
  }

  lemma AnnouncingMeans(s: State)
    requires RxShape(s.mem.rx, s.rxBuf)
    ensures Announcing(s) ==> s.mem.rx.pc.SwapWaiting? && var pc := RxBehind(s.mem.rx.pc, s.rxBuf); !pc.LockList? && !pc.UnparkAll?
    ensures !Announcing(s) ==> (RxBehind(s.mem.rx.pc, s.rxBuf) == s.mem.rx.pc
                                || (s.mem.rx.pc == M.RecheckRound && RxBehind(s.mem.rx.pc, s.rxBuf) == M.PrepFlag))
    ensures !Announcing(s) && CanProceed(s) ==> s.mem.ends.rxDropped || s.mem.ring.claim < M.Limit(HeadAfter(s.rxBuf, s.mem.ring.head), s.mem.cap)
  {
    AnnouncingShape(s.mem.rx, s.rxBuf);
    hide RxShape, RxBehind, HeadAfter;
  }

  lemma ViewLists(s: State)
    ensures var v := Virtual(s);
      v.wait.list == s.mem.wait.list && v.wait.waiting == s.mem.wait.waiting && v.ring.head == HeadAfter(s.rxBuf, s.mem.ring.head)
  {
    hide Prods, HeadAfter, RxBehind;
  }

  // ---------- no deadlock ----------

  /** No guard of the machine blocks a thread for its own sake. */
  lemma MemoryIsWellShaped(s: State)
    requires Inv(s)
    ensures M.WellShaped(s.mem)
  {
    VirtualShaped(s);
    VirtualSlots(s);
    ViewParts(s);
    hide W.WakeInv, HeadAfter, RxBehind, RxShape;
    forall t | t in s.mem.prods && M.InOp(s.mem.prods[t].pc) ensures s.mem.prods[t].pc.op.h in s.mem.ends.handles {
      ShapeOf(s.mem.prods, s.bufs, t);
      assert t in Virtual(s).prods;
    }
  }

  /** A thread that can move in the interleaving can move, or one of its stores can land. */
  lemma MovesInMemory(s: State, t: Tid)
    requires Inv(s) && T.CanStep(Virtual(s), t) && (M.InFlight(Virtual(s).prods[t].pc) || W.Waking(Virtual(s).prods[t].pc))
    requires s.mem.rx.pc == M.Parked
    ensures t in s.mem.prods && (M.InFlight(s.mem.prods[t].pc) || W.Waking(s.mem.prods[t].pc))
    ensures Enabled(s, FlushTx(t)) || Enabled(s, Do(M.StepProd(t, false)))
  {
    hide W.WakeInv, HeadAfter, RxBehind, RxShape, M.WellShaped, Virtual, TxBuffersOK, HeadsRise;
    MemoryIsWellShaped(s);
    ViewParts(s);
    ShapeOf(s.mem.prods, s.bufs, t);
    VirtualThread(s, t);
    ParkedIsDrained(s);
    if BufOf(s.bufs, t) == [] {
      hide TxShape;
      NoneBehindTx(s.mem.prods[t].pc);
    }
  }

  /** Deadlock freedom on store buffers: receiver and producer never both sleep without tokens on a full ring, nor
      at all unless a drain has unwound, while no third thread in a send or a wake can move or has a store that
      can land (below saturation). */
  lemma NeverBothAsleep(s: State, p: Tid)
    requires Reachable(s) && s.mem.rx.pc == M.Parked && !s.mem.rx.token
    requires p in s.mem.prods && s.mem.prods[p].pc.Park? && !s.mem.prods[p].token
    requires s.mem.ring.claim == M.Limit(s.mem.ring.head, s.mem.cap) || !s.mem.rx.skipped
    requires s.mem.ring.head < USIZE_MAX
    ensures exists t :: t != p && t in s.mem.prods && (M.InFlight(s.mem.prods[t].pc) || W.Waking(s.mem.prods[t].pc))
              && (Enabled(s, FlushTx(t)) || Enabled(s, Do(M.StepProd(t, false))))
  {
    ReachableInv(s);
    ParkedIsDrained(s);
    VirtualSlots(s);
    ShapeOf(s.mem.prods, s.bufs, p);
    WhereItIs(s.mem.prods[p].pc, BufOf(s.bufs, p));
    var t := ThirdThread(s, p);
    MovesInMemory(s, t);
  }

  lemma ThirdThread(s: State, p: Tid) returns (t: Tid)
    requires Inv(s) && s.mem.rx.pc == M.Parked && !s.mem.rx.token && Virtual(s).rx == s.mem.rx && Virtual(s).ring == s.mem.ring
    requires p in s.mem.prods && p in Virtual(s).prods && Virtual(s).prods[p] == s.mem.prods[p] && s.mem.prods[p].pc.Park? && !s.mem.prods[p].token
    requires s.mem.ring.claim == M.Limit(s.mem.ring.head, s.mem.cap) || !s.mem.rx.skipped
    requires s.mem.ring.head < USIZE_MAX && Virtual(s).cap == s.mem.cap
    ensures t != p && T.CanStep(Virtual(s), t) && (M.InFlight(Virtual(s).prods[t].pc) || W.Waking(Virtual(s).prods[t].pc))
  {
    var v := Virtual(s);
    hide R.Window, R.Threads, R.Handles, R.Delivery, R.Fates, R.ThreadOrder, R.Reaped, Virtual;
    assert W.TxWake(v, p);
    assert v.ring.claim == M.Limit(v.ring.head, v.cap) > v.rx.head;
    if M.Published(v, v.rx.head) {
      var w :| w in v.prods && W.Waking(v.prods[w].pc);
      T.WakersProgress(v, w);
      t :| T.CanStep(v, t) && W.Waking(v.prods[t].pc);
    } else {
      t := v.hist.log[v.rx.head].who;
      assert R.HeldBy(v, t, v.rx.head) by { OldestIsHeld(v); }
    }
  }

  lemma OldestIsHeld(v: M.State)
    requires R.Inv(v) && v.rx.head < v.ring.claim && !M.Published(v, v.rx.head)
    ensures R.HeldBy(v, v.hist.log[v.rx.head].who, v.rx.head)
  {
    assert R.SlotOK(v, v.rx.head);
  }
}

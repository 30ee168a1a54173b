/**
 The inductive invariant of the MPSC ring: what links the shared head, the claim counter, the round
 and the memory of each slot, and the sequences that producers hold between claim and publish.
 Every move keeps it.
 */
module MpscInvariant {
  import opened Arith
  import opened Common
  import opened MpscMachine

  // ---------- the invariant ----------

  /** Counters. The private head of the receiver may run ahead of the shared one, never past the
      claims; the claims never exceed the shared head by more than a lap, nor `usize::MAX`. */
  ghost predicate Counters(s: State) {
    && 0 < s.cap == |s.ring.slots| <= USIZE_MAX
    && s.ring.head <= s.rx.head <= s.ring.claim <= Limit(s.ring.head, s.cap)
    && |s.hist.log| == s.ring.claim
    && !s.hist.fault
  }

  ghost predicate HeldBy(s: State, t: Tid, seqNo: nat) {
    t in s.prods && InFlight(s.prods[t].pc) && s.prods[t].pc.seqNo == seqNo
  }

  /** The slot of one sequence of the lap that starts at the private head. */
  ghost predicate SlotOK(s: State, seqNo: nat)
    requires Counters(s)
  {
    var slot := SlotAt(s, seqNo);
    if seqNo < s.ring.claim && slot.round == Tag(seqNo, s.cap) then
      slot.cell == Some(s.hist.log[seqNo].ticket)
    else
      && slot.round == StaleTag(seqNo, s.cap)
      && (if seqNo < s.ring.claim then HeldBy(s, s.hist.log[seqNo].who, seqNo) else slot.cell == None)
  }

  ghost predicate Window(s: State)
    requires Counters(s)
  {
    forall q :: s.rx.head <= q < s.rx.head + s.cap ==> SlotOK(s, q)
  }

  /** Where the payload of a running call is: in the ring once the call has won a sequence. */
  function FateOf(t: Tid, pc: ProdPC): Fate
    requires InOp(pc)
  {
    if InFlight(pc) then Accepted(pc.seqNo) else Held(t)
  }

  /** A running call uses a live handle and owns its payload, in its hands or in the ring. */
  ghost predicate CallOK(s: State, t: Tid, pc: ProdPC)
    requires InOp(pc)
  {
    pc.op.h in s.ends.handles && pc.op.start <= s.ring.head && pc.op.v < |s.hist.fate| && s.hist.fate[pc.op.v] == FateOf(t, pc)
  }

  /** The slot of a claimed, unpublished sequence belongs to the thread that claimed it. */
  ghost predicate FlightOK(s: State, t: Tid, op: Op, seqNo: nat, cell: Cell)
    requires Counters(s)
  {
    && s.rx.head <= seqNo < s.ring.claim
    && s.hist.log[seqNo] == Claim(op.v, t)
    && op.start + op.fails <= seqNo
    && SlotAt(s, seqNo) == Slot(StaleTag(seqNo, s.cap), cell)
  }

  ghost predicate LocalsOK(s: State, t: Tid, pc: ProdPC)
    requires Counters(s)
  {
    match pc
    case CheckRx(op) => op.fails == 0
    case LoadClaim(op) => op.fails == 0
    case LoadHead(op, q) => op.start + op.fails <= q <= s.ring.claim
    case Cas(op, q) =>
      op.start + op.fails <= q <= s.ring.claim && op.h in s.ends.handles && q < Limit(s.ends.handles[op.h], s.cap)
    case Write(op, q) => FlightOK(s, t, op, q, None)
    case Publish(op, q) => FlightOK(s, t, op, q, Some(op.v))
    case ReloadHead(op, seen) => seen <= s.ring.claim
    case _ => true
  }

  ghost predicate ThreadOK(s: State, t: Tid)
    requires Counters(s) && t in s.prods
  {
    && (InOp(s.prods[t].pc) ==> CallOK(s, t, s.prods[t].pc))
    && LocalsOK(s, t, s.prods[t].pc)
  }

  ghost predicate Threads(s: State)
    requires Counters(s)
  {
    forall t :: t in s.prods ==> ThreadOK(s, t)
  }

  ghost predicate Uses(s: State, t: Tid, h: Hid) {
    t in s.prods && InOp(s.prods[t].pc) && s.prods[t].pc.op.h == h
  }

  /** Each live handle counts once in `senders`, is used by one call at a time, and never caches a
      head that the ring has not reached. */
  ghost predicate Handles(s: State) {
    && s.ends.senders == |s.ends.handles|
    && (forall h :: h in s.ends.handles ==> s.ends.handles[h] <= s.ring.head)
    && (forall t, u, h :: Uses(s, t, h) && Uses(s, u, h) ==> t == u)
  }

  predicate Dropping(pc: ConsPC) {
    pc == Gone || pc == SwapWaiting(true) || pc == LockList(true) || (pc.UnparkAll? && pc.last)
  }

  ghost predicate ReceiverOK(s: State)
    requires Counters(s)
  {
    && (s.ends.rxDropped <==> Dropping(s.rx.pc))
    && (s.rx.closed ==> s.ends.handles == map[] && s.rx.head == s.ring.claim)
    && PositionOK(s, s.rx.pc)
  }

  /** How far the private head is ahead of the shared one, and what the receiver has observed. */
  ghost predicate PositionOK(s: State, pc: ConsPC)
    requires Counters(s)
  {
    match pc
    case Take => s.rx.head == s.ring.head && s.rx.head < s.ring.claim && Published(s, s.rx.head)
    case StoreHead => s.rx.head == s.ring.head + 1
    case ProbeAgain(_) => s.rx.head == s.ring.head && s.ends.handles == map[]
    case DrainLoad(c, m) => s.rx.head == s.ring.head + c && c < m
    case DrainTake(c, m) => s.rx.head == s.ring.head + c && c < m && s.rx.head < s.ring.claim && Published(s, s.rx.head)
    case Callback(c, m) => s.rx.head == s.ring.head + c && 0 < c <= m
    case DrainStore(c, u) => s.rx.head == s.ring.head + c && (u ==> c > 0)
    case _ => s.rx.head == s.ring.head
  }

  /** What was delivered is the log up to the private head. */
  ghost predicate Delivery(s: State)
    requires Counters(s)
  {
    && |s.hist.delivered| == s.rx.head
    && forall i :: 0 <= i < s.rx.head ==> s.hist.delivered[i] == s.hist.log[i].ticket
  }

  /** Thread `t` has payload `v` in its hands. */
  ghost predicate Holds(s: State, t: Tid, v: Ticket) {
    t in s.prods && InOp(s.prods[t].pc) && !InFlight(s.prods[t].pc) && s.prods[t].pc.op.v == v
  }

  ghost predicate FateOK(s: State, v: Ticket)
    requires v < |s.hist.fate|
  {
    match s.hist.fate[v]
    case Held(t) => Holds(s, t, v)
    case HandedBack(i) => i < |s.hist.returned| && s.hist.returned[i] == v
    case Accepted(q) => q < |s.hist.log| && s.hist.log[q].ticket == v
  }

  /** Every payload is in exactly one place, and each place is recorded as that payload's. */
  ghost predicate Fates(s: State) {
    && (forall v :: 0 <= v < |s.hist.fate| ==> FateOK(s, v))
    && (forall i :: 0 <= i < |s.hist.returned| ==> s.hist.returned[i] < |s.hist.fate| && s.hist.fate[s.hist.returned[i]] == HandedBack(i))
    && (forall q :: 0 <= q < |s.hist.log| ==> s.hist.log[q].ticket < |s.hist.fate| && s.hist.fate[s.hist.log[q].ticket] == Accepted(q))
  }

  /** Each thread's payloads are accepted in the order in which it offered them. */
  ghost predicate ThreadOrder(s: State) {
    && (forall i, j :: 0 <= i < j < |s.hist.log| && s.hist.log[i].who == s.hist.log[j].who ==> s.hist.log[i].ticket < s.hist.log[j].ticket)
    && (forall t, v, i :: Holds(s, t, v) && 0 <= i < |s.hist.log| && s.hist.log[i].who == t ==> s.hist.log[i].ticket < v)
  }

  ghost predicate Reaped(s: State)
    requires Counters(s)
  {
    s.hist.dropped.Some? ==>
      && AllDone(s)
      && |s.hist.dropped.value| == s.ring.claim - s.ring.head
      && forall k :: 0 <= k < s.ring.claim - s.ring.head ==> s.hist.dropped.value[k] == s.hist.log[s.ring.head + k].ticket
  }

  ghost predicate Inv(s: State) {
    && Counters(s) && Window(s) && Threads(s) && Handles(s) && ReceiverOK(s)
    && Delivery(s) && Fates(s) && ThreadOrder(s) && Reaped(s)
  }

  // ---------- first consequences ----------

  lemma InvIsWellShaped(s: State)
    requires Inv(s)
    ensures WellShaped(s)
  {
    forall t | t in s.prods && InOp(s.prods[t].pc) ensures s.prods[t].pc.op.h in s.ends.handles {
      assert ThreadOK(s, t);
    }
  }

  /** A sequence that looks published has been claimed, and holds the payload of its claim. */
  lemma PublishedMeansClaimed(s: State, q: nat)
    requires Counters(s) && Window(s)
    requires s.rx.head <= q < s.rx.head + s.cap && q <= USIZE_MAX && Published(s, q)
    ensures q < s.ring.claim && SlotAt(s, q).cell == Some(s.hist.log[q].ticket)
  {
    assert SlotOK(s, q);
    TagIsFresh(q, s.cap);
  }

  lemma InvInit(s: State)
    requires Init(s)
    ensures Inv(s)
  {
    forall q | 0 <= q < s.cap ensures SlotOK(s, q) {
      assert SlotOf(q, s.cap) == q;
      assert s.ring.slots[q] == Slot(-1, None);
    }
  }

  // ---------- frames: what each part of the invariant depends on ----------

  ghost predicate SameSlots(s: State, s': State) {
    s'.cap == s.cap && s'.ring.slots == s.ring.slots && s'.ring.claim == s.ring.claim && s'.hist.log == s.hist.log && s'.rx.head == s.rx.head
  }

  lemma WindowFrame(s: State, s': State)
    requires Counters(s) && Counters(s') && Window(s) && SameSlots(s, s')
    requires forall t, q :: HeldBy(s, t, q) ==> HeldBy(s', t, q)
    ensures Window(s')
  {
    forall q | s.rx.head <= q < s.rx.head + s.cap ensures SlotOK(s', q) {
      assert SlotOK(s, q);
    }
  }

  /** A thread that did not move is unaffected by anything that spares its slot, its handle and its
      payload. */
  lemma ThreadFrame(s: State, s': State, t: Tid)
    requires Counters(s) && Counters(s') && s'.cap == s.cap
    requires t in s.prods && t in s'.prods && s'.prods[t].pc == s.prods[t].pc && ThreadOK(s, t)
    requires s.ring.claim <= s'.ring.claim && s.hist.log <= s'.hist.log && s.ring.head <= s'.ring.head && |s.hist.fate| <= |s'.hist.fate|
    requires InOp(s.prods[t].pc) ==>
               var op := s.prods[t].pc.op;
               && op.h in s'.ends.handles && s'.ends.handles[op.h] == s.ends.handles[op.h] && s'.hist.fate[op.v] == s.hist.fate[op.v]
    requires InFlight(s.prods[t].pc) ==>
               var q := s.prods[t].pc.seqNo; s'.rx.head <= q && SlotAt(s', q) == SlotAt(s, q)
    ensures ThreadOK(s', t)
  {
  }

  lemma FatesFrame(s: State, s': State)
    requires Fates(s) && s'.hist.fate == s.hist.fate && s'.hist.returned == s.hist.returned && s'.hist.log == s.hist.log
    requires forall t, v :: Holds(s, t, v) ==> Holds(s', t, v)
    ensures Fates(s')
  {
    forall v | 0 <= v < |s'.hist.fate| ensures FateOK(s', v) {
      assert FateOK(s, v);
      if s.hist.fate[v].Held? { assert Holds(s, s.hist.fate[v].who, v); }
    }
  }

  lemma OrderFrame(s: State, s': State)
    requires ThreadOrder(s) && s'.hist.log == s.hist.log
    requires forall t, v :: Holds(s', t, v) ==> Holds(s, t, v)
    ensures ThreadOrder(s')
  {
  }

  lemma HandlesFrame(s: State, s': State)
    requires Handles(s) && s'.ends.handles == s.ends.handles && s'.ends.senders == s.ends.senders && s.ring.head <= s'.ring.head
    requires forall t, h :: Uses(s', t, h) ==> Uses(s, t, h)
    ensures Handles(s')
  {
  }

  lemma ReceiverFrame(s: State, s': State)
    requires Counters(s) && Counters(s') && ReceiverOK(s)
    requires s'.cap == s.cap && s'.ring.head == s.ring.head && s'.ends.rxDropped == s.ends.rxDropped && s.ring.claim <= s'.ring.claim
    requires s'.rx == s.rx.(token := s'.rx.token)
    requires SlotAt(s', s.rx.head) == SlotAt(s, s.rx.head)
             || (!Published(s, s.rx.head) && !s.rx.pc.Take? && !s.rx.pc.DrainTake?)
    requires s.ends.handles == map[] ==> s'.ends.handles == map[] && s'.ring.claim == s.ring.claim
    ensures ReceiverOK(s')
  {
  }

  lemma DeliveryFrame(s: State, s': State)
    requires Counters(s) && Counters(s') && Delivery(s)
    requires s'.hist.delivered == s.hist.delivered && s'.rx.head == s.rx.head && s.hist.log <= s'.hist.log
    ensures Delivery(s')
  {
  }

  /** Once Shared::drop has run, no thread is in a call. */
  lemma StillRunning(s: State, t: Tid)
    requires Counters(s) && Reaped(s) && t in s.prods && s.prods[t].pc != Idle
    ensures s.hist.dropped == None
  {
  }

  lemma NotReaped(s: State)
    requires Counters(s) && s.hist.dropped == None
    ensures Reaped(s)
  {
  }

  /** What a thread may rely on. */
  lemma CallFacts(s: State, t: Tid)
    requires Inv(s) && t in s.prods && s.prods[t].pc != Idle
    ensures WellShaped(s) && ThreadOK(s, t) && s.hist.dropped == None
    ensures InOp(s.prods[t].pc) ==> CallOK(s, t, s.prods[t].pc)
  {
    InvIsWellShaped(s);
    StillRunning(s, t);
  }

  // ---------- moves that change no ring data ----------

  ghost predicate SameRing(s: State, s': State) {
    && SameSlots(s, s') && s'.ring.head == s.ring.head && s'.ends.handles == s.ends.handles && s'.ends.senders == s.ends.senders
    && s'.hist.delivered == s.hist.delivered && s'.hist.fate == s.hist.fate && s'.hist.returned == s.hist.returned
    && s'.hist.dropped == s.hist.dropped && s'.hist.fault == s.hist.fault
  }

  /** The program counters agree on which call runs, on what payload, and what it has claimed. */
  predicate SameCall(pc: ProdPC, pc': ProdPC) {
    && (InOp(pc) <==> InOp(pc'))
    && (InFlight(pc) <==> InFlight(pc'))
    && (InOp(pc) ==> pc'.op.v == pc.op.v && pc'.op.h == pc.op.h)
    && (InFlight(pc) ==> pc'.seqNo == pc.seqNo)
  }

  ghost predicate SameCalls(s: State, s': State) {
    && (forall t, q :: HeldBy(s', t, q) <==> HeldBy(s, t, q))
    && (forall t, v :: Holds(s', t, v) <==> Holds(s, t, v))
    && (forall t, h :: Uses(s', t, h) <==> Uses(s, t, h))
  }

  lemma OneThreadSameCalls(s: State, s': State, t: Tid)
    requires t in s.prods && t in s'.prods && s'.prods == s.prods[t := s'.prods[t]]
    requires SameCall(s.prods[t].pc, s'.prods[t].pc)
    ensures SameCalls(s, s')
  {
  }

  lemma NoThreadSameCalls(s: State, s': State)
    requires s'.prods.Keys == s.prods.Keys && forall t :: t in s.prods ==> s'.prods[t].pc == s.prods[t].pc
    ensures SameCalls(s, s')
  {
  }

  lemma SameRingFrame(s: State, s': State)
    requires Inv(s) && SameRing(s, s') && SameCalls(s, s')
    ensures Counters(s') && Window(s') && Handles(s') && Delivery(s') && Fates(s') && ThreadOrder(s')
  {
    hide Window, Handles, Delivery, Fates, ThreadOrder;
    WindowFrame(s, s');
    FatesFrame(s, s');
    OrderFrame(s, s');
    HandlesFrame(s, s');
    DeliveryFrame(s, s');
  }

  lemma SameRingThreads(s: State, s': State)
    requires Counters(s) && Counters(s') && SameRing(s, s') && Threads(s)
    ensures forall u :: u in s.prods && u in s'.prods && s'.prods[u].pc == s.prods[u].pc ==> ThreadOK(s', u)
  {
    forall u | u in s.prods && u in s'.prods && s'.prods[u].pc == s.prods[u].pc ensures ThreadOK(s', u) {
      ThreadFrame(s, s', u);
    }
  }

  lemma ReapedFrame(s: State, s': State)
    requires Counters(s) && Counters(s') && SameRing(s, s') && Reaped(s)
    requires s.hist.dropped == None || AllDone(s')
    ensures Reaped(s')
  {
  }

  /** Only thread `t`'s own record and the wake protocol's variables change. */
  ghost predicate LocalMove(s: State, s': State, t: Tid) {
    && t in s'.prods
    && s' == s.(wait := s'.wait, prods := s.prods[t := s'.prods[t]], rx := s.rx.(token := s'.rx.token))
  }

  /** A move within one call of thread `t` that touches no ring data. */
  lemma KeepLocal(s: State, s': State, t: Tid)
    requires Inv(s) && t in s.prods && LocalMove(s, s', t)
    requires SameCall(s.prods[t].pc, s'.prods[t].pc)
    requires Counters(s') ==> ThreadOK(s', t)
    requires s.hist.dropped == None || s'.prods[t].pc == s.prods[t].pc
    ensures Inv(s')
  {
    assert SameRing(s, s');
    assert AllDone(s) && s'.prods[t].pc == s.prods[t].pc ==> AllDone(s');
    hide Window, Handles, Delivery, Fates, ThreadOrder, ReceiverOK, Reaped, ThreadOK;
    OneThreadSameCalls(s, s', t);
    SameRingFrame(s, s');
    SameRingThreads(s, s');
    ReceiverFrame(s, s');
    ReapedFrame(s, s');
  }

  /** A move of the receiver that moves nothing out and publishes no head. */
  lemma KeepRxLocal(s: State, s': State)
    requires Inv(s) && SameRing(s, s')
    requires s'.prods.Keys == s.prods.Keys && forall t :: t in s.prods ==> s'.prods[t].pc == s.prods[t].pc
    requires Counters(s') ==> ReceiverOK(s')
    requires s.hist.dropped == None || AllDone(s')
    ensures Inv(s')
  {
    hide Window, Handles, Delivery, Fates, ThreadOrder, ReceiverOK, Reaped, ThreadOK;
    NoThreadSameCalls(s, s');
    SameRingFrame(s, s');
    SameRingThreads(s, s');
    ReapedFrame(s, s');
  }

  // ---------- producer steps that touch no ring data ----------

  lemma KeepTry(s: State, t: Tid, quirk: bool)
    requires Inv(s) && ProdEnabled(s, t, quirk)
    requires (s.prods[t].pc.CheckRx? && !s.ends.rxDropped) || s.prods[t].pc.LoadClaim?
             || (s.prods[t].pc.Cas? && (s.ring.claim != s.prods[t].pc.seqNo || quirk))
    ensures WellShaped(s) && CallOK(s, t, s.prods[t].pc) && Inv(ProdStep(s, t, quirk))
  {
    hide Window, Threads, Handles, Delivery, Fates, ThreadOrder, ReceiverOK, Reaped;
    CallFacts(s, t);
    CacheBound(s, t);
    KeepLocal(s, ProdStep(s, t, quirk), t);
  }

  /** The handle's cached head never exceeds the shared one, so no compare-exchange can claim past
      the claim counter. */
  lemma CacheBound(s: State, t: Tid)
    requires Counters(s) && Handles(s) && t in s.prods && InOp(s.prods[t].pc) && s.prods[t].pc.op.h in s.ends.handles
    ensures s.ends.handles[s.prods[t].pc.op.h] <= s.ring.head
  {
  }

  lemma KeepWaitArm(s: State, t: Tid, quirk: bool)
    requires Inv(s) && ProdEnabled(s, t, quirk)
    requires var pc := s.prods[t].pc;
             pc.PushList? || pc.SetWaiting? || pc.ReloadClaim? || pc.ReloadHead? || pc.ReloadRx? || pc.Park?
    ensures WellShaped(s) && CallOK(s, t, s.prods[t].pc) && Inv(ProdStep(s, t, quirk))
  {
    hide Window, Threads, Handles, Delivery, Fates, ThreadOrder, ReceiverOK, Reaped;
    CallFacts(s, t);
    KeepLocal(s, ProdStep(s, t, quirk), t);
  }

  lemma KeepWakeFlag(s: State, t: Tid, quirk: bool)
    requires Inv(s) && ProdEnabled(s, t, quirk) && (s.prods[t].pc.WakeLoad? || s.prods[t].pc.WakeClear?)
    ensures WellShaped(s) && Inv(ProdStep(s, t, quirk))
  {
    hide Window, Threads, Handles, Delivery, Fates, ThreadOrder, ReceiverOK, Reaped;
    CallFacts(s, t);
    KeepLocal(s, ProdStep(s, t, quirk), t);
  }

  lemma KeepTake(s: State, t: Tid)
    requires Inv(s) && t in s.prods && s.prods[t].pc.WakeTake?
    ensures WellShaped(s) && Inv(StepTake(s, t))
  {
    hide Window, Threads, Handles, Delivery, Fates, ThreadOrder, ReceiverOK, Reaped;
    CallFacts(s, t);
    KeepLocal(s, StepTake(s, t), t);
  }

  lemma KeepUnpark(s: State, t: Tid, u: Tid)
    requires Inv(s) && t in s.prods && s.prods[t].pc == WakeUnpark(u)
    ensures WellShaped(s) && Inv(StepUnpark(s, t, u))
  {
    hide Window, Threads, Handles, Delivery, Fates, ThreadOrder, ReceiverOK, Reaped;
    CallFacts(s, t);
    KeepLocal(s, StepUnpark(s, t, u), t);
  }

  // ---------- a call that gives up ----------

  lemma GiveBackFates(s: State, t: Tid, op: Op)
    requires t in s.prods && Fates(s) && ThreadOrder(s) && Holds(s, t, op.v) && op.v < |s.hist.fate| && s.hist.fate[op.v] == Held(t)
    ensures Fates(GiveBack(s, t, op)) && ThreadOrder(GiveBack(s, t, op))
  {
    var s' := GiveBack(s, t, op);
    forall v | 0 <= v < |s'.hist.fate| ensures FateOK(s', v) {
      assert FateOK(s, v);
      if s.hist.fate[v].Held? && v != op.v {
        assert Holds(s, s.hist.fate[v].who, v);
        assert s.hist.fate[v].who != t;
      }
    }
    assert forall u, v :: Holds(s', u, v) ==> Holds(s, u, v);
  }

  lemma GiveBackThreads(s: State, t: Tid, op: Op)
    requires t in s.prods && op.v < |s.hist.fate| && s.hist.fate[op.v] == Held(t)
    requires Counters(s) && Counters(GiveBack(s, t, op)) && Threads(s)
    ensures Threads(GiveBack(s, t, op))
  {
    var s' := GiveBack(s, t, op);
    forall u | u in s'.prods ensures ThreadOK(s', u) {
      if u != t { ThreadFrame(s, s', u); }
    }
  }

  lemma KeepGiveBack(s: State, t: Tid)
    requires Inv(s) && t in s.prods && InOp(s.prods[t].pc) && !InFlight(s.prods[t].pc)
    ensures CallOK(s, t, s.prods[t].pc) && Inv(GiveBack(s, t, s.prods[t].pc.op))
  {
    hide Window, Threads, Handles, Delivery, Fates, ThreadOrder, ReceiverOK, Reaped, LocalsOK;
    CallFacts(s, t);
    var op := s.prods[t].pc.op;
    var s' := GiveBack(s, t, op);
    assert Holds(s, t, op.v);
    WindowFrame(s, s');
    GiveBackFates(s, t, op);
    GiveBackThreads(s, t, op);
    HandlesFrame(s, s');
    DeliveryFrame(s, s');
    ReceiverFrame(s, s');
    NotReaped(s');
  }

  // ---------- refreshing the cached head ----------

  lemma RefreshThreads(s: State, s': State, t: Tid, now: nat)
    requires t in s.prods && s.prods[t].pc.LoadHead?
    requires s' == s.(ends := s.ends.(handles := s.ends.handles[s.prods[t].pc.op.h := now]))
    requires Counters(s) && Counters(s') && Threads(s) && Handles(s)
    ensures Threads(s')
  {
    forall u | u in s'.prods ensures ThreadOK(s', u) {
      if u != t {
        if InOp(s.prods[u].pc) {
          assert Uses(s, t, s.prods[t].pc.op.h);
          assert Uses(s, u, s.prods[u].pc.op.h);
        }
        ThreadFrame(s, s', u);
      }
    }
  }

  lemma RefreshHandles(s: State, s': State, h: Hid, now: nat)
    requires h in s.ends.handles && s' == s.(ends := s.ends.(handles := s.ends.handles[h := now])) && Handles(s) && now <= s.ring.head
    ensures Handles(s')
  {
    assert s'.ends.handles.Keys == s.ends.handles.Keys;
    assert |s'.ends.handles.Keys| == |s'.ends.handles| && |s.ends.handles.Keys| == |s.ends.handles|;
    forall t, u, k | Uses(s', t, k) && Uses(s', u, k) ensures t == u {
      assert Uses(s, t, k) && Uses(s, u, k);
    }
  }

  /** Any value that the head has had will do as the cached one. */
  lemma RefreshCache(s: State, t: Tid, now: nat) returns (s': State)
    requires Inv(s) && t in s.prods && s.prods[t].pc.LoadHead? && now <= s.ring.head
    ensures s.prods[t].pc.op.h in s.ends.handles
    ensures s' == s.(ends := s.ends.(handles := s.ends.handles[s.prods[t].pc.op.h := now])) && Inv(s')
  {
    hide Window, Threads, Handles, Delivery, Fates, ThreadOrder, ReceiverOK, Reaped, LocalsOK;
    CallFacts(s, t);
    var h := s.prods[t].pc.op.h;
    s' := s.(ends := s.ends.(handles := s.ends.handles[h := now]));
    WindowFrame(s, s');
    RefreshThreads(s, s', t, now);
    RefreshHandles(s, s', h, now);
    DeliveryFrame(s, s');
    ReceiverFrame(s, s');
    FatesFrame(s, s');
    OrderFrame(s, s');
    NotReaped(s');
  }

  lemma KeepLoadHead(s: State, t: Tid, op: Op, q: nat)
    requires Inv(s) && t in s.prods && s.prods[t].pc == LoadHead(op, q)
    ensures CallOK(s, t, s.prods[t].pc) && Inv(StepLoadHead(s, t, op, q))
  {
    hide Window, Threads, Handles, Delivery, Fates, ThreadOrder, ReceiverOK, Reaped;
    CallFacts(s, t);
    var s1 := RefreshCache(s, t, s.ring.head);
    CallFacts(s1, t);
    if q < Limit(s.ring.head, s.cap) {
      KeepLocal(s1, SetPC(s1, t, Cas(op, q)), t);
    } else {
      KeepOnFull(s1, t, op, q);
    }
  }

  lemma KeepOnFull(s: State, t: Tid, op: Op, q: nat)
    requires Inv(s) && t in s.prods && s.prods[t].pc == LoadHead(op, q)
    ensures CallOK(s, t, s.prods[t].pc) && Inv(OnFull(s, t, op))
  {
    hide Window, Threads, Handles, Delivery, Fates, ThreadOrder, ReceiverOK, Reaped;
    CallFacts(s, t);
    if !op.blocking {
      KeepGiveBack(s, t);
    } else {
      KeepLocal(s, OnFull(s, t, op), t);
    }
  }

  // ---------- winning a claim ----------

  lemma ClaimWindow(s: State, s': State, t: Tid, op: Op)
    requires Counters(s) && Counters(s') && Window(s)
    requires t in s.prods && s.prods[t].pc == Cas(op, s.ring.claim) && op.h in s.ends.handles && op.v < |s.hist.fate|
    requires s' == StepCas(s, t, op, s.ring.claim, false)
    ensures Window(s')
    ensures SlotAt(s', s.ring.claim) == Slot(StaleTag(s.ring.claim, s.cap), None)
  {
    var q := s.ring.claim;
    forall p | s.rx.head <= p < s.rx.head + s.cap ensures SlotOK(s', p) {
      assert SlotOK(s, p);
      if p == q {
        TagIsFresh(q, s.cap);
        assert HeldBy(s', t, q);
      } else if p < s.ring.claim {
        assert HeldBy(s, s.hist.log[p].who, p) ==> HeldBy(s', s.hist.log[p].who, p);
      }
    }
    assert SlotOK(s, q);
  }

  lemma ClaimThreads(s: State, s': State, t: Tid, op: Op)
    requires Counters(s) && Counters(s') && Threads(s)
    requires t in s.prods && s.prods[t].pc == Cas(op, s.ring.claim) && op.h in s.ends.handles && op.v < |s.hist.fate|
    requires s' == StepCas(s, t, op, s.ring.claim, false)
    requires SlotAt(s', s.ring.claim) == Slot(StaleTag(s.ring.claim, s.cap), None)
    ensures Threads(s')
  {
    assert ThreadOK(s, t);
    forall u | u in s'.prods ensures ThreadOK(s', u) {
      if u != t {
        if InOp(s.prods[u].pc) { OtherPayload(s, t, u); }
        ThreadFrame(s, s', u);
      }
    }
  }

  /** Two calls never own the same payload, unless both have put it into the ring. */
  lemma OtherPayload(s: State, t: Tid, u: Tid)
    requires Counters(s) && Threads(s) && t in s.prods && u in s.prods && t != u
    requires InOp(s.prods[t].pc) && !InFlight(s.prods[t].pc) && InOp(s.prods[u].pc)
    ensures s.prods[t].pc.op.v != s.prods[u].pc.op.v
  {
    assert ThreadOK(s, t) && ThreadOK(s, u);
  }

  lemma ClaimFates(s: State, s': State, t: Tid, op: Op)
    requires t in s.prods && s.prods[t].pc == Cas(op, s.ring.claim) && s.ring.claim == |s.hist.log|
    requires op.h in s.ends.handles && op.v < |s.hist.fate| && s.hist.fate[op.v] == Held(t)
    requires Fates(s) && ThreadOrder(s)
    requires s' == StepCas(s, t, op, s.ring.claim, false)
    ensures Fates(s') && ThreadOrder(s')
  {
    assert Holds(s, t, op.v);
    forall v | 0 <= v < |s'.hist.fate| ensures FateOK(s', v) {
      assert FateOK(s, v);
      if s.hist.fate[v].Held? && v != op.v { assert Holds(s, s.hist.fate[v].who, v); }
    }
    assert forall u, v :: Holds(s', u, v) ==> Holds(s, u, v) && u != t;
  }

  lemma ClaimUses(s: State, s': State, t: Tid, op: Op)
    requires t in s.prods && s.prods[t].pc == Cas(op, s.ring.claim) && op.h in s.ends.handles && op.v < |s.hist.fate|
    requires s' == StepCas(s, t, op, s.ring.claim, false) && Handles(s)
    ensures Handles(s')
  {
    assert forall u, h :: Uses(s', u, h) ==> Uses(s, u, h);
  }

  lemma KeepClaim(s: State, t: Tid, op: Op)
    requires Inv(s) && t in s.prods && s.prods[t].pc == Cas(op, s.ring.claim)
    ensures CallOK(s, t, s.prods[t].pc) && Inv(StepCas(s, t, op, s.ring.claim, false))
  {
    hide Window, Threads, Handles, Delivery, Fates, ThreadOrder, ReceiverOK, Reaped;
    CallFacts(s, t);
    CacheBound(s, t);
    var s' := StepCas(s, t, op, s.ring.claim, false);
    ClaimWindow(s, s', t, op);
    ClaimThreads(s, s', t, op);
    ClaimFates(s, s', t, op);
    ClaimUses(s, s', t, op);
    DeliveryFrame(s, s');
    ReceiverFrame(s, s');
    NotReaped(s');
  }

  // ---------- writing and publishing ----------

  /** A producer in flight changes its own slot only. */
  ghost predicate OwnSlotOnly(s: State, s': State, t: Tid, q: nat) {
    && 0 < s.cap == |s.ring.slots| == |s'.ring.slots|
    && t in s.prods && InFlight(s.prods[t].pc) && s.prods[t].pc.seqNo == q
    && t in s'.prods && s'.prods == s.prods[t := s'.prods[t]]
    && s' == s.(ring := s.ring.(slots := s.ring.slots[SlotOf(q, s.cap) := s'.ring.slots[SlotOf(q, s.cap)]]), prods := s'.prods)
  }

  lemma OwnSlotWindow(s: State, s': State, t: Tid, q: nat)
    requires Counters(s) && Counters(s') && Window(s) && OwnSlotOnly(s, s', t, q) && s.rx.head <= q < s.ring.claim
    requires SlotOK(s', q)
    ensures Window(s')
  {
    OtherSlots(q, s.rx.head, s.cap);
    forall p | s.rx.head <= p < s.rx.head + s.cap ensures SlotOK(s', p) {
      assert SlotOK(s, p);
      if p != q && p < s.ring.claim {
        assert HeldBy(s, s.hist.log[p].who, p) ==> HeldBy(s', s.hist.log[p].who, p);
      }
    }
  }

  lemma OwnSlotThreads(s: State, s': State, t: Tid, q: nat)
    requires Counters(s) && Counters(s') && Threads(s) && OwnSlotOnly(s, s', t, q)
    ensures forall u :: u in s.prods && u != t ==> ThreadOK(s', u)
  {
    assert ThreadOK(s, t);
    OtherSlots(q, s.rx.head, s.cap);
    forall u | u in s.prods && u != t ensures ThreadOK(s', u) {
      assert ThreadOK(s, u);
      if InFlight(s.prods[u].pc) {
        assert s.prods[u].pc.seqNo != q;
      }
      ThreadFrame(s, s', u);
    }
  }

  /** The receiver looks only at slots that are already published. */
  lemma OwnSlotReceiver(s: State, s': State, t: Tid, q: nat)
    requires Counters(s) && Counters(s') && ReceiverOK(s) && OwnSlotOnly(s, s', t, q) && s.rx.head <= q < s.ring.claim
    requires SlotAt(s, q).round == StaleTag(q, s.cap)
    ensures ReceiverOK(s')
  {
    OtherSlots(q, s.rx.head, s.cap);
    TagIsFresh(q, s.cap);
    if s.rx.head != q {
      assert SlotOf(s.rx.head, s.cap) != SlotOf(q, s.cap);
    }
    ReceiverFrame(s, s');
  }

  lemma OwnSlotRest(s: State, s': State, t: Tid, q: nat)
    requires Inv(s) && Counters(s') && OwnSlotOnly(s, s', t, q)
    requires SlotOK(s', q) && ThreadOK(s', t)
    requires SameCalls(s, s') || (SameCallsBut(s, s', t) && !InOp(s'.prods[t].pc))
    ensures Inv(s')
  {
    hide Window, Handles, Delivery, Fates, ThreadOrder, ReceiverOK, Reaped, LocalsOK, SlotOK;
    CallFacts(s, t);
    FlightFacts(s, t);
    OwnSlotWindow(s, s', t, q);
    OwnSlotThreads(s, s', t, q);
    OwnSlotReceiver(s, s', t, q);
    FatesFrame(s, s');
    OrderFrame(s, s');
    HandlesFrame(s, s');
    DeliveryFrame(s, s');
    NotReaped(s');
  }

  lemma FlightFacts(s: State, t: Tid)
    requires Counters(s) && t in s.prods && ThreadOK(s, t) && InFlight(s.prods[t].pc)
    ensures var q := s.prods[t].pc.seqNo;
            && s.rx.head <= q < s.ring.claim
            && s.hist.log[q] == Claim(s.prods[t].pc.op.v, t)
            && SlotAt(s, q).round == StaleTag(q, s.cap)
            && SlotAt(s, q).cell == if s.prods[t].pc.Write? then None else Some(s.prods[t].pc.op.v)
  {
  }

  /** As SameCalls, except that thread `t` was in flight and no longer is. */
  ghost predicate SameCallsBut(s: State, s': State, t: Tid) {
    && (forall u, v :: Holds(s', u, v) <==> Holds(s, u, v))
    && (forall u, h :: Uses(s', u, h) ==> Uses(s, u, h))
  }

  lemma KeepWrite(s: State, t: Tid, op: Op, q: nat)
    requires Inv(s) && t in s.prods && s.prods[t].pc == Write(op, q)
    ensures CallOK(s, t, s.prods[t].pc) && Inv(StepWrite(s, t, op, q))
  {
    hide Window, Threads, Handles, Delivery, Fates, ThreadOrder, ReceiverOK, Reaped;
    CallFacts(s, t);
    var s' := StepWrite(s, t, op, q);
    TagIsFresh(q, s.cap);
    OneThreadSameCalls(s, s', t);
    assert HeldBy(s', t, q);
    OwnSlotRest(s, s', t, q);
  }

  lemma PublishCalls(s: State, s': State, t: Tid)
    requires t in s.prods && t in s'.prods && s'.prods == s.prods[t := s'.prods[t]]
    requires InFlight(s.prods[t].pc) && !InOp(s'.prods[t].pc)
    ensures SameCallsBut(s, s', t)
  {
  }

  lemma KeepPublish(s: State, t: Tid, op: Op, q: nat)
    requires Inv(s) && t in s.prods && s.prods[t].pc == Publish(op, q)
    ensures CallOK(s, t, s.prods[t].pc) && Inv(StepPublish(s, t, q))
  {
    hide Window, Threads, Handles, Delivery, Fates, ThreadOrder, ReceiverOK, Reaped;
    CallFacts(s, t);
    var s' := StepPublish(s, t, q);
    TagIsFresh(q, s.cap);
    PublishCalls(s, s', t);
    OwnSlotRest(s, s', t, q);
  }

  /** Every access of every producer keeps the invariant. */
  lemma KeepProd(s: State, t: Tid, quirk: bool)
    requires Inv(s) && ProdEnabled(s, t, quirk)
    ensures Enabled(s, StepProd(t, quirk)) && Inv(ProdStep(s, t, quirk))
  {
    CallFacts(s, t);
    hide Inv;
    match s.prods[t].pc
    case CheckRx(op) => if s.ends.rxDropped { KeepGiveBack(s, t); } else { KeepTry(s, t, quirk); }
    case LoadHead(op, q) => KeepLoadHead(s, t, op, q);
    case Cas(op, q) => if s.ring.claim == q && !quirk { KeepClaim(s, t, op); } else { KeepTry(s, t, quirk); }
    case Write(op, q) => KeepWrite(s, t, op, q);
    case Publish(op, q) => KeepPublish(s, t, op, q);
    case WakeTake => KeepTake(s, t);
    case WakeUnpark(u) => KeepUnpark(s, t, u);
    case LoadClaim(_) => KeepTry(s, t, quirk);
    case WakeLoad => KeepWakeFlag(s, t, quirk);
    case WakeClear => KeepWakeFlag(s, t, quirk);
    case _ => KeepWaitArm(s, t, quirk);
  }

  // ---------- consumer steps that touch no ring data ----------

  /** The receiver's program counter, its flags and the wake protocol may change; no producer moves. */
  ghost predicate RxMove(s: State, s': State) {
    && s'.rx.head == s.rx.head
    && s'.prods.Keys == s.prods.Keys && (forall t :: t in s.prods ==> s'.prods[t].pc == s.prods[t].pc)
    && s' == s.(wait := s'.wait, ends := s.ends.(rxDropped := s'.ends.rxDropped), prods := s'.prods, rx := s'.rx)
  }

  lemma KeepRx(s: State, s': State)
    requires Inv(s) && RxMove(s, s') && s.rx.pc != Gone
    requires Counters(s') ==> ReceiverOK(s')
    ensures Inv(s')
  {
    hide Window, Handles, Delivery, Fates, ThreadOrder, ReceiverOK, Threads;
    assert SameRing(s, s');
    KeepRxLocal(s, s');
  }

  lemma KeepSetRx(s: State, pc: ConsPC)
    requires Inv(s) && s.rx.pc != Gone && PositionOK(s, pc) && (Dropping(pc) <==> Dropping(s.rx.pc))
    ensures Inv(SetRx(s, pc))
  {
    hide Window, Threads, Handles, Delivery, Fates, ThreadOrder, Reaped;
    KeepRx(s, SetRx(s, pc));
  }

  /** The slot of the private head is published only if it has been claimed. */
  lemma HeadPublished(s: State)
    requires Inv(s)
    ensures Published(s, s.rx.head) ==> s.rx.head < s.ring.claim && SlotAt(s, s.rx.head).cell == Some(s.hist.log[s.rx.head].ticket)
  {
    if Published(s, s.rx.head) { PublishedMeansClaimed(s, s.rx.head); }
  }

  /** Without live handles nothing is in flight: what is claimed is published. */
  lemma NoHandlesNoCalls(s: State)
    requires Inv(s) && s.ends.handles == map[]
    ensures forall t :: t in s.prods ==> !InOp(s.prods[t].pc)
    ensures forall q :: s.rx.head <= q < s.ring.claim ==> SlotOK(s, q) && Published(s, q)
  {
    forall t | t in s.prods ensures !InOp(s.prods[t].pc) {
      assert ThreadOK(s, t);
    }
    forall q | s.rx.head <= q < s.ring.claim ensures SlotOK(s, q) && Published(s, q) {
      assert SlotOK(s, q);
    }
  }

  lemma NoSendersNoHandles(s: State)
    requires Handles(s) && s.ends.senders == 0
    ensures s.ends.handles == map[]
  {
    assert |s.ends.handles| == |s.ends.handles.Keys|;
  }

  lemma KeepProbes(s: State, quirk: bool)
    requires Inv(s) && (s.rx.pc.Probe? || s.rx.pc.ProbeSenders? || s.rx.pc.Spin? || s.rx.pc.DrainLoad? || s.rx.pc.Callback?)
    ensures WellShaped(s) && Inv(ConsStep(s, quirk))
  {
    hide Window, Threads, Handles, Delivery, Fates, ThreadOrder, Reaped;
    InvIsWellShaped(s);
    HeadPublished(s);
    if s.ends.senders == 0 { NoSendersNoHandles(s); }
    KeepSetRx(s, ConsStep(s, quirk).rx.pc);
  }

  lemma KeepProbeAgain(s: State)
    requires Inv(s) && s.rx.pc.ProbeAgain?
    ensures WellShaped(s) && Inv(StepProbeAgain(s))
  {
    hide Window, Threads, Handles, Delivery, Fates, ThreadOrder, Reaped;
    InvIsWellShaped(s);
    HeadPublished(s);
    NoHandlesNoCalls(s);
    KeepRx(s, StepProbeAgain(s));
  }

  lemma KeepPark(s: State, quirk: bool)
    requires Inv(s)
    requires s.rx.pc.PrepSlot? || s.rx.pc.PrepFlag? || s.rx.pc.RecheckRound? || s.rx.pc.RecheckSenders?
             || s.rx.pc.Cancel? || s.rx.pc.Parked? || s.rx.pc.ClearFlag?
    requires ConsEnabled(s, quirk)
    ensures WellShaped(s) && Inv(ConsStep(s, quirk))
  {
    hide Window, Threads, Handles, Delivery, Fates, ThreadOrder, Reaped;
    InvIsWellShaped(s);
    KeepRx(s, ConsStep(s, quirk));
  }

  lemma KeepWakeAll(s: State, quirk: bool)
    requires Inv(s)
    requires s.rx.pc.SetRxDropped? || s.rx.pc.SwapWaiting? || s.rx.pc.LockList?
    ensures WellShaped(s) && Inv(ConsStep(s, quirk))
  {
    hide Window, Threads, Handles, Delivery, Fates, ThreadOrder, Reaped;
    InvIsWellShaped(s);
    KeepRx(s, ConsStep(s, quirk));
  }

  lemma KeepUnparkAll(s: State, rest: seq<Tid>, last: bool)
    requires Inv(s) && s.rx.pc == UnparkAll(rest, last)
    ensures WellShaped(s) && Inv(StepUnparkAll(s, rest, last))
  {
    hide Window, Threads, Handles, Delivery, Fates, ThreadOrder, Reaped;
    InvIsWellShaped(s);
    if rest == [] {
      KeepSetRx(s, AfterWake(last));
    } else {
      KeepRx(s, StepUnparkAll(s, rest, last));
    }
  }

  // ---------- moving a payload out ----------

  /** The lap of the private head moves on by one: the slot just emptied becomes the last of the
      lap, and the round it carries is what its next occupant waits on. */
  lemma MoveOutWindow(s: State, s': State, pc: ConsPC)
    requires Counters(s) && Counters(s') && Window(s) && s.rx.head < s.ring.claim && Published(s, s.rx.head)
    requires s' == MoveOut(s, pc) && s'.rx.head == s.rx.head + 1
    ensures Window(s')
  {
    var q := s.rx.head;
    OtherSlots(q, q, s.cap);
    forall p | s'.rx.head <= p < s'.rx.head + s.cap ensures SlotOK(s', p) {
      if p < q + s.cap {
        assert SlotOK(s, p);
        if p < s.ring.claim {
          assert HeldBy(s, s.hist.log[p].who, p) ==> HeldBy(s', s.hist.log[p].who, p);
        }
      } else {
        assert SlotOK(s, q);
        NextLap(q, s.cap);
        if s.cap == 1 { assert s.ring.claim == q + 1; }
      }
    }
  }

  lemma MoveOutThread(s: State, s': State, u: Tid)
    requires Counters(s) && Counters(s') && s.rx.head < s.ring.claim && Published(s, s.rx.head)
    requires s' == s.(ring := s.ring.(slots := s'.ring.slots), rx := s'.rx, hist := s.hist.(delivered := s'.hist.delivered))
    requires s'.rx.head == s.rx.head + 1
    requires forall i :: 0 <= i < s.cap && i != SlotOf(s.rx.head, s.cap) ==> s'.ring.slots[i] == s.ring.slots[i]
    requires u in s.prods && ThreadOK(s, u)
    ensures ThreadOK(s', u)
  {
    var h := s.rx.head;
    if InFlight(s.prods[u].pc) {
      FlightFacts(s, u);
      TagIsFresh(h, s.cap);
      OtherSlots(h, h, s.cap);
    }
    hide ThreadOK;
    ThreadFrame(s, s', u);
  }

  lemma MoveOutThreads(s: State, s': State, pc: ConsPC)
    requires Counters(s) && Counters(s') && Threads(s) && s.rx.head < s.ring.claim && Published(s, s.rx.head)
    requires s' == MoveOut(s, pc) && s'.rx.head == s.rx.head + 1
    ensures Threads(s')
  {
    hide ThreadOK;
    assert s' == s.(ring := s.ring.(slots := s'.ring.slots), rx := s'.rx, hist := s.hist.(delivered := s'.hist.delivered));
    forall u | u in s'.prods ensures ThreadOK(s', u) {
      MoveOutThread(s, s', u);
    }
  }

  lemma MoveOutDelivery(s: State, s': State, pc: ConsPC)
    requires Counters(s) && Counters(s') && Delivery(s) && s.rx.head < s.ring.claim
    requires SlotAt(s, s.rx.head).cell == Some(s.hist.log[s.rx.head].ticket)
    requires s' == MoveOut(s, pc)
    ensures Delivery(s')
  {
  }

  lemma KeepMoveOut(s: State, pc: ConsPC)
    requires Inv(s)
    requires (s.rx.pc == Take && pc == StoreHead)
             || (s.rx.pc.DrainTake? && pc == Callback(s.rx.pc.count + 1, s.rx.pc.max))
    ensures Inv(MoveOut(s, pc))
  {
    hide Window, Threads, Handles, Delivery, Fates, ThreadOrder, Reaped;
    HeadPublished(s);
    var s' := MoveOut(s, pc);
    MoveOutWindow(s, s', pc);
    MoveOutThreads(s, s', pc);
    MoveOutDelivery(s, s', pc);
    FatesFrame(s, s');
    OrderFrame(s, s');
    HandlesFrame(s, s');
    RunningReceiver(s);
    NotReaped(s');
  }

  lemma RunningReceiver(s: State)
    requires Counters(s) && Reaped(s) && s.rx.pc != Gone
    ensures s.hist.dropped == None
  {
  }

  // ---------- publishing the head ----------

  lemma HeadThreads(s: State, s': State)
    requires Counters(s) && Counters(s') && Threads(s)
    requires s' == s.(ring := s.ring.(head := s.rx.head), rx := s'.rx) && s'.rx.head == s.rx.head
    ensures Threads(s')
  {
    forall u | u in s'.prods ensures ThreadOK(s', u) {
      assert ThreadOK(s, u);
      ThreadFrame(s, s', u);
    }
  }

  lemma KeepHead(s: State, s': State)
    requires Inv(s) && s.rx.pc != Gone
    requires s' == s.(ring := s.ring.(head := s.rx.head), rx := s'.rx) && s'.rx.head == s.rx.head
    requires Counters(s') ==> ReceiverOK(s')
    ensures Inv(s')
  {
    hide Window, Threads, Handles, Delivery, Fates, ThreadOrder, ReceiverOK, Reaped;
    WindowFrame(s, s');
    HeadThreads(s, s');
    DeliveryFrame(s, s');
    FatesFrame(s, s');
    OrderFrame(s, s');
    HandlesFrame(s, s');
    RunningReceiver(s);
    NotReaped(s');
  }

  lemma KeepStoreHead(s: State)
    requires Inv(s) && s.rx.pc.StoreHead?
    ensures Inv(StepStoreHead(s))
  {
    hide Window, Threads, Handles, Delivery, Fates, ThreadOrder, Reaped;
    KeepHead(s, StepStoreHead(s));
  }

  lemma KeepDrainStore(s: State, count: nat, unwinding: bool)
    requires Inv(s) && s.rx.pc == DrainStore(count, unwinding)
    ensures Inv(StepDrainStore(s, count, unwinding))
  {
    hide Window, Threads, Handles, Delivery, Fates, ThreadOrder, Reaped;
    if count == 0 {
      KeepSetRx(s, Resting);
    } else {
      KeepHead(s, StepDrainStore(s, count, unwinding));
    }
  }

  lemma KeepReceive(s: State, quirk: bool)
    requires Inv(s) && ConsEnabled(s, quirk) && WellShaped(s)
    requires var pc := s.rx.pc; pc.Probe? || pc.ProbeSenders? || pc.ProbeAgain? || pc.Take? || pc.StoreHead? || pc.Spin?
    ensures Inv(ConsStep(s, quirk))
  {
    hide Inv;
    match s.rx.pc
    case ProbeAgain(b) => KeepProbeAgain(s);
    case Take => KeepMoveOut(s, StoreHead);
    case StoreHead => KeepStoreHead(s);
    case _ => KeepProbes(s, quirk);
  }

  lemma KeepDrain(s: State, quirk: bool)
    requires Inv(s) && ConsEnabled(s, quirk) && WellShaped(s)
    requires var pc := s.rx.pc; pc.DrainLoad? || pc.DrainTake? || pc.Callback? || pc.DrainStore?
    ensures Inv(ConsStep(s, quirk))
  {
    hide Inv;
    match s.rx.pc
    case DrainTake(c, m) => KeepMoveOut(s, Callback(c + 1, m));
    case DrainStore(c, u) => KeepDrainStore(s, c, u);
    case _ => KeepProbes(s, quirk);
  }

  lemma KeepRelease(s: State, quirk: bool)
    requires Inv(s) && ConsEnabled(s, quirk) && WellShaped(s)
    requires var pc := s.rx.pc; pc.SetRxDropped? || pc.SwapWaiting? || pc.LockList? || pc.UnparkAll?
    ensures Inv(ConsStep(s, quirk))
  {
    hide Inv;
    match s.rx.pc
    case UnparkAll(rest, last) => KeepUnparkAll(s, rest, last);
    case _ => KeepWakeAll(s, quirk);
  }

  /** Every access of the receiver keeps the invariant. */
  lemma KeepCons(s: State, quirk: bool)
    requires Inv(s) && ConsEnabled(s, quirk)
    ensures WellShaped(s) && Inv(ConsStep(s, quirk))
  {
    InvIsWellShaped(s);
    hide Inv, ConsStep;
    var pc := s.rx.pc;
    if pc.Probe? || pc.ProbeSenders? || pc.ProbeAgain? || pc.Take? || pc.StoreHead? || pc.Spin? {
      KeepReceive(s, quirk);
    } else if pc.DrainLoad? || pc.DrainTake? || pc.Callback? || pc.DrainStore? {
      KeepDrain(s, quirk);
    } else if pc.SetRxDropped? || pc.SwapWaiting? || pc.LockList? || pc.UnparkAll? {
      KeepRelease(s, quirk);
    } else {
      KeepPark(s, quirk);
    }
  }

  // ---------- the remaining moves ----------

  lemma StartThreads(s: State, s': State, t: Tid, h: Hid, b: bool)
    requires Counters(s) && Counters(s') && Threads(s)
    requires t in s.prods && s.prods[t].pc == Idle && h in s.ends.handles
    requires s' == SetPC(s.(hist := s.hist.(fate := s.hist.fate + [Held(t)])), t, CheckRx(Op(h, |s.hist.fate|, b, s.ring.head, 0)))
    ensures Threads(s')
  {
    forall u | u in s'.prods ensures ThreadOK(s', u) {
      assert ThreadOK(s, u);
      if u != t { ThreadFrame(s, s', u); }
    }
  }

  lemma StartFates(s: State, s': State, t: Tid, h: Hid, b: bool)
    requires Fates(s) && ThreadOrder(s) && t in s.prods && s.prods[t].pc == Idle
    requires s' == SetPC(s.(hist := s.hist.(fate := s.hist.fate + [Held(t)])), t, CheckRx(Op(h, |s.hist.fate|, b, s.ring.head, 0)))
    ensures Fates(s') && ThreadOrder(s')
  {
    assert Holds(s', t, |s.hist.fate|);
    forall v | 0 <= v < |s'.hist.fate| ensures FateOK(s', v) {
      if v < |s.hist.fate| {
        assert FateOK(s, v);
        if s.hist.fate[v].Held? { assert Holds(s, s.hist.fate[v].who, v); }
      }
    }
    assert forall u, v :: Holds(s', u, v) ==> Holds(s, u, v) || (u == t && v == |s.hist.fate|);
  }

  lemma StartHandles(s: State, s': State, t: Tid, h: Hid, b: bool)
    requires Handles(s) && t in s.prods && HandleFree(s, h)
    requires s' == SetPC(s.(hist := s.hist.(fate := s.hist.fate + [Held(t)])), t, CheckRx(Op(h, |s.hist.fate|, b, s.ring.head, 0)))
    ensures Handles(s')
  {
    forall u, w, k | Uses(s', u, k) && Uses(s', w, k) ensures u == w {
      assert u != t ==> Uses(s, u, k);
      assert w != t ==> Uses(s, w, k);
    }
  }

  lemma KeepStart(s: State, t: Tid, h: Hid, b: bool)
    requires Inv(s) && Enabled(s, StartSend(t, h, b))
    ensures Inv(Apply(s, StartSend(t, h, b)))
  {
    hide Window, Threads, Handles, Delivery, Fates, ThreadOrder, ReceiverOK;
    var s' := Apply(s, StartSend(t, h, b));
    WindowFrame(s, s');
    StartThreads(s, s', t, h, b);
    StartFates(s, s', t, h, b);
    StartHandles(s, s', t, h, b);
    DeliveryFrame(s, s');
    ReceiverFrame(s, s');
  }

  lemma CloneHandles(s: State, s': State, h: Hid, h': Hid)
    requires Handles(s) && h' !in s.ends.handles
    requires s' == s.(ends := s.ends.(handles := s.ends.handles[h' := 0], senders := s.ends.senders + 1))
    ensures Handles(s')
  {
    assert s'.ends.handles.Keys == s.ends.handles.Keys + {h'};
    assert |s'.ends.handles| == |s'.ends.handles.Keys| && |s.ends.handles| == |s.ends.handles.Keys|;
    assert forall t, k :: Uses(s', t, k) ==> Uses(s, t, k);
  }

  lemma CloneThreads(s: State, s': State, h': Hid)
    requires Counters(s) && Counters(s') && Threads(s) && h' !in s.ends.handles
    requires s' == s.(ends := s.ends.(handles := s.ends.handles[h' := 0], senders := s.ends.senders + 1))
    ensures Threads(s')
  {
    forall u | u in s'.prods ensures ThreadOK(s', u) {
      assert ThreadOK(s, u);
      ThreadFrame(s, s', u);
    }
  }

  lemma KeepClone(s: State, h: Hid, h': Hid)
    requires Inv(s) && Enabled(s, CloneSender(h, h'))
    ensures Inv(Apply(s, CloneSender(h, h')))
  {
    hide Window, Threads, Handles, Delivery, Fates, ThreadOrder, ReceiverOK;
    var s' := Apply(s, CloneSender(h, h'));
    WindowFrame(s, s');
    CloneThreads(s, s', h');
    CloneHandles(s, s', h, h');
    FatesFrame(s, s');
    OrderFrame(s, s');
    DeliveryFrame(s, s');
    ReceiverFrame(s, s');
  }

  lemma DropThreads(s: State, s': State, t: Tid, h: Hid)
    requires Counters(s) && Counters(s') && Threads(s) && HandleFree(s, h) && t in s.prods && s.prods[t].pc == Idle
    requires s' == s.(ends := s.ends.(handles := s.ends.handles - {h}, senders := s'.ends.senders), prods := s'.prods)
    requires t in s'.prods && s'.prods == s.prods[t := s'.prods[t]] && !InOp(s'.prods[t].pc)
    ensures Threads(s')
  {
    forall u | u in s'.prods ensures ThreadOK(s', u) {
      if u != t {
        assert ThreadOK(s, u);
        ThreadFrame(s, s', u);
      }
    }
  }

  lemma DropHandles(s: State, s': State, t: Tid, h: Hid)
    requires Handles(s) && h in s.ends.handles && s.ends.senders > 0
    requires s' == s.(ends := s.ends.(handles := s.ends.handles - {h}, senders := s.ends.senders - 1), prods := s'.prods)
    requires t in s'.prods && s'.prods == s.prods[t := s'.prods[t]] && !InOp(s'.prods[t].pc)
    ensures Handles(s')
  {
    assert s'.ends.handles.Keys == s.ends.handles.Keys - {h};
    assert |s'.ends.handles| == |s'.ends.handles.Keys| && |s.ends.handles| == |s.ends.handles.Keys|;
    assert forall u, k :: Uses(s', u, k) ==> Uses(s, u, k);
  }

  lemma KeepDrop(s: State, t: Tid, h: Hid)
    requires Inv(s) && Enabled(s, DropSender(t, h))
    ensures Inv(Apply(s, DropSender(t, h)))
  {
    hide Window, Threads, Handles, Delivery, Fates, ThreadOrder, ReceiverOK;
    var s' := Apply(s, DropSender(t, h));
    WindowFrame(s, s');
    DropThreads(s, s', t, h);
    DropHandles(s, s', t, h);
    FatesFrame(s, s');
    OrderFrame(s, s');
    DeliveryFrame(s, s');
    ReceiverFrame(s, s');
  }

  // -- Shared::drop --

  /** The walk of Shared::drop visits exactly the claimed, unconsumed sequences: `lap` steps are
      enough because the slot after the last of them is not published. */
  lemma {:induction false} WalkVisits(s: State, q: nat, lap: nat)
    requires Inv(s) && s.ends.handles == map[] && s.rx.head <= q <= s.ring.claim && s.ring.claim - q < lap
    requires s.ring.head == s.rx.head
    ensures Walk(s.ring.slots, s.cap, q, lap) == seq(s.ring.claim - q, k => q + k)
    decreases lap
  {
    NoHandlesNoCalls(s);
    if q < s.ring.claim {
      WalkVisits(s, q + 1, lap - 1);
      assert Published(s, q);
      assert [q] + seq(s.ring.claim - (q + 1), k => q + 1 + k) == seq(s.ring.claim - q, k => q + k);
    } else {
      WalkStops(s);
    }
  }

  /** At the claim counter the walk stops, on a full ring too: the slot there belongs to the lap
      before, or was never published. */
  lemma WalkStops(s: State)
    requires Inv(s) && s.ends.handles == map[] && s.ring.head == s.rx.head
    ensures !Published(s, s.ring.claim)
  {
    TagIsFresh(s.ring.claim, s.cap);
    if s.ring.claim < s.rx.head + s.cap {
      assert SlotOK(s, s.ring.claim);
    } else {
      NoHandlesNoCalls(s);
      NextLap(s.rx.head, s.cap);
      assert Published(s, s.rx.head);
    }
  }

  /** What Shared::drop drops: the payloads of the claims that were not consumed, each once. */
  lemma ReapDrops(s: State)
    requires Inv(s) && AllDone(s)
    ensures var s' := StepReap(s);
            && !s'.hist.fault
            && |s'.hist.dropped.value| == s.ring.claim - s.ring.head
            && forall k :: 0 <= k < s.ring.claim - s.ring.head ==> s'.hist.dropped.value[k] == s.hist.log[s.ring.head + k].ticket
  {
    NoHandlesNoCalls(s);
    WalkVisits(s, s.ring.head, s.cap + 1);
    var seqs := Walk(s.ring.slots, s.cap, s.ring.head, s.cap + 1);
    var cells := CellsOf(s.ring.slots, s.cap, seqs);
    forall k | 0 <= k < s.ring.claim - s.ring.head ensures cells[k] == Some(s.hist.log[s.ring.head + k].ticket) {
      assert seqs[k] == s.ring.head + k;
      assert SlotOK(s, s.ring.head + k) && Published(s, s.ring.head + k);
    }
  }

  lemma ReapFrame(s: State, s': State)
    requires Inv(s) && s' == s.(hist := s.hist.(dropped := s'.hist.dropped)) && Reaped(s')
    ensures Inv(s')
  {
    hide Window, Threads, Handles, Delivery, Fates, ThreadOrder, Reaped;
    WindowFrame(s, s');
    ReapThreads(s, s');
    FatesFrame(s, s');
    OrderFrame(s, s');
    HandlesFrame(s, s');
    DeliveryFrame(s, s');
  }

  lemma ReapThreads(s: State, s': State)
    requires Counters(s) && Counters(s') && Threads(s) && s' == s.(hist := s.hist.(dropped := s'.hist.dropped))
    ensures Threads(s')
  {
    forall u | u in s'.prods ensures ThreadOK(s', u) {
      assert ThreadOK(s, u);
      ThreadFrame(s, s', u);
    }
  }

  lemma KeepReap(s: State)
    requires Inv(s) && Enabled(s, Reap)
    ensures Inv(Apply(s, Reap))
  {
    ReapDrops(s);
    ReapFrame(s, Apply(s, Reap));
  }

  lemma KeepStartRx(s: State, m: Move)
    requires Inv(s) && Enabled(s, m) && (m.StartRecv? || m.StartDrain? || m.StartDropRx?)
    ensures Inv(Apply(s, m))
  {
    hide Window, Threads, Handles, Delivery, Fates, ThreadOrder, Reaped;
    KeepSetRx(s, Apply(s, m).rx.pc);
  }

  lemma KeepProdNoise(s: State, t: Tid, token: bool)
    requires Inv(s) && Enabled(s, ProdNoise(t, token))
    ensures Inv(Apply(s, ProdNoise(t, token)))
  {
    var s' := Apply(s, ProdNoise(t, token));
    assert ThreadOK(s, t);
    if Counters(s') { ThreadFrame(s, s', t); }
    hide Window, Threads, Handles, Delivery, Fates, ThreadOrder, ReceiverOK, Reaped;
    KeepLocal(s, s', t);
  }

  lemma KeepConsNoise(s: State, tid: Tid, token: bool)
    requires Inv(s) && Enabled(s, ConsNoise(tid, token))
    ensures Inv(Apply(s, ConsNoise(tid, token)))
  {
    hide Window, Threads, Handles, Delivery, Fates, ThreadOrder, Reaped;
    var s' := Apply(s, ConsNoise(tid, token));
    QuietAfterReap(s);
    KeepRxLocal(s, s');
  }

  lemma QuietAfterReap(s: State)
    requires Inv(s)
    ensures s.hist.dropped == None || AllDone(s)
  {
  }

  /** Every move keeps the invariant. */
  lemma InvStep(s: State, m: Move)
    requires Inv(s) && Enabled(s, m)
    ensures Inv(Apply(s, m))
  {
    match m
    case StartSend(t, h, b) => KeepStart(s, t, h, b);
    case CloneSender(h, h') => KeepClone(s, h, h');
    case DropSender(t, h) => KeepDrop(s, t, h);
    case StepProd(t, q) => hide Inv; KeepProd(s, t, q);
    case StepCons(q) => hide Inv; KeepCons(s, q);
    case ProdNoise(t, token) => KeepProdNoise(s, t, token);
    case ConsNoise(tid, token) => KeepConsNoise(s, tid, token);
    case Reap => KeepReap(s);
    case _ => KeepStartRx(s, m);
  }
}

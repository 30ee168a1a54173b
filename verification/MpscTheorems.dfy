/**
 What the invariants mean: the guarantees of the MPSC ring in every reachable state and along every
 run, for every number of producers, every capacity and every number of laps.
 */
module MpscTheorems {
  import opened Arith
  import opened Common
  import opened MpscMachine
  import opened MpscInvariant
  import opened MpscWake

  // ---------- runs ----------

  /** Every state of a run that starts initially satisfies both invariants. */
  lemma {:induction false} RunKeepsInvariants(run: seq<State>, i: nat)
    requires IsRun(run) && Init(run[0]) && i < |run|
    ensures WakeInv(run[i])
  {
    hide WakeInv, Init, Enabled, Apply;
    if i == 0 {
      WakeInit(run[0]);
    } else {
      RunKeepsInvariants(run, i - 1);
      assert Next(run[i - 1], run[i]);
      var m :| Enabled(run[i - 1], m) && run[i] == Apply(run[i - 1], m);
      WakeStep(run[i - 1], m);
    }
  }

  lemma ReachableInv(s: State)
    requires Reachable(s)
    ensures WakeInv(s)
  {
    var run :| IsRun(run) && Init(run[0]) && run[|run| - 1] == s;
    RunKeepsInvariants(run, |run| - 1);
  }

  // ---------- memory safety ----------

  /** The slot the receiver is about to move a payload out of. */
  predicate Reading(s: State) {
    s.rx.pc.Take? || s.rx.pc.DrainTake?
  }

  /** No run reads memory that holds no payload, overwrites a payload, or overflows a counter. */
  lemma NoFault(s: State)
    requires Reachable(s)
    ensures !s.hist.fault
    ensures s.ring.head <= s.rx.head <= s.ring.claim <= s.ring.head + s.cap
    ensures s.ring.claim <= USIZE_MAX
  {
    ReachableInv(s);
  }

  /** Slot exclusivity: two producers in flight use different slots, the receiver reads a slot that
      no producer is using, a producer writes into an empty slot, and the receiver reads a full one. */
  lemma SlotsAreExclusive(s: State)
    requires Reachable(s)
    ensures 0 < s.cap == |s.ring.slots|
    ensures forall t, u :: t in s.prods && u in s.prods && t != u && InFlight(s.prods[t].pc) && InFlight(s.prods[u].pc)
              ==> SlotOf(s.prods[t].pc.seqNo, s.cap) != SlotOf(s.prods[u].pc.seqNo, s.cap)
    ensures forall t :: t in s.prods && InFlight(s.prods[t].pc) && Reading(s)
              ==> SlotOf(s.prods[t].pc.seqNo, s.cap) != SlotOf(s.rx.head, s.cap)
    ensures forall t :: t in s.prods && s.prods[t].pc.Write? ==> SlotAt(s, s.prods[t].pc.seqNo).cell == None
    ensures Reading(s) ==> SlotAt(s, s.rx.head).cell.Some?
  {
    ReachableInv(s);
    assert 0 < s.cap == |s.ring.slots|;
    forall t, u | t in s.prods && u in s.prods && t != u && InFlight(s.prods[t].pc) && InFlight(s.prods[u].pc)
      ensures SlotOf(s.prods[t].pc.seqNo, s.cap) != SlotOf(s.prods[u].pc.seqNo, s.cap)
    {
      hide Inv;
      TwoInFlight(s, t, u);
    }
    forall t | t in s.prods && InFlight(s.prods[t].pc) && Reading(s)
      ensures SlotOf(s.prods[t].pc.seqNo, s.cap) != SlotOf(s.rx.head, s.cap)
    {
      hide Inv;
      FlightAndReader(s, t);
    }
    forall t | t in s.prods && s.prods[t].pc.Write? ensures SlotAt(s, s.prods[t].pc.seqNo).cell == None {
      hide Inv;
      WriterFindsNothing(s, t);
    }
    if Reading(s) {
      ReaderFindsPayload(s);
    }
  }

  lemma WriterFindsNothing(s: State, t: Tid)
    requires Inv(s) && t in s.prods && s.prods[t].pc.Write?
    ensures SlotAt(s, s.prods[t].pc.seqNo).cell == None
  {
    assert ThreadOK(s, t);
  }

  lemma ReaderFindsPayload(s: State)
    requires Inv(s) && Reading(s)
    ensures SlotAt(s, s.rx.head).cell.Some?
  {
    HeadPublished(s);
  }

  lemma TwoInFlight(s: State, t: Tid, u: Tid)
    requires Inv(s) && t in s.prods && u in s.prods && t != u && InFlight(s.prods[t].pc) && InFlight(s.prods[u].pc)
    ensures SlotOf(s.prods[t].pc.seqNo, s.cap) != SlotOf(s.prods[u].pc.seqNo, s.cap)
  {
    assert ThreadOK(s, t) && ThreadOK(s, u);
    FlightFacts(s, t);
    FlightFacts(s, u);
    OtherSlots(s.prods[t].pc.seqNo, s.rx.head, s.cap);
  }

  lemma FlightAndReader(s: State, t: Tid)
    requires Inv(s) && t in s.prods && InFlight(s.prods[t].pc) && Reading(s)
    ensures SlotOf(s.prods[t].pc.seqNo, s.cap) != SlotOf(s.rx.head, s.cap)
  {
    assert ThreadOK(s, t);
    FlightFacts(s, t);
    TagIsFresh(s.rx.head, s.cap);
    OtherSlots(s.rx.head, s.rx.head, s.cap);
  }

  /** The round of a slot tells exactly whether the sequence of this lap is published: it is the
      sequence's round once no thread holds the sequence any more, and otherwise the round of the
      lap before, or -1 on the first lap. */
  lemma RoundsAreExact(s: State, q: nat)
    requires Reachable(s) && s.rx.head <= q < s.rx.head + s.cap && q <= USIZE_MAX
    ensures 0 < s.cap == |s.ring.slots| && |s.hist.log| == s.ring.claim
    ensures Published(s, q) <==> q < s.ring.claim && forall t :: !HeldBy(s, t, q)
    ensures !Published(s, q) ==> SlotAt(s, q).round == StaleTag(q, s.cap)
    ensures Published(s, q) ==> q < s.ring.claim && SlotAt(s, q).cell == Some(s.hist.log[q].ticket)
  {
    ReachableInv(s);
    assert SlotOK(s, q);
    TagIsFresh(q, s.cap);
    if Published(s, q) {
      forall t ensures !HeldBy(s, t, q) {
        if HeldBy(s, t, q) {
          assert ThreadOK(s, t);
          FlightFacts(s, t);
        }
      }
    }
  }

  // ---------- the ring refines a bounded FIFO queue ----------

  /** The queue that the ring implements: the claims whose payload has not been moved out. */
  function Queue(s: State): seq<Claim>
    requires s.rx.head <= |s.hist.log|
  {
    s.hist.log[s.rx.head..]
  }

  /** The move is the compare-exchange that wins thread `t`'s call its sequence. */
  predicate WinsClaim(s: State, m: Move) {
    m.StepProd? && m.t in s.prods && s.prods[m.t].pc.Cas? && s.prods[m.t].pc.seqNo == s.ring.claim && !m.quirk
  }

  /** What a move does to the queue: a winning compare-exchange appends the payload of its own call, the
      receiver's read takes the oldest payload, and nothing else changes the queue. */
  ghost predicate QueueStep(s: State, m: Move, s': State)
    requires s.rx.head <= |s.hist.log| && s'.rx.head <= |s'.hist.log|
  {
    if WinsClaim(s, m) then
      Queue(s') == Queue(s) + [Claim(s.prods[m.t].pc.op.v, m.t)] && s'.hist.delivered == s.hist.delivered
    else if m.StepCons? && Reading(s) then
      |Queue(s)| > 0 && Queue(s') == Queue(s)[1..] && s'.hist.delivered == s.hist.delivered + [Queue(s)[0].ticket]
    else
      Queue(s') == Queue(s) && s'.hist.delivered == s.hist.delivered
  }

  ghost predicate SameQueue(s: State, s': State) {
    s'.hist.log == s.hist.log && s'.hist.delivered == s.hist.delivered && s'.rx.head == s.rx.head
  }

  lemma MoveOutTakesOldest(s: State, pc: ConsPC, s': State)
    requires Inv(s) && s.rx.head < s.ring.claim && Published(s, s.rx.head) && s' == MoveOut(s, pc)
    ensures s.rx.head < |s.hist.log| && s'.rx.head <= |s'.hist.log|
    ensures Queue(s') == Queue(s)[1..] && s'.hist.delivered == s.hist.delivered + [Queue(s)[0].ticket]
  {
    HeadPublished(s);
  }

  lemma ClaimAppends(s: State, t: Tid, op: Op, q: nat, quirk: bool, s': State)
    requires Inv(s) && t in s.prods && s.prods[t].pc == Cas(op, q) && op.h in s.ends.handles && op.v < |s.hist.fate|
    requires s' == StepCas(s, t, op, q, quirk)
    ensures s.rx.head <= |s.hist.log| && s'.rx.head <= |s'.hist.log|
    ensures QueueStep(s, StepProd(t, quirk), s')
  {
    if s.ring.claim == q && !quirk {
      assert s'.hist.log == s.hist.log + [Claim(op.v, t)];
      assert Queue(s') == Queue(s) + [Claim(op.v, t)];
    }
  }

  lemma OtherProdKeepsQueue(s: State, t: Tid, quirk: bool)
    requires Enabled(s, StepProd(t, quirk)) && !s.prods[t].pc.Cas?
    ensures SameQueue(s, ProdStep(s, t, quirk))
  {
    match s.prods[t].pc
    case CheckRx(op) =>
    case LoadHead(op, q) =>
    case _ =>
  }

  lemma OtherConsKeepsQueue(s: State, quirk: bool)
    requires WellShaped(s) && ConsEnabled(s, quirk) && !Reading(s)
    ensures SameQueue(s, ConsStep(s, quirk))
  {
  }

  /** Every move of every thread is a step of a FIFO queue whose length never exceeds the capacity. */
  lemma RefinesBoundedFifo(s: State, m: Move)
    requires Reachable(s) && Enabled(s, m)
    ensures s.rx.head <= |s.hist.log| && |Queue(s)| <= s.cap
    ensures Apply(s, m).rx.head <= |Apply(s, m).hist.log|
    ensures QueueStep(s, m, Apply(s, m))
  {
    ReachableInv(s);
    InvStep(s, m);
    match m
    case StepProd(t, quirk) => ProdRefines(s, t, quirk);
    case StepCons(quirk) => ConsRefines(s, quirk);
    case _ => assert SameQueue(s, Apply(s, m));
  }

  lemma ProdRefines(s: State, t: Tid, quirk: bool)
    requires Inv(s) && Enabled(s, StepProd(t, quirk))
    ensures s.rx.head <= |s.hist.log| && ProdStep(s, t, quirk).rx.head <= |ProdStep(s, t, quirk).hist.log|
    ensures QueueStep(s, StepProd(t, quirk), ProdStep(s, t, quirk))
  {
    if s.prods[t].pc.Cas? {
      CallFacts(s, t);
      hide QueueStep, Inv;
      ClaimAppends(s, t, s.prods[t].pc.op, s.prods[t].pc.seqNo, quirk, ProdStep(s, t, quirk));
    } else {
      OtherProdKeepsQueue(s, t, quirk);
      hide ProdStep;
    }
  }

  lemma ConsRefines(s: State, quirk: bool)
    requires Inv(s) && Enabled(s, StepCons(quirk))
    ensures s.rx.head <= |s.hist.log| && ConsStep(s, quirk).rx.head <= |ConsStep(s, quirk).hist.log|
    ensures QueueStep(s, StepCons(quirk), ConsStep(s, quirk))
  {
    hide MoveOut;
    if s.rx.pc.Take? {
      MoveOutTakesOldest(s, StoreHead, ConsStep(s, quirk));
    } else if s.rx.pc.DrainTake? {
      MoveOutTakesOldest(s, Callback(s.rx.pc.count + 1, s.rx.pc.max), ConsStep(s, quirk));
    } else {
      OtherConsKeepsQueue(s, quirk);
    }
  }

  /** Along a run the delivered payloads and the log only grow at the end. */
  lemma {:induction false} DeliveryIsMonotone(run: seq<State>, i: nat, j: nat)
    requires IsRun(run) && Init(run[0]) && i <= j < |run|
    ensures run[i].hist.delivered <= run[j].hist.delivered
    ensures run[i].hist.log <= run[j].hist.log
  {
    hide Init, Next;
    if i < j {
      DeliveryIsMonotone(run, i, j - 1);
      RunStepGrows(run, j);
    }
  }

  lemma RunStepGrows(run: seq<State>, j: nat)
    requires IsRun(run) && Init(run[0]) && 0 < j < |run|
    ensures run[j - 1].hist.delivered <= run[j].hist.delivered
    ensures run[j - 1].hist.log <= run[j].hist.log
  {
    RunKeepsInvariants(run, j - 1);
    assert Next(run[j - 1], run[j]);
    var m :| Enabled(run[j - 1], m) && run[j] == Apply(run[j - 1], m);
    LogGrows(run[j - 1], m);
  }

  lemma LogGrows(s: State, m: Move)
    requires Inv(s) && Enabled(s, m)
    ensures s.hist.delivered <= Apply(s, m).hist.delivered
    ensures s.hist.log <= Apply(s, m).hist.log
  {
    match m
    case StepProd(t, quirk) => if !s.prods[t].pc.Cas? { OtherProdKeepsQueue(s, t, quirk); }
    case StepCons(quirk) => if !Reading(s) { OtherConsKeepsQueue(s, quirk); }
    case _ =>
  }

  /** Delivery is FIFO in claim order: what has been delivered is the log of won claims, from its
      beginning, in order and without gaps. */
  lemma DeliveredIsPrefixOfLog(s: State)
    requires Reachable(s)
    ensures |s.hist.delivered| == s.rx.head <= |s.hist.log|
    ensures forall i :: 0 <= i < |s.hist.delivered| ==> s.hist.delivered[i] == s.hist.log[i].ticket
  {
    ReachableInv(s);
  }

  /** Each producer's own order is kept: of two payloads of one thread, the one delivered first was
      offered first. */
  lemma ProducerOrderIsKept(s: State, i: nat, j: nat)
    requires Reachable(s) && i < j < |s.hist.delivered| && j < |s.hist.log|
    requires s.hist.log[i].who == s.hist.log[j].who
    ensures s.hist.delivered[i] < s.hist.delivered[j]
  {
    ReachableInv(s);
  }

  // ---------- Full, Empty and Disconnected ----------

  /** `Full` is exact: at the load of the head that decides it, the claims are a full lap ahead (or
      at `usize::MAX`), and the failed call has claimed nothing and changed no slot. */
  lemma FullIsExact(s: State, t: Tid, op: Op, q: nat)
    requires Reachable(s) && t in s.prods && s.prods[t].pc == LoadHead(op, q)
    requires q >= Limit(s.ring.head, s.cap)
    ensures q == s.ring.claim == Limit(s.ring.head, s.cap)
    ensures op.v < |s.hist.fate|
    ensures StepLoadHead(s, t, op, q).ring == s.ring && StepLoadHead(s, t, op, q).hist.log == s.hist.log
  {
    ReachableInv(s);
    assert ThreadOK(s, t);
  }

  /** ... so below the saturation point `Full` means `cap` unconsumed claims, and at it the ring
      reports `Full` whatever it holds. */
  lemma FullMeansFullLap(s: State, t: Tid, op: Op, q: nat)
    requires Reachable(s) && t in s.prods && s.prods[t].pc == LoadHead(op, q)
    ensures q >= Limit(s.ring.head, s.cap)
            <==> q == s.ring.claim && (s.ring.claim == s.ring.head + s.cap || s.ring.claim == USIZE_MAX)
  {
    ReachableInv(s);
    assert ThreadOK(s, t);
  }

  /** A claim that wins is within the lap of the true head, however stale the cached one is. */
  lemma WonClaimIsWithinTheLap(s: State, t: Tid, op: Op)
    requires Reachable(s) && t in s.prods && s.prods[t].pc == Cas(op, s.ring.claim)
    ensures s.ring.claim < s.ring.head + s.cap && s.ring.claim + 1 <= USIZE_MAX
  {
    ReachableInv(s);
    assert ThreadOK(s, t);
    CacheBound(s, t);
  }

  /** The lock-free bound: the compare-exchanges one call has lost to other producers are at most the
      capacity plus what the receiver has consumed since the call began. */
  lemma RetriesAreBounded(s: State, t: Tid)
    requires Reachable(s) && t in s.prods
    requires s.prods[t].pc.LoadHead? || s.prods[t].pc.Cas? || InFlight(s.prods[t].pc)
    ensures s.prods[t].pc.op.start <= s.ring.head
    ensures s.prods[t].pc.op.fails <= s.cap + (s.ring.head - s.prods[t].pc.op.start)
  {
    ReachableInv(s);
    assert ThreadOK(s, t);
    if InFlight(s.prods[t].pc) { FlightBound(s, t); }
  }

  lemma FlightBound(s: State, t: Tid)
    requires Counters(s) && t in s.prods && ThreadOK(s, t) && InFlight(s.prods[t].pc)
    ensures s.prods[t].pc.op.start + s.prods[t].pc.op.fails <= s.prods[t].pc.seqNo < s.ring.claim
  {
  }

  /** A lost compare-exchange strictly raises the sequence the call tries next. */
  lemma LostCasRaisesSequence(s: State, t: Tid, op: Op, q: nat)
    requires Reachable(s) && t in s.prods && s.prods[t].pc == Cas(op, q) && q != s.ring.claim
    ensures q < s.ring.claim
  {
    ReachableInv(s);
    assert ThreadOK(s, t);
  }

  /** The receiver finds its next slot unpublished exactly when the queue is empty or the oldest claim
      is still being written. */
  lemma EmptyIsExact(s: State)
    requires Reachable(s)
    ensures 0 < s.cap == |s.ring.slots|
    ensures !Published(s, s.rx.head) <==>
              s.rx.head == s.ring.claim || (s.rx.head < |s.hist.log| && HeldBy(s, s.hist.log[s.rx.head].who, s.rx.head))
  {
    ReachableInv(s);
    RoundsAreExact(s, s.rx.head);
    assert SlotOK(s, s.rx.head);
  }

  /** The receiver is inside a call that has not taken anything: before its first probe, between its probes, or in the
      Park arm. */
  predicate Asking(pc: ConsPC) {
    pc.Probe? || pc.ProbeSenders? || pc.ProbeAgain? || pc.Spin? || pc.PrepSlot? || pc.PrepFlag? || pc.RecheckRound? ||
    pc.RecheckSenders? || pc.Cancel? || pc.Parked? || pc.ClearFlag?
  }

  /** A receive ends without a payload in two ways: a call that does not block, at its look at `senders` when
      somebody may still send; and any call, at its second probe after nobody was left, when the slot is
      still not published, and then everything accepted has been delivered. */
  lemma EmptyFollowsDecision(s: State, quirk: bool)
    requires Reachable(s) && Enabled(s, StepCons(quirk)) && Asking(s.rx.pc)
    ensures 0 < s.cap == |s.ring.slots|
    ensures var s' := Apply(s, StepCons(quirk));
      && (s'.rx.pc == Resting <==> (s.rx.pc == ProbeSenders(false) && s.ends.senders > 0)
                                   || (s.rx.pc.ProbeAgain? && !Published(s, s.rx.head)))
      && (s'.rx.closed <==> s.rx.closed || (s.rx.pc.ProbeAgain? && !Published(s, s.rx.head)))
      && (s.rx.pc.ProbeAgain? && !Published(s, s.rx.head) ==> s.ends.handles == map[] && |s.hist.delivered| == |s.hist.log|)
  {
    assert 0 < s.cap == |s.ring.slots|;
    hide Reachable, WellShaped, Published, ConsStep, ProdStep, Asking;
    AskingEnds(s, quirk);
    AskingCloses(s, quirk);
    if s.rx.pc.ProbeAgain? && !Published(s, s.rx.head) { NothingLeft(s); }
  }

  lemma AskingEnds(s: State, quirk: bool)
    requires WellShaped(s) && ConsEnabled(s, quirk) && Asking(s.rx.pc)
    ensures ConsStep(s, quirk).rx.pc == Resting <==>
              (s.rx.pc == ProbeSenders(false) && s.ends.senders > 0) || (s.rx.pc.ProbeAgain? && !Published(s, s.rx.head))
  {
    assert 0 < s.cap == |s.ring.slots|;
    hide WellShaped, Published, MoveOut, StepStoreHead, StepDrainStore, StepUnparkAll;
  }

  lemma AskingCloses(s: State, quirk: bool)
    requires WellShaped(s) && ConsEnabled(s, quirk) && Asking(s.rx.pc)
    ensures ConsStep(s, quirk).rx.closed <==> s.rx.closed || (s.rx.pc.ProbeAgain? && !Published(s, s.rx.head))
  {
    assert 0 < s.cap == |s.ring.slots|;
    hide WellShaped, Published, MoveOut, StepStoreHead, StepDrainStore, StepUnparkAll;
  }

  lemma NothingLeft(s: State)
    requires Reachable(s) && s.rx.pc.ProbeAgain? && 0 < s.cap == |s.ring.slots| && !Published(s, s.rx.head)
    ensures s.ends.handles == map[] && |s.hist.delivered| == |s.hist.log|
  {
    ReachableInv(s);
    NoHandlesNoCalls(s);
    assert SlotOK(s, s.rx.head);
  }

  /** `senders` counts the live handles. */
  lemma SendersCountsHandles(s: State)
    requires Reachable(s)
    ensures s.ends.senders == |s.ends.handles|
  {
    ReachableInv(s);
  }

  /** `Disconnected` is lossless: once it has been returned there is no sender handle and no call in
      flight, and everything ever accepted has been delivered. */
  lemma DisconnectedIsLossless(s: State)
    requires Reachable(s) && s.rx.closed
    ensures s.ends.handles == map[] && forall t :: t in s.prods ==> !InOp(s.prods[t].pc)
    ensures |s.hist.delivered| == |s.hist.log|
    ensures forall i :: 0 <= i < |s.hist.log| ==> s.hist.delivered[i] == s.hist.log[i].ticket
  {
    ReachableInv(s);
    NoHandlesNoCalls(s);
  }

  /** ... and final: every later `try_recv` finds nothing, sees no sender, finds nothing again and
      returns `Disconnected`. */
  lemma DisconnectedIsFinal(run: seq<State>, i: nat, j: nat)
    requires IsRun(run) && Init(run[0]) && i <= j < |run| && run[i].rx.closed
    ensures run[j].rx.closed && run[j].hist.log == run[i].hist.log && run[j].ends.senders == 0
    ensures 0 < run[j].cap == |run[j].ring.slots| && !Published(run[j], run[j].rx.head) && !Reading(run[j])
  {
    ClosedStays(run, i, j);
    RunInv(run, j);
    NothingPublishedWhenClosed(run[j]);
  }

  lemma RunInv(run: seq<State>, i: nat)
    requires IsRun(run) && Init(run[0]) && i < |run|
    ensures Inv(run[i])
  {
    RunKeepsInvariants(run, i);
  }

  lemma {:induction false} ClosedStays(run: seq<State>, i: nat, j: nat)
    requires IsRun(run) && Init(run[0]) && i <= j < |run| && run[i].rx.closed
    ensures run[j].rx.closed && run[j].hist.log == run[i].hist.log
  {
    hide Inv, Init, Enabled, Apply;
    if i < j {
      ClosedStays(run, i, j - 1);
      RunInv(run, j - 1);
      assert Next(run[j - 1], run[j]);
      var m :| Enabled(run[j - 1], m) && run[j] == Apply(run[j - 1], m);
      ClosedStep(run[j - 1], m);
    }
  }

  lemma ConsClosed(s: State, quirk: bool)
    requires WellShaped(s) && ConsEnabled(s, quirk) && s.rx.closed
    ensures ConsStep(s, quirk).rx.closed
  {
  }

  lemma ClosedStep(s: State, m: Move)
    requires Inv(s) && Enabled(s, m) && s.rx.closed
    ensures Apply(s, m).rx.closed && Apply(s, m).hist.log == s.hist.log
  {
    NoHandlesNoCalls(s);
    match m
    case StepCons(quirk) => ConsClosed(s, quirk); NothingPublishedWhenClosed(s); OtherConsKeepsQueue(s, quirk);
    case _ =>
  }

  lemma NothingPublishedWhenClosed(s: State)
    requires Inv(s) && s.rx.closed
    ensures !Published(s, s.rx.head) && !Reading(s) && s.ends.senders == 0
  {
    HeadPublished(s);
  }

  // ---------- the receiver's drop ----------

  /** The call with payload `v` has passed its check of the receiver's flag. */
  predicate PastCheck(pc: ProdPC, v: Ticket) {
    (pc.LoadClaim? || pc.LoadHead? || pc.Cas? || InFlight(pc)) && pc.op.v == v
  }

  /** Payload `v` has been accepted, or its call has passed its check. */
  ghost predicate Advanced(s: State, v: Ticket) {
    || (v < |s.hist.fate| && s.hist.fate[v].Accepted?)
    || exists t :: t in s.prods && PastCheck(s.prods[t].pc, v)
  }

  /** The call with payload `v` is about to load the flag, and the flag is down. */
  ghost predicate SeesReceiver(s: State, t: Tid, v: Ticket) {
    t in s.prods && s.prods[t].pc.CheckRx? && s.prods[t].pc.op.v == v && !s.ends.rxDropped
  }

  lemma ProdMovesAlone(s: State, t: Tid, quirk: bool, s': State)
    requires Enabled(s, StepProd(t, quirk)) && s' == ProdStep(s, t, quirk)
    ensures t in s.prods && t in s'.prods && s'.prods == s.prods[t := s'.prods[t]]
  {
    hide Tag, SlotOf, Limit;
  }

  lemma WakerPasses(s: State, t: Tid, quirk: bool, s': State, v: Ticket)
    requires Enabled(s, StepProd(t, quirk)) && s' == ProdStep(s, t, quirk) && !InOp(s.prods[t].pc)
    ensures t in s'.prods && !PastCheck(s'.prods[t].pc, v)
  {
    hide Tag, SlotOf, Limit, StepCas, StepLoadHead, StepWrite, StepPublish, GiveBack, Decide;
  }

  lemma CallPasses(s: State, t: Tid, quirk: bool, s': State, v: Ticket)
    requires Enabled(s, StepProd(t, quirk)) && s' == ProdStep(s, t, quirk) && InOp(s.prods[t].pc)
    requires t in s'.prods && PastCheck(s'.prods[t].pc, v)
    ensures PastCheck(s.prods[t].pc, v) || SeesReceiver(s, t, v)
  {
    hide Tag, SlotOf, Limit, StepTake, StepUnpark;
  }

  lemma ProdPasses(s: State, t: Tid, quirk: bool, s': State, v: Ticket)
    requires Enabled(s, StepProd(t, quirk)) && s' == ProdStep(s, t, quirk)
    ensures t in s'.prods && (PastCheck(s'.prods[t].pc, v) ==> PastCheck(s.prods[t].pc, v) || SeesReceiver(s, t, v))
  {
    hide ProdStep, PastCheck, SeesReceiver;
    ProdMovesAlone(s, t, quirk, s');
    if !InOp(s.prods[t].pc) {
      WakerPasses(s, t, quirk, s', v);
    } else if PastCheck(s'.prods[t].pc, v) {
      CallPasses(s, t, quirk, s', v);
    }
  }

  lemma ProdAccepts(s: State, t: Tid, quirk: bool, s': State, v: Ticket)
    requires Enabled(s, StepProd(t, quirk)) && s' == ProdStep(s, t, quirk)
    requires v < |s'.hist.fate| && s'.hist.fate[v].Accepted?
    ensures (v < |s.hist.fate| && s.hist.fate[v].Accepted?) || PastCheck(s.prods[t].pc, v)
  {
    hide Tag, SlotOf, Limit;
  }

  lemma ProdAdvances(s: State, t: Tid, quirk: bool, s': State, v: Ticket)
    requires Enabled(s, StepProd(t, quirk)) && s' == ProdStep(s, t, quirk) && Advanced(s', v) && !SeesReceiver(s, t, v)
    ensures Advanced(s, v)
  {
    assert t in s.prods;
    hide ProdStep, Enabled, PastCheck, SeesReceiver;
    ProdMovesAlone(s, t, quirk, s');
    ProdPasses(s, t, quirk, s', v);
    if v < |s'.hist.fate| && s'.hist.fate[v].Accepted? {
      ProdAccepts(s, t, quirk, s', v);
    }
  }

  lemma ConsAdvances(s: State, quirk: bool, s': State, v: Ticket)
    requires Enabled(s, StepCons(quirk)) && s' == ConsStep(s, quirk) && Advanced(s', v)
    ensures Advanced(s, v)
  {
    hide Tag, SlotOf;
    assert s'.hist.fate == s.hist.fate;
    assert forall u :: u in s'.prods ==> u in s.prods && s'.prods[u].pc == s.prods[u].pc;
  }

  lemma AdvancesOnlyThere(s: State, m: Move, v: Ticket)
    requires Enabled(s, m) && Advanced(Apply(s, m), v)
    ensures Advanced(s, v) || exists t :: SeesReceiver(s, t, v)
  {
    hide Advanced, SeesReceiver, ProdStep, ConsStep;
    match m
    case StepProd(t, quirk) => if !SeesReceiver(s, t, v) { ProdAdvances(s, t, quirk, ProdStep(s, t, quirk), v); }
    case StepCons(quirk) => ConsAdvances(s, quirk, ConsStep(s, quirk), v);
    case _ => OtherAdvances(s, m, v);
  }

  lemma OtherAdvances(s: State, m: Move, v: Ticket)
    requires Enabled(s, m) && !m.StepProd? && !m.StepCons? && Advanced(Apply(s, m), v)
    ensures Advanced(s, v)
  {
    var s' := Apply(s, m);
    assert forall u :: u in s'.prods && PastCheck(s'.prods[u].pc, v) ==> u in s.prods && PastCheck(s.prods[u].pc, v);
  }

  /** A payload is accepted only if its call loaded the receiver's flag while it was down. */
  lemma {:induction false} AcceptedMeansSeen(run: seq<State>, j: nat, v: Ticket) returns (i: nat, t: Tid)
    requires IsRun(run) && Init(run[0]) && j < |run| && Advanced(run[j], v)
    ensures i < j && SeesReceiver(run[i], t, v)
  {
    hide Enabled, Apply, Advanced, SeesReceiver;
    if j == 0 {
      NothingAdvancedYet(run[0], v);
    } else {
      hide Init;
      assert Next(run[j - 1], run[j]);
      var m :| Enabled(run[j - 1], m) && run[j] == Apply(run[j - 1], m);
      AdvancesOnlyThere(run[j - 1], m, v);
      if Advanced(run[j - 1], v) {
        i, t := AcceptedMeansSeen(run, j - 1, v);
      } else {
        i := j - 1;
        t :| SeesReceiver(run[j - 1], t, v);
      }
    }
  }

  lemma NothingAdvancedYet(s: State, v: Ticket)
    requires Init(s)
    ensures !Advanced(s, v)
  {
  }

  lemma FlagStep(s: State, m: Move)
    requires Enabled(s, m) && s.ends.rxDropped
    ensures Apply(s, m).ends.rxDropped
  {
    hide Tag, SlotOf, Limit;
  }

  lemma {:induction false} FlagStays(run: seq<State>, i: nat, j: nat)
    requires IsRun(run) && i <= j < |run| && run[i].ends.rxDropped
    ensures run[j].ends.rxDropped
  {
    hide Enabled, Apply;
    if i < j {
      FlagStays(run, i, j - 1);
      assert Next(run[j - 1], run[j]);
      var m :| Enabled(run[j - 1], m) && run[j] == Apply(run[j - 1], m);
      FlagStep(run[j - 1], m);
    }
  }

  lemma {:induction false} OffersStay(run: seq<State>, i: nat, j: nat)
    requires IsRun(run) && Init(run[0]) && i <= j < |run|
    ensures |run[i].hist.fate| <= |run[j].hist.fate|
  {
    hide Enabled, Apply, Init, Inv;
    if i < j {
      OffersStay(run, i, j - 1);
      assert Next(run[j - 1], run[j]);
      var m :| Enabled(run[j - 1], m) && run[j] == Apply(run[j - 1], m);
      OffersGrow(run[j - 1], m);
    }
  }

  lemma OffersGrow(s: State, m: Move)
    requires Enabled(s, m)
    ensures |s.hist.fate| <= |Apply(s, m).hist.fate|
  {
    hide Tag, SlotOf, Limit;
  }

  lemma CheckedIsOffered(s: State, t: Tid, v: Ticket)
    requires Inv(s) && SeesReceiver(s, t, v)
    ensures v < |s.hist.fate|
  {
    assert ThreadOK(s, t);
  }

  /** What is left of the promise about late sends: a payload that is offered after the receiver is gone (its
      number is new) is never accepted. One offered before may be, if its call had seen the flag down. */
  lemma LateSendIsRejected(run: seq<State>, i: nat, j: nat, v: Ticket)
    requires IsRun(run) && Init(run[0]) && i <= j < |run| && run[i].ends.rxDropped && v >= |run[i].hist.fate|
    ensures !Advanced(run[j], v)
  {
    hide Advanced, SeesReceiver, Inv, Init, Next;
    if Advanced(run[j], v) {
      var k, t := AcceptedMeansSeen(run, j, v);
      RunInv(run, k);
      CheckedIsOffered(run[k], t, v);
      SeesFlagDown(run[k], t, v);
      if k <= i { OffersStay(run, k, i); } else { FlagStays(run, i, k); }
    }
  }

  lemma SeesFlagDown(s: State, t: Tid, v: Ticket)
    requires SeesReceiver(s, t, v)
    ensures !s.ends.rxDropped
  {
  }

  // ---------- conservation ----------

  /** Where payloads end: handed back inside an error, delivered, or dropped by Shared::drop. */
  function Ended(s: State): seq<Ticket> {
    s.hist.returned + s.hist.delivered + (if s.hist.dropped.Some? then s.hist.dropped.value else [])
  }

  /** In every state each payload is in exactly one place: in the hands of one running call, handed
      back once, or in the log of won claims once. */
  lemma PayloadsAreConserved(s: State, v: Ticket)
    requires Reachable(s) && v < |s.hist.fate|
    ensures match s.hist.fate[v]
            case Held(t) => Holds(s, t, v) && v !in s.hist.returned && (forall q :: 0 <= q < |s.hist.log| ==> s.hist.log[q].ticket != v)
            case HandedBack(i) => i < |s.hist.returned| && (forall k :: 0 <= k < |s.hist.returned| ==> (s.hist.returned[k] == v <==> k == i))
                                  && (forall q :: 0 <= q < |s.hist.log| ==> s.hist.log[q].ticket != v)
            case Accepted(q) => q < |s.hist.log| && (forall k :: 0 <= k < |s.hist.log| ==> (s.hist.log[k].ticket == v <==> k == q))
                                && v !in s.hist.returned
  {
    ReachableInv(s);
    assert FateOK(s, v);
  }

  /** When the channel is gone every payload that was ever passed to `send` or `try_send` has ended
      in exactly one place and exactly once, whatever unwound and whatever raced the receiver's drop. */
  lemma EveryPayloadEndsOnce(s: State)
    requires Reachable(s) && s.hist.dropped.Some?
    ensures |Ended(s)| == |s.hist.fate|
    ensures forall v :: 0 <= v < |s.hist.fate| ==> v in Ended(s)
    ensures forall i, j :: 0 <= i < j < |Ended(s)| ==> Ended(s)[i] != Ended(s)[j]
  {
    ReachableInv(s);
    EndedIsInjective(s);
    EndedCoversAll(s);
    forall k | 0 <= k < |Ended(s)| ensures Ended(s)[k] < |s.hist.fate| {
      EndedFate(s, k);
    }
    SameLength(Ended(s), |s.hist.fate|);
  }

  /** Position `k` of `Ended` is recorded in the fate of the payload that stands there. */
  lemma EndedFate(s: State, k: nat)
    requires Inv(s) && s.hist.dropped.Some? && k < |Ended(s)|
    ensures Ended(s)[k] < |s.hist.fate|
    ensures s.hist.fate[Ended(s)[k]] == if k < |s.hist.returned| then HandedBack(k) else Accepted(k - |s.hist.returned|)
    ensures |Ended(s)| == |s.hist.returned| + |s.hist.log|
  {
    var r, d := |s.hist.returned|, |s.hist.delivered|;
    assert s.rx.head == s.ring.head;
    if r <= k < r + d {
      assert Ended(s)[k] == s.hist.delivered[k - r] == s.hist.log[k - r].ticket;
    } else if r + d <= k {
      assert Ended(s)[k] == s.hist.dropped.value[k - r - d] == s.hist.log[s.ring.head + (k - r - d)].ticket;
    }
  }

  lemma EndedIsInjective(s: State)
    requires Inv(s) && s.hist.dropped.Some?
    ensures forall i, j :: 0 <= i < j < |Ended(s)| ==> Ended(s)[i] != Ended(s)[j]
  {
    hide Inv;
    forall i, j | 0 <= i < j < |Ended(s)| ensures Ended(s)[i] != Ended(s)[j] {
      EndedFate(s, i);
      EndedFate(s, j);
    }
  }

  lemma EndedCoversAll(s: State)
    requires Inv(s) && s.hist.dropped.Some?
    ensures forall v :: 0 <= v < |s.hist.fate| ==> v in Ended(s)
  {
    forall v | 0 <= v < |s.hist.fate| ensures v in Ended(s) {
      assert FateOK(s, v);
      match s.hist.fate[v]
      case Held(t) => assert false;
      case HandedBack(i) => assert Ended(s)[i] == v;
      case Accepted(q) => EndedAccepted(s, q);
    }
  }

  lemma EndedAccepted(s: State, q: nat)
    requires Inv(s) && s.hist.dropped.Some? && q < |s.hist.log|
    ensures s.hist.log[q].ticket in Ended(s)
  {
    var r, d := |s.hist.returned|, |s.hist.delivered|;
    assert s.rx.head == s.ring.head;
    if q < d {
      assert Ended(s)[r + q] == s.hist.log[q].ticket;
    } else {
      assert s.hist.dropped.value[q - d] == s.hist.log[s.ring.head + (q - d)].ticket;
      assert Ended(s)[r + q] == s.hist.log[q].ticket;
    }
  }

  /** A sequence without repetitions that holds exactly the numbers below `n` has length `n`. */
  lemma {:induction false} SameLength(a: seq<nat>, n: nat)
    requires forall i, j :: 0 <= i < j < |a| ==> a[i] != a[j]
    requires forall i :: 0 <= i < |a| ==> a[i] < n
    requires forall v :: 0 <= v < n ==> v in a
    ensures |a| == n
  {
    if |a| == 0 {
      assert n == 0 || 0 in a;
    } else {
      assert a[0] < n;
      assert n - 1 in a;
      var k :| 0 <= k < |a| && a[k] == n - 1;
      var b := a[..k] + a[k + 1..];
      forall v | 0 <= v < n - 1 ensures v in b {
        assert v in a;
        var i :| 0 <= i < |a| && a[i] == v;
        assert b[if i < k then i else i - 1] == v;
      }
      SameLength(b, n - 1);
    }
  }

  // ---------- drain ----------

  /** One `drain` moves out at most `max` and at most `cap` payloads, however fast producers refill:
      the shared head stays where it was until the end, so no producer can claim past it. */
  lemma DrainIsBounded(s: State)
    requires Reachable(s)
    requires s.rx.pc.DrainLoad? || s.rx.pc.DrainTake? || s.rx.pc.Callback? || s.rx.pc.DrainStore?
    ensures s.rx.head == s.ring.head + s.rx.pc.count
    ensures s.rx.pc.count <= s.cap
    ensures !s.rx.pc.DrainStore? ==> s.rx.pc.count <= s.rx.pc.max
  {
    hide Reachable, Window, Threads, Handles, Delivery, Fates, ThreadOrder, Reaped, RxWake, AllTxWake, Published;
    ReachableInv(s);
  }

  // ---------- parking ----------

  /** Some thread is on its way to unpark the receiver and will find it: it has the receiver's handle, or the
      handle is registered and it is about to take it, or the flag is up as well and it is about to look. */
  ghost predicate ReceiverWillBeWoken(s: State) {
    || (exists t :: At(s, t, WakeUnpark(s.rx.tid)))
    || (s.wait.registered == Some(s.rx.tid) && exists t :: At(s, t, WakeTake))
    || (s.wait.registered == Some(s.rx.tid) && s.wait.parked && exists t :: (At(s, t, WakeLoad) || At(s, t, WakeClear)))
  }

  /** No lost wakeup, consumer: if it sleeps without a token although its next slot is published or no
      sender is left, then some thread that has published, or dropped the last sender, is still on
      its way to unpark it. A thread about to unpark has this consumer's handle, or that handle is
      still registered for a thread that will take it. */
  lemma ConsumerWakeupIsNotLost(s: State)
    requires Reachable(s) && s.rx.pc == Parked && !s.rx.token
    requires 0 < s.cap == |s.ring.slots| && (Published(s, s.rx.head) || s.ends.senders == 0)
    ensures ReceiverWillBeWoken(s)
  {
    ReachableInv(s);
    if !exists t :: At(s, t, WakeUnpark(s.rx.tid)) {
      if !exists t :: At(s, t, WakeTake) {
        var t :| t in s.prods && Waking(s.prods[t].pc);
        assert At(s, t, s.prods[t].pc);
      }
    }
  }

  /** The receiver is inside the wake that will unpark thread `t`. */
  predicate WillBeUnparked(s: State, t: Tid) {
    || (s.rx.pc.SwapWaiting? && s.wait.waiting && t in s.wait.list)
    || (s.rx.pc.LockList? && t in s.wait.list)
    || (s.rx.pc.UnparkAll? && t in s.rx.pc.rest)
  }

  /** No lost wakeup, producers: if a producer sleeps without a token although there is room or the
      receiver is gone, then it is about to be unparked, if and only if the latest advance of the head was
      not by a `drain` whose callback unwound. */
  lemma ProducerWakeupIsNotLost(s: State, t: Tid)
    requires Reachable(s) && t in s.prods && s.prods[t].pc.Park? && !s.prods[t].token
    requires s.ring.claim < Limit(s.ring.head, s.cap) || s.ends.rxDropped
    ensures WillBeUnparked(s, t) <==> !s.rx.skipped
  {
    ReachableInv(s);
    assert TxWake(s, t);
  }

  /** Outside a wake, and unless a drain has unwound, no producer that could proceed sleeps without a token. */
  lemma NobodyLeftAsleep(s: State)
    requires Reachable(s) && !WakingAll(s.rx.pc) && (s.rx.skipped ==> !s.park)
    ensures forall t :: t in s.prods && s.prods[t].pc.Park? && (s.ring.claim < Limit(s.ring.head, s.cap) || s.ends.rxDropped)
              ==> s.prods[t].token
  {
    ReachableInv(s);
    forall t | t in s.prods && s.prods[t].pc.Park? && (s.ring.claim < Limit(s.ring.head, s.cap) || s.ends.rxDropped)
      ensures s.prods[t].token
    {
      assert TxWake(s, t);
    }
  }

  lemma WakingMeansNotSkipped(s: State)
    requires Reachable(s) && (WakingAll(s.rx.pc) || s.ends.rxDropped)
    ensures !s.rx.skipped
  {
    ReachableInv(s);
  }

  ghost predicate CanStep(s: State, t: Tid) {
    t in s.prods && ProdEnabled(s, t, false)
  }

  /** A thread that is waking can move, or another one that holds the lock can. */
  lemma WakersProgress(s: State, t: Tid)
    requires LockOK(s) && t in s.prods && Waking(s.prods[t].pc)
    ensures exists u :: CanStep(s, u) && Waking(s.prods[u].pc)
  {
    if s.prods[t].pc.WakeTake? && s.wait.slotLock != None {
      assert CanStep(s, s.wait.slotLock.value);
    } else {
      assert CanStep(s, t);
    }
  }

  /** Deadlock freedom: the receiver and a producer never both sleep without tokens on a full ring unless a
      third thread is in the middle of a send or of a wake and can move; and they sleep on a ring with
      room only after an unwound `drain`. Below the saturation point of the counters, that is: there a full
      ring may hold nothing (see `MpscWitnesses.SaturationCanDeadlock`). */
  lemma NeverBothAsleep(s: State, p: Tid)
    requires Reachable(s) && s.rx.pc == Parked && !s.rx.token
    requires p in s.prods && s.prods[p].pc.Park? && !s.prods[p].token
    requires s.ring.claim == Limit(s.ring.head, s.cap) || !s.rx.skipped
    requires s.ring.head < USIZE_MAX
    ensures exists t :: t != p && CanStep(s, t) && (InFlight(s.prods[t].pc) || Waking(s.prods[t].pc))
  {
    hide Reachable, Window, Threads, Handles, Delivery, Fates, ThreadOrder, Reaped;
    ReachableInv(s);
    assert TxWake(s, p);
    assert s.ring.claim == Limit(s.ring.head, s.cap) > s.rx.head;
    if Published(s, s.rx.head) {
      var t :| t in s.prods && Waking(s.prods[t].pc);
      WakersProgress(s, t);
    } else {
      EmptyIsExact(s);
      var t := s.hist.log[s.rx.head].who;
      assert HeldBy(s, t, s.rx.head);
      assert CanStep(s, t);
    }
  }

  /** Nobody in the middle of a call can move (without a spurious return from a park). */
  ghost predicate Stuck(s: State) {
    && (forall t :: t in s.prods ==> s.prods[t].pc == Idle || !ProdEnabled(s, t, false))
    && (s.rx.pc == Resting || s.rx.pc == Gone || !ConsEnabled(s, false))
  }

  /** When nothing can move, everybody who waits waits for something that has not happened: a sleeping
      receiver for an empty ring with live senders, a sleeping producer for a full ring with a live
      receiver, and both at once only after an unwound `drain` or at the saturation point. */
  lemma StuckOnlyWhenWaiting(s: State)
    requires Reachable(s) && Stuck(s)
    ensures s.rx.pc == Resting || s.rx.pc == Gone || s.rx.pc == Parked
    ensures s.rx.pc == Parked ==> s.rx.head == s.ring.claim && s.ends.senders > 0
    ensures forall t :: t in s.prods && s.prods[t].pc != Idle ==>
              s.prods[t].pc.Park? && (s.rx.skipped || (s.ring.claim == Limit(s.ring.head, s.cap) && !s.ends.rxDropped))
    ensures forall t :: t in s.prods && s.prods[t].pc != Idle && s.rx.pc == Parked ==> s.rx.skipped || s.ring.head == USIZE_MAX
  {
    ReachableInv(s);
    NoWakersWhenStuck(s);
    ReceiverWhenStuck(s);
    forall t | t in s.prods && s.prods[t].pc != Idle
      ensures s.prods[t].pc.Park? && (s.rx.skipped || (s.ring.claim == Limit(s.ring.head, s.cap) && !s.ends.rxDropped))
    {
      assert TxWake(s, t);
    }
  }

  lemma NoWakersWhenStuck(s: State)
    requires WakeInv(s) && Stuck(s)
    ensures s.wait.slotLock == None
    ensures forall t :: t in s.prods ==> !Waking(s.prods[t].pc) && !InFlight(s.prods[t].pc)
  {
    assert LockOK(s);
    forall t | t in s.prods ensures !Waking(s.prods[t].pc) && !InFlight(s.prods[t].pc) {
      if Waking(s.prods[t].pc) { WakersProgress(s, t); }
    }
  }

  lemma ReceiverWhenStuck(s: State)
    requires WakeInv(s) && Stuck(s) && s.wait.slotLock == None
    requires forall t :: t in s.prods ==> !Waking(s.prods[t].pc) && !InFlight(s.prods[t].pc)
    ensures s.rx.pc == Resting || s.rx.pc == Gone || s.rx.pc == Parked
    ensures s.rx.pc == Parked ==> s.rx.head == s.ring.claim && s.ends.senders > 0
  {
    if s.rx.pc == Parked {
      assert RxOwed(s);
      assert SlotOK(s, s.rx.head);
    }
  }
}

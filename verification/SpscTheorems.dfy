/**
 What the invariant of the SPSC ring means, in every reachable state and along every run: it refines a
 bounded FIFO queue although each side works with stale copies of the other's counter.
 */
module SpscTheorems {
  import opened Arith
  import opened Common
  import opened SpscMachine
  import opened SpscInvariant

  lemma {:induction false} RunKeepsInv(run: seq<State>, i: nat)
    requires IsRun(run) && Init(run[0]) && i < |run|
    ensures Inv(run[i])
  {
    if i == 0 {
      InvInit(run[0]);
    } else {
      RunKeepsInv(run, i - 1);
      hide Inv;
      assert Next(run[i - 1], run[i]);
      var m :| Enabled(run[i - 1], m) && run[i] == Apply(run[i - 1], m);
      InvStep(run[i - 1], m);
    }
  }

  lemma ReachableInv(s: State)
    requires Reachable(s)
    ensures Inv(s)
  {
    var run :| IsRun(run) && Init(run[0]) && run[|run| - 1] == s;
    RunKeepsInv(run, |run| - 1);
  }

  /** The two counters bound each other through the cached copies, so no subtraction underflows; nothing
      is read that is not there, and nothing is overwritten. */
  lemma NoFault(s: State)
    requires Reachable(s)
    ensures !s.hist.fault
    ensures s.tx.cachedHead <= s.head <= s.rx.head <= s.rx.cachedTail <= s.tail <= s.tx.tail <= s.tx.cachedHead + s.cap
  {
    ReachableInv(s);
  }

  /** The slot that the sender is about to write is not the one that the receiver is about to read; the
      first is empty and the second is full. */
  lemma SlotsAreExclusive(s: State)
    requires Reachable(s)
    ensures 0 < s.cap == |s.buf|
    ensures s.tx.pc.Write? ==> s.buf[SlotOf(s.tx.tail, s.cap)] == None
    ensures s.rx.pc.Take? || s.rx.pc.DrainTake? ==>
              s.rx.head < |s.hist.log| && s.buf[SlotOf(s.rx.head, s.cap)] == Some(s.hist.log[s.rx.head])
  {
    ReachableInv(s);
    assert s.tx.pc.Write? ==> SlotOK(s, s.tx.tail);
    assert SlotOK(s, s.rx.head);
  }

  // ---------- the ring refines a bounded FIFO queue ----------

  /** The queue that the ring implements: what has been published and not moved out. */
  function Queue(s: State): seq<Ticket>
    requires s.rx.head <= s.tail <= |s.hist.log|
  {
    s.hist.log[s.rx.head..s.tail]
  }

  /** What a move does to the queue: the store of the tail appends the payload of that call, the receiver's
      read takes the oldest one, and nothing else changes it. */
  ghost predicate QueueStep(s: State, m: Move, s': State)
    requires s.rx.head <= s.tail <= |s.hist.log| && s'.rx.head <= s'.tail <= |s'.hist.log|
  {
    if m.StepTx? && s.tx.pc == StoreTail then
      |s.hist.log| == s.tail + 1 && Queue(s') == Queue(s) + [s.hist.log[s.tail]] && s'.hist.delivered == s.hist.delivered
    else if m.StepRx? && (s.rx.pc.Take? || s.rx.pc.DrainTake?) then
      |Queue(s)| > 0 && Queue(s') == Queue(s)[1..] && s'.hist.delivered == s.hist.delivered + [Queue(s)[0]]
    else
      Queue(s') == Queue(s) && s'.hist.delivered == s.hist.delivered
  }

  /** The payload that the store of the tail publishes is the one that the same call has written. */
  lemma WriteLogsOwnPayload(s: State, v: Ticket)
    requires Reachable(s) && s.tx.pc == Write(v)
    ensures Enabled(s, StepTx) && Apply(s, StepTx).tx.pc == StoreTail
    ensures s.tail == |s.hist.log| && Apply(s, StepTx).hist.log == s.hist.log + [v] && Apply(s, StepTx).tail == s.tail
  {
    ReachableInv(s);
    hide SlotOf;
  }

  lemma CountersBound(s: State)
    requires Inv(s)
    ensures s.rx.head <= s.tail <= |s.hist.log| && s.tail <= s.rx.head + s.cap
    ensures s.tx.tail == |s.hist.log| == s.tail + (if s.tx.pc == StoreTail then 1 else 0)
  {
  }

  lemma TxKeepsQueue(s: State)
    requires TxEnabled(s) && s.tx.pc != StoreTail
    ensures TxStep(s).tail == s.tail && TxStep(s).rx == s.rx && s.hist.log <= TxStep(s).hist.log
    ensures TxStep(s).hist.delivered == s.hist.delivered
  {
    hide SlotOf;
  }

  lemma TxRefines(s: State, s': State)
    requires Inv(s) && TxEnabled(s) && s' == TxStep(s) && Inv(s')
    ensures s.rx.head <= s.tail <= |s.hist.log| && s'.rx.head <= s'.tail <= |s'.hist.log|
    ensures QueueStep(s, StepTx, s')
  {
    hide Inv, SlotOf, StepCheckGone, StepReloadHead, StepWrite;
    CountersBound(s);
    CountersBound(s');
    if s.tx.pc == StoreTail {
      assert Queue(s') == Queue(s) + [s.hist.log[s.tail]];
    } else {
      TxKeepsQueue(s);
      hide TxStep;
      assert Queue(s') == Queue(s);
    }
  }

  lemma RxKeepsQueue(s: State, unwinds: bool)
    requires Enabled(s, StepRx(unwinds)) && !s.rx.pc.Take? && !s.rx.pc.DrainTake?
    ensures RxStep(s, unwinds).tail == s.tail && RxStep(s, unwinds).rx.head == s.rx.head && RxStep(s, unwinds).hist == s.hist
  {
  }

  lemma MoveOutTakesOldest(s: State, pc: RxPC, s': State)
    requires Inv(s) && s.rx.head < s.tail && s' == MoveOut(s, pc)
    ensures s.rx.head <= s.tail <= |s.hist.log| && s'.rx.head <= s'.tail <= |s'.hist.log|
    ensures |Queue(s)| > 0 && Queue(s') == Queue(s)[1..] && s'.hist.delivered == s.hist.delivered + [Queue(s)[0]]
  {
    assert SlotOK(s, s.rx.head);
    CountersBound(s);
    hide Inv;
  }

  lemma RxRefines(s: State, unwinds: bool, s': State)
    requires Inv(s) && Enabled(s, StepRx(unwinds)) && s' == RxStep(s, unwinds)
    ensures s.rx.head <= s.tail <= |s.hist.log| && s'.rx.head <= s'.tail <= |s'.hist.log|
    ensures QueueStep(s, StepRx(unwinds), s')
  {
    assert s.rx.pc.Take? || s.rx.pc.DrainTake? ==> s.rx.head < s.tail;
    CountersBound(s);
    hide Inv, MoveOut;
    if s.rx.pc.Take? {
      MoveOutTakesOldest(s, StoreHead, s');
    } else if s.rx.pc.DrainTake? {
      MoveOutTakesOldest(s, Callback(s.rx.pc.count + 1, s.rx.pc.max), s');
    } else {
      RxKeepsQueue(s, unwinds);
    }
  }

  /** Every move of either side is a step of a FIFO queue that never holds more than `cap`, although each side works
      with a stale copy of the other's counter. */
  lemma RefinesBoundedFifo(s: State, m: Move)
    requires Reachable(s) && Enabled(s, m)
    ensures s.rx.head <= s.tail <= |s.hist.log| && |Queue(s)| <= s.cap
    ensures Apply(s, m).rx.head <= Apply(s, m).tail <= |Apply(s, m).hist.log|
    ensures QueueStep(s, m, Apply(s, m))
  {
    ReachableInv(s);
    InvStep(s, m);
    CountersBound(s);
    hide Inv;
    match m
    case StepTx => TxRefines(s, TxStep(s));
    case StepRx(u) => RxRefines(s, u, RxStep(s, u));
    case _ =>
      assert Queue(Apply(s, m)) == Queue(s);
  }

  /** Delivery is FIFO: what has been delivered is the log of accepted payloads, from its beginning, in
      order and without gaps, and in the order in which the payloads were offered. */
  lemma DeliveredIsPrefixOfLog(s: State)
    requires Reachable(s)
    ensures s.hist.delivered <= s.hist.log && |s.hist.delivered| == s.rx.head
    ensures forall i, j :: 0 <= i < j < |s.hist.delivered| ==> s.hist.delivered[i] < s.hist.delivered[j]
  {
    ReachableInv(s);
  }

  // ---------- Full, Empty and Disconnected ----------

  /** The queue as the shared head bounds it: what the sender must leave in place. */
  function Unreleased(s: State): seq<Ticket>
    requires s.head <= s.tail <= |s.hist.log|
  {
    s.hist.log[s.head..s.tail]
  }

  /** The move ends an attempt to send `v`, or starts it anew, without the receiver's flag being up: `Full`. */
  predicate SaysFull(s: State, m: Move, s': State) {
    && m.StepTx? && PayloadOf(s.tx.pc).Some? && !(s.tx.pc.CheckGone? && s.disconnected)
    && (s'.tx.pc == Idle || s'.tx.pc.CheckGone?)
  }

  /** The move lets the attempt go on to the slot. */
  predicate SaysRoom(s: State, m: Move, s': State) {
    m.StepTx? && s'.tx.pc.Write?
  }

  lemma TxDecides(s: State, s': State)
    requires Inv(s) && TxEnabled(s) && s' == TxStep(s)
    ensures s.head <= s.tail <= |s.hist.log|
    ensures SaysFull(s, StepTx, s') <==> s.tx.pc.ReloadHead? && |Unreleased(s)| == s.cap
    ensures SaysRoom(s, StepTx, s') ==> |Unreleased(s)| < s.cap
  {
    CountersBound(s);
    assert s.tx.cachedHead <= s.head;
    hide Window, Delivery, Fates, Ordered, Reaped, SlotOf;
  }

  /** `Full` is decided exactly when the sender reloads the shared head and the queue that it bounds is full, by no
      other move and however stale the cached head was; and whenever an attempt goes on, there is true room.
      A failed attempt has left slots, tail and log alone. */
  lemma FullIsExact(s: State, m: Move)
    requires Reachable(s) && Enabled(s, m)
    ensures s.head <= s.tail <= |s.hist.log|
    ensures SaysFull(s, m, Apply(s, m)) <==> m.StepTx? && s.tx.pc.ReloadHead? && |Unreleased(s)| == s.cap
    ensures SaysRoom(s, m, Apply(s, m)) ==> |Unreleased(s)| < s.cap
    ensures SaysFull(s, m, Apply(s, m)) ==>
              Apply(s, m).buf == s.buf && Apply(s, m).tail == s.tail && Apply(s, m).hist.log == s.hist.log
  {
    ReachableInv(s);
    CountersBound(s);
    CountersShared(s);
    hide Inv, SlotOf, StepWrite;
    if m.StepTx? {
      TxDecides(s, TxStep(s));
    }
  }

  lemma CountersShared(s: State)
    requires Inv(s)
    ensures s.head <= s.rx.head <= s.tail
  {
  }

  /** The move finds nothing to receive: `try_recv` goes on to look at the flag, or a drain ends. */
  predicate SaysEmpty(s: State, m: Move, s': State) {
    && m.StepRx?
    && (s'.rx.pc == LoadGone || (s.rx.pc.DrainReload? && s'.rx.pc.DrainStore?))
  }

  /** The move goes on to read a slot. */
  predicate SaysReady(m: Move, s': State) {
    (m.StepRx? || m.StartRecv? || m.StartDrain?) && (s'.rx.pc == Take || s'.rx.pc.DrainTake?)
  }

  lemma RxDecides(s: State, unwinds: bool, s': State)
    requires Inv(s) && Enabled(s, StepRx(unwinds)) && s' == RxStep(s, unwinds)
    ensures s.rx.head <= s.tail <= |s.hist.log|
    ensures SaysEmpty(s, StepRx(unwinds), s') <==> (s.rx.pc.ReloadTail? || s.rx.pc.DrainReload?) && Queue(s) == []
    ensures SaysReady(StepRx(unwinds), s') ==> Queue(s) != []
  {
    CountersBound(s);
    assert s.rx.head <= s.rx.cachedTail <= s.tail;
    hide Window, Delivery, Fates, Ordered, Reaped, SlotOf;
  }

  /** Emptiness is decided exactly when the receiver reloads the tail and the queue is empty, by no other move and
      however stale the cached tail was; and whenever a slot is to be read, the queue holds something.
      `Empty` itself is returned only after such a decision (see `EmptyFollowsDecision`). */
  lemma EmptyIsExact(s: State, m: Move)
    requires Reachable(s) && Enabled(s, m)
    ensures s.rx.head <= s.tail <= |s.hist.log|
    ensures SaysEmpty(s, m, Apply(s, m)) <==> m.StepRx? && (s.rx.pc.ReloadTail? || s.rx.pc.DrainReload?) && Queue(s) == []
    ensures SaysReady(m, Apply(s, m)) ==> Queue(s) != []
  {
    ReachableInv(s);
    CountersBound(s);
    match m
    case StepRx(u) => hide Inv; RxDecides(s, u, RxStep(s, u));
    case StartRecv => assert s.rx.head <= s.rx.cachedTail <= s.tail;
    case StartDrain(max) => assert s.rx.head <= s.rx.cachedTail <= s.tail;
    case _ =>
  }

  /** `try_recv` ends without a payload only from the load of the flag that follows the decision, when the flag
      is down, or from the second reload, when the queue is empty and the sender gone. */
  lemma EmptyFollowsDecision(s: State, unwinds: bool)
    requires Reachable(s) && Enabled(s, StepRx(unwinds)) && !s.rx.pc.StoreHead? && !s.rx.pc.DrainStore?
    ensures s.rx.head <= s.tail <= |s.hist.log|
    ensures RxStep(s, unwinds).rx.pc == Resting <==>
              (s.rx.pc == LoadGone && !s.disconnected) || (s.rx.pc == ReloadAgain && Queue(s) == [] && s.tx.pc == Gone)
  {
    ReachableInv(s);
    CountersBound(s);
    hide Window, Delivery, Fates, Ordered, Reaped, SlotOf;
  }

  /** The second load of the tail is what makes `Disconnected` sound: the flag is up only after the
      sender's last publish, so that load sees everything. */
  lemma DisconnectedIsLossless(s: State)
    requires Reachable(s) && s.rx.drained
    ensures s.tx.pc == Gone && s.hist.delivered == s.hist.log
  {
    ReachableInv(s);
  }

  /** ... and final: it holds for ever, nothing more is accepted, and the receiver's queue stays empty. */
  lemma {:induction false} DisconnectedIsFinal(run: seq<State>, i: nat, j: nat)
    requires IsRun(run) && Init(run[0]) && i <= j < |run| && run[i].rx.drained
    ensures run[j].rx.drained && run[j].hist.log == run[i].hist.log && run[j].tail == run[j].rx.head && run[j].disconnected
  {
    hide Inv, Init, Enabled, Apply;
    if i < j {
      DisconnectedIsFinal(run, i, j - 1);
      RunKeepsInv(run, j - 1);
      assert Next(run[j - 1], run[j]);
      var m :| Enabled(run[j - 1], m) && run[j] == Apply(run[j - 1], m);
      DrainedStays(run[j - 1], m);
    }
    RunKeepsInv(run, j);
    DrainedMeansEmpty(run[j]);
  }

  lemma DrainedMeansEmpty(s: State)
    requires Inv(s) && s.rx.drained
    ensures s.tail == s.rx.head && s.disconnected
  {
  }

  lemma DrainedStays(s: State, m: Move)
    requires Inv(s) && Enabled(s, m) && s.rx.drained
    ensures Apply(s, m).rx.drained && Apply(s, m).hist.log == s.hist.log
  {
    if m.StepRx? { assert !s.rx.pc.Take? && !s.rx.pc.DrainTake?; }
    hide Inv;
  }

  // ---------- conservation ----------

  /** Where payloads end: handed back inside an error, delivered, or dropped by Shared::drop. */
  function Ended(s: State): seq<Ticket> {
    s.hist.returned + s.hist.delivered + (if s.hist.dropped.Some? then s.hist.dropped.value else [])
  }

  /** When both handles are gone every payload ever passed to `send` or `try_send` has ended in exactly one
      place and exactly once, also when callbacks unwound or a send raced the receiver's drop. */
  lemma EveryPayloadEndsOnce(s: State)
    requires Reachable(s) && s.hist.dropped.Some?
    ensures forall v :: 0 <= v < |s.hist.fate| ==> v in Ended(s)
    ensures forall i, j :: 0 <= i < j < |Ended(s)| ==> Ended(s)[i] != Ended(s)[j]
    ensures forall i :: 0 <= i < |Ended(s)| ==> Ended(s)[i] < |s.hist.fate|
    ensures s.hist.delivered + s.hist.dropped.value == s.hist.log
  {
    hide Reachable, Inv, Ended;
    ReachableInv(s);
    EndedIs(s);
    forall v | 0 <= v < |s.hist.fate| ensures v in Ended(s) {
      EndedCovers(s, v);
    }
    forall i, j | 0 <= i < j < |Ended(s)| ensures Ended(s)[i] != Ended(s)[j] {
      EndedFate(s, i);
      EndedFate(s, j);
    }
    forall i | 0 <= i < |Ended(s)| ensures Ended(s)[i] < |s.hist.fate| {
      EndedFate(s, i);
    }
  }

  lemma EndedCovers(s: State, v: Ticket)
    requires Inv(s) && s.hist.dropped.Some? && v < |s.hist.fate|
    ensures v in Ended(s)
  {
    EndedIs(s);
    assert FateOK(s, v);
    match s.hist.fate[v]
    case Held => assert false;
    case HandedBack(i) => assert Ended(s)[i] == v;
    case Accepted(q) => assert Ended(s)[|s.hist.returned| + q] == v;
  }

  lemma EndedIs(s: State)
    requires Inv(s) && s.hist.dropped.Some?
    ensures s.hist.delivered + s.hist.dropped.value == s.hist.log
    ensures Ended(s) == s.hist.returned + s.hist.log
  {
    assert s.head == s.rx.head && s.tail == |s.hist.log|;
    assert s.hist.log[..s.head] + s.hist.log[s.head..s.tail] == s.hist.log;
  }

  lemma EndedFate(s: State, k: nat)
    requires Inv(s) && s.hist.dropped.Some? && k < |Ended(s)|
    ensures Ended(s)[k] < |s.hist.fate|
    ensures s.hist.fate[Ended(s)[k]] == if k < |s.hist.returned| then HandedBack(k) else Accepted(k - |s.hist.returned|)
  {
    EndedIs(s);
  }

  /** One `drain` takes at most `max` and at most `cap` payloads, however fast the sender refills. */
  lemma DrainIsBounded(s: State)
    requires Reachable(s)
    requires s.rx.pc.DrainReload? || s.rx.pc.DrainTake? || s.rx.pc.Callback? || s.rx.pc.DrainStore?
    ensures s.rx.head == s.head + s.rx.pc.count && s.rx.pc.count <= s.cap
    ensures !s.rx.pc.DrainStore? ==> s.rx.pc.count <= s.rx.pc.max
  {
    ReachableInv(s);
  }
}

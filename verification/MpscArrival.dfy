/**
 The wakes that sleepers of the MPSC ring are owed arrive. Some waking threads hand a sleeping receiver its
 token by a bounded number of their own moves, although several of them compete for the handle's lock; and
 the receiver hands a sleeping producer its token by a bounded number of its own.
 */
module MpscArrival {
  import opened Arith
  import opened Common
  import opened MpscMachine
  import opened MpscInvariant
  import opened MpscWake
  import opened MpscTheorems

  /** Every step of the run is a move of a thread that is inside `Parker::wake`. */
  ghost predicate WakersRun(run: seq<State>) {
    |run| > 0 && forall i, j {:trigger run[i], run[j]} :: 0 <= i && j == i + 1 && j < |run| ==> WakerStep(run[i], run[j])
  }

  ghost predicate WakerStep(s: State, s': State) {
    exists t :: WakerMoves(s, t, s')
  }

  ghost predicate WakerMoves(s: State, t: Tid, s': State) {
    t in s.prods && Waking(s.prods[t].pc) && Enabled(s, StepProd(t, false)) && s' == ProdStep(s, t, false)
  }

  lemma Prepend(s: State, t: Tid, rest: seq<State>)
    requires WakersRun(rest) && WakerMoves(s, t, rest[0])
    ensures WakersRun([s] + rest)
  {
    hide WakerMoves;
    var run := [s] + rest;
    forall i, j {:trigger run[i], run[j]} | 0 <= i && j == i + 1 && j < |run| ensures WakerStep(run[i], run[j]) {
      if i > 0 { assert run[i] == rest[i - 1] && run[j] == rest[j - 1]; }
    }
  }

  /** A waker's step, and what it leaves as it was. */
  lemma Steps(s: State, t: Tid) returns (s': State)
    requires WakeInv(s) && t in s.prods && Waking(s.prods[t].pc) && ProdEnabled(s, t, false)
    ensures WakerMoves(s, t, s') && WakeInv(s') && s' == ProdStep(s, t, false)
  {
    hide RxWake, AllTxWake, ProdStep;
    InvIsWellShaped(s);
    s' := ProdStep(s, t, false);
    hide Inv, WakeInv;
    WakeStep(s, StepProd(t, false));
  }

  /** The receiver sleeps without a token. */
  predicate RxAsleep(s: State) {
    s.rx.pc == Parked && !s.rx.token
  }

  lemma FromUnpark(s: State, t: Tid) returns (run: seq<State>)
    requires WakeInv(s) && RxAsleep(s) && At(s, t, WakeUnpark(s.rx.tid))
    ensures WakersRun(run) && run[0] == s && |run| == 2 && run[1].rx == s.rx.(token := true)
  {
    var s' := Steps(s, t);
    hide WakeInv, WakerMoves, RxWake, AllTxWake, Inv;
    run := [s] + [s'];
    Prepend(s, t, [s']);
  }

  lemma FromTake(s: State, t: Tid) returns (run: seq<State>)
    requires WakeInv(s) && RxAsleep(s) && At(s, t, WakeTake) && s.wait.registered == Some(s.rx.tid) && s.wait.slotLock == None
    ensures WakersRun(run) && run[0] == s && |run| == 3 && run[2].rx == s.rx.(token := true)
  {
    var s' := Steps(s, t);
    assert At(s', t, WakeUnpark(s.rx.tid)) && s'.rx == s.rx;
    hide WakeInv, WakerMoves, WakersRun;
    var rest := FromUnpark(s', t);
    run := [s] + rest;
    Prepend(s, t, rest);
  }

  /** If another waker holds the lock, it holds it for this receiver. */
  lemma FromAnyTake(s: State, t: Tid) returns (run: seq<State>)
    requires WakeInv(s) && RxAsleep(s) && At(s, t, WakeTake) && s.wait.registered == Some(s.rx.tid)
    ensures WakersRun(run) && run[0] == s && |run| <= 3 && run[|run| - 1].rx == s.rx.(token := true)
  {
    match s.wait.slotLock
    case None =>
      run := FromTake(s, t);
    case Some(u) =>
      assert At(s, u, WakeUnpark(s.rx.tid));
      run := FromUnpark(s, u);
  }

  lemma FromClear(s: State, t: Tid) returns (run: seq<State>)
    requires WakeInv(s) && RxAsleep(s) && s.wait.registered == Some(s.rx.tid) && At(s, t, WakeClear)
    ensures WakersRun(run) && run[0] == s && |run| <= 4 && run[|run| - 1].rx == s.rx.(token := true)
  {
    var s' := Steps(s, t);
    assert s'.rx == s.rx && s'.wait.registered == s.wait.registered && At(s', t, WakeTake);
    hide WakeInv, WakerMoves, WakersRun;
    var rest := FromAnyTake(s', t);
    run := [s] + rest;
    Prepend(s, t, rest);
  }

  lemma FromLoad(s: State, t: Tid) returns (run: seq<State>)
    requires WakeInv(s) && RxAsleep(s) && s.wait.registered == Some(s.rx.tid) && s.wait.parked && At(s, t, WakeLoad)
    ensures WakersRun(run) && run[0] == s && |run| <= 5 && run[|run| - 1].rx == s.rx.(token := true)
  {
    var s' := Steps(s, t);
    assert s'.rx == s.rx && s'.wait.registered == s.wait.registered && At(s', t, WakeClear);
    hide WakeInv, WakerMoves, WakersRun;
    var rest := FromClear(s', t);
    run := [s] + rest;
    Prepend(s, t, rest);
  }

  /** From any moment at which the receiver sleeps although its slot is published or no sender is left, at most
      four moves of waking threads hand it the token. */
  lemma OwedWakeArrives(s: State) returns (run: seq<State>)
    requires Reachable(s) && RxAsleep(s)
    requires 0 < s.cap == |s.ring.slots| && (Published(s, s.rx.head) || s.ends.senders == 0)
    ensures WakersRun(run) && run[0] == s && |run| <= 5 && run[|run| - 1].rx == s.rx.(token := true)
  {
    hide Reachable, WakeInv, WakersRun;
    ConsumerWakeupIsNotLost(s);
    ReachableInv(s);
    if t :| At(s, t, WakeUnpark(s.rx.tid)) {
      run := FromUnpark(s, t);
    } else if t :| s.wait.registered == Some(s.rx.tid) && At(s, t, WakeTake) {
      run := FromAnyTake(s, t);
    } else {
      var t :| s.wait.registered == Some(s.rx.tid) && s.wait.parked && (At(s, t, WakeLoad) || At(s, t, WakeClear));
      if At(s, t, WakeClear) { run := FromClear(s, t); } else { run := FromLoad(s, t); }
    }
  }

  // ---------- the producers ----------

  /** Every step of the run is a move of the receiver. */
  ghost predicate ReceiversRun(run: seq<State>) {
    |run| > 0 && forall i, j {:trigger run[i], run[j]} :: 0 <= i && j == i + 1 && j < |run| ==> ReceiverMoves(run[i], run[j])
  }

  ghost predicate ReceiverMoves(s: State, s': State) {
    Enabled(s, StepCons(false)) && s' == ConsStep(s, false)
  }

  lemma PrependRx(s: State, rest: seq<State>)
    requires ReceiversRun(rest) && ReceiverMoves(s, rest[0])
    ensures ReceiversRun([s] + rest)
  {
    hide ReceiverMoves;
    var run := [s] + rest;
    forall i, j {:trigger run[i], run[j]} | 0 <= i && j == i + 1 && j < |run| ensures ReceiverMoves(run[i], run[j]) {
      if i > 0 { assert run[i] == rest[i - 1] && run[j] == rest[j - 1]; }
    }
  }

  predicate TxAsleep(s: State, t: Tid) {
    t in s.prods && s.prods[t].pc.Park? && !s.prods[t].token
  }

  /** Unparking the list one by one reaches the producer. */
  lemma {:induction false} FromUnparkAll(s: State, t: Tid) returns (run: seq<State>)
    requires WellShaped(s) && TxAsleep(s, t) && s.rx.pc.UnparkAll? && t in s.rx.pc.rest
    ensures ReceiversRun(run) && run[0] == s && |run| <= |s.rx.pc.rest| + 1
    ensures t in run[|run| - 1].prods && run[|run| - 1].prods[t].token
    decreases |s.rx.pc.rest|
  {
    hide StepProbeAgain, StepProbeSenders, StepStoreHead, StepDrainStore, MoveOut;
    var rest := s.rx.pc.rest;
    var s' := ConsStep(s, false);
    assert ReceiverMoves(s, s');
    if rest[0] == t {
      run := [s] + [s'];
      PrependRx(s, [s']);
    } else {
      assert WellShaped(s') && s'.prods[t] == s.prods[t] && s'.rx.pc.UnparkAll? && s'.rx.pc.rest == rest[1..];
      hide ReceiverMoves, ReceiversRun, ConsStep, WellShaped;
      var later := FromUnparkAll(s', t);
      run := [s] + later;
      PrependRx(s, later);
    }
  }

  lemma FromLock(s: State, t: Tid) returns (run: seq<State>)
    requires WellShaped(s) && TxAsleep(s, t) && t in s.wait.list && s.rx.pc.LockList?
    ensures ReceiversRun(run) && run[0] == s && |run| <= |s.wait.list| + 2
    ensures t in run[|run| - 1].prods && run[|run| - 1].prods[t].token
  {
    hide StepProbeAgain, StepProbeSenders, StepStoreHead, StepDrainStore, MoveOut;
    var s' := ConsStep(s, false);
    assert ReceiverMoves(s, s') && WellShaped(s') && s'.prods == s.prods;
    var later := FromUnparkAll(s', t);
    run := [s] + later;
    PrependRx(s, later);
  }

  lemma FromSwap(s: State, t: Tid) returns (run: seq<State>)
    requires WellShaped(s) && TxAsleep(s, t) && t in s.wait.list && s.rx.pc.SwapWaiting? && s.wait.waiting
    ensures ReceiversRun(run) && run[0] == s && |run| <= |s.wait.list| + 3
    ensures t in run[|run| - 1].prods && run[|run| - 1].prods[t].token
  {
    hide StepProbeAgain, StepProbeSenders, StepStoreHead, StepDrainStore, MoveOut;
    var s' := ConsStep(s, false);
    assert ReceiverMoves(s, s') && WellShaped(s') && s'.prods == s.prods;
    var later := FromLock(s', t);
    run := [s] + later;
    PrependRx(s, later);
  }

  /** From any moment at which a producer sleeps although it could proceed, and no drain has unwound, the receiver
      alone hands it the token, by at most as many moves as there are handles to unpark, and two more. */
  lemma OwedUnparkArrives(s: State, t: Tid) returns (run: seq<State>)
    requires Reachable(s) && TxAsleep(s, t) && !s.rx.skipped
    requires s.ring.claim < Limit(s.ring.head, s.cap) || s.ends.rxDropped
    ensures ReceiversRun(run) && run[0] == s
    ensures |run| <= (if s.rx.pc.UnparkAll? then |s.rx.pc.rest| else |s.wait.list|) + 3
    ensures t in run[|run| - 1].prods && run[|run| - 1].prods[t].token
  {
    hide Reachable, Inv, WellShaped, ReceiversRun;
    ProducerWakeupIsNotLost(s, t);
    ReachesShape(s);
    if s.rx.pc.UnparkAll? {
      run := FromUnparkAll(s, t);
    } else if s.rx.pc.LockList? {
      run := FromLock(s, t);
    } else {
      run := FromSwap(s, t);
    }
  }

  lemma ReachesShape(s: State)
    requires Reachable(s)
    ensures WellShaped(s)
  {
    ReachableInv(s);
    InvIsWellShaped(s);
  }
}

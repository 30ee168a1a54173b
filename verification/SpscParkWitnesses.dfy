/**
 Why the SPSC park protocol needs both its fences and the draining of store buffers at the handle
 lock: without either there is a run that leaves the receiver asleep beside a published item.
 */
module SpscParkWitnesses {
  import opened Common
  import opened SpscPark
  import opened SpscParkInvariant
  import opened SpscParkTheorems

  lemma Go(s: State, m: Move, s': State)
    requires Reachable(s) && Enabled(s, m) && s' == Apply(s, m)
    ensures Reachable(s')
  {
    assert Next(s, s');
    hide Next, Enabled, Apply;
    var run :| IsRun(run) && Init(run[0]) && run[|run| - 1] == s;
    var longer := run + [s'];
    forall i | 0 < i < |longer| ensures Next(longer[i - 1], longer[i]) {
      if i < |run| { assert Next(run[i - 1], run[i]); }
    }
    assert IsRun(longer) && longer[|longer| - 1] == s';
  }

  // ---------- pieces of runs ----------

  /** `recv` on an empty ring, up to the registration. */
  lemma ReceiverFindsEmpty(s: State)
    requires Reachable(s) && s.rx.pc == Idle && s.rx.ctr == s.rx.cached == s.tail && !s.gone && s.rx.buf == []
    ensures Reachable(s.(rx := s.rx.(pc := PrepLock)))
  {
    hide Reachable;
    var s1 := s.(rx := s.rx.(pc := Reload(true)));
    Go(s, StartOp(Rx, true), s1);
    var s2 := s.(rx := s.rx.(pc := LoadGone(true)));
    Go(s1, Step(Rx, false), s2);
    Go(s2, Step(Rx, false), s.(rx := s.rx.(pc := PrepLock)));
  }

  /** The registration: the handle is in place and the flag is stored. */
  lemma ReceiverRegisters(s: State)
    requires Reachable(s) && s.rx.pc == PrepLock && s.rx.buf == [] && s.rxParker.lock == None
    ensures Reachable(s.(rx := s.rx.(pc := PrepFence, buf := [SetParked(Rx, true)]), rxParker := s.rxParker.(registered := true)))
  {
    hide Reachable;
    var s1 := s.(rx := s.rx.(pc := PrepFlag), rxParker := s.rxParker.(registered := true));
    Go(s, Step(Rx, false), s1);
    Go(s1, Step(Rx, false), s1.(rx := s1.rx.(pc := PrepFence, buf := [SetParked(Rx, true)])));
  }

  /** Past the fence, the re-check finds nothing and the receiver parks. */
  lemma ReceiverParks(s: State)
    requires Reachable(s) && s.rx.pc == PrepFence && (s.cfg.fences ==> s.rx.buf == []) && s.rx.ctr == s.tail && !s.gone
    requires SetGone !in s.rx.buf
    ensures Reachable(s.(rx := s.rx.(pc := Park)))
  {
    hide Reachable;
    var s1 := s.(rx := s.rx.(pc := RecheckCtr));
    Go(s, Step(Rx, false), s1);
    var s2 := s.(rx := s.rx.(pc := RecheckGone));
    Go(s1, Step(Rx, false), s2);
    Go(s2, Step(Rx, false), s.(rx := s.rx.(pc := Park)));
  }

  /** A whole `recv` on an empty ring, with fences, up to the park. */
  lemma ReceiverSleeps(s: State)
    requires Reachable(s) && s.rx.pc == Idle && s.rx.ctr == s.rx.cached == s.tail && !s.gone && s.rx.buf == []
    requires s.rxParker.lock == None
    ensures Reachable(s.(rx := s.rx.(pc := Park), rxParker := Parker(true, true, None)))
  {
    hide Reachable;
    ReceiverFindsEmpty(s);
    ReceiverRegisters(s.(rx := s.rx.(pc := PrepLock)));
    var s1 := s.(rx := s.rx.(pc := PrepFence, buf := [SetParked(Rx, true)]), rxParker := s.rxParker.(registered := true));
    var s2 := s.(rx := s.rx.(pc := PrepFence), rxParker := Parker(true, true, None));
    Go(s1, Flush(Rx), s2);
    ReceiverParks(s2);
  }

  /** `try_send` with room by the cached head, up to the fence. */
  function Stored(s: State): State {
    s.(tx := s.tx.(pc := Fence, ctr := s.tx.ctr + 1, pub := s.tx.ctr + 1, buf := s.tx.buf + [SetCtr(s.tx.ctr + 1)]))
  }

  lemma SenderStores(s: State)
    requires Reachable(s) && s.tx.pc == Idle && s.tx.ctr < s.tx.cached + s.cfg.cap && !s.gone && SetGone !in s.tx.buf
    ensures Reachable(Stored(s))
  {
    hide Reachable;
    var s1 := s.(tx := s.tx.(pc := CheckGone(false)));
    Go(s, StartOp(Tx, false), s1);
    var s2 := s.(tx := s.tx.(ctr := s.tx.ctr + 1, pc := StoreCtr(true)));
    Go(s1, Step(Tx, false), s2);
    Go(s2, Step(Tx, false), Stored(s));
  }

  /** The sender passes its fence and sees the flag down. */
  lemma SenderSkipsWake(s: State)
    requires Reachable(s) && s.tx.pc == Fence && (s.cfg.fences ==> s.tx.buf == []) && !s.rxParker.parked
    requires Forwarded(s.tx.buf, Rx) == None
    ensures Reachable(s.(tx := s.tx.(pc := Idle)))
  {
    hide Reachable;
    var s1 := s.(tx := s.tx.(pc := WakeLoad(Rx, Done)));
    Go(s, Step(Tx, false), s1);
    Go(s1, Step(Tx, false), s.(tx := s.tx.(pc := Idle)));
  }

  function Start(fences: bool, lockDrains: bool): State {
    State(Config(2, fences, lockDrains), Thread(Idle, 0, 0, 0, false, []), Thread(Idle, 0, 0, 0, false, []),
          0, 0, false, Parker(false, false, None), Parker(false, false, None), false)
  }

  lemma StartIsReachable(fences: bool, lockDrains: bool)
    ensures Reachable(Start(fences, lockDrains))
  {
    var s := Start(fences, lockDrains);
    assert IsRun([s]) && [s][0] == s && [s][|[s]| - 1] == s;
  }

  /** Nothing is left to do: the sleeper's wait is over, the peer is idle and both buffers are empty. */
  predicate Stranded(s: State) {
    Asleep(s, Rx) && CanProceed(s, Rx) && s.tx.pc == Idle && Drained(s, Tx) && Drained(s, Rx)
  }

  // ---------- without fences ----------

  /** Both sides check before either store has reached memory. */
  lemma WithoutFencesAWakeupIsLost() returns (s: State)
    ensures Reachable(s) && !s.cfg.fences && s.cfg.lockDrains && Stranded(s) && s.tail == 1 && s.rx.ctr == 0
  {
    hide Reachable;
    var s0 := Start(false, true);
    StartIsReachable(false, true);
    ReceiverFindsEmpty(s0);
    ReceiverRegisters(s0.(rx := s0.rx.(pc := PrepLock)));
    var s1 := s0.(rx := s0.rx.(pc := PrepFence, buf := [SetParked(Rx, true)]), rxParker := Parker(false, true, None));
    SenderStores(s1);
    SenderSkipsWake(Stored(s1));
    var s2 := Stored(s1).(tx := Stored(s1).tx.(pc := Idle));
    ReceiverParks(s2);
    var s3 := s2.(rx := s2.rx.(pc := Park));
    var s4 := s3.(rx := s3.rx.(buf := []), rxParker := Parker(true, true, None));
    Go(s3, Flush(Rx), s4);
    s := s4.(tx := s4.tx.(buf := []), tail := 1);
    Go(s4, Flush(Tx), s);
  }

  // ---------- without the drain at the lock ----------

  /** The sender wakes a parked receiver; its `parked = false` is still buffered when it is done. */
  lemma SenderWakesLate(s: State)
    requires Reachable(s) && s.tx.pc == Fence && s.tx.buf == [] && !s.cfg.lockDrains && s.rxParker == Parker(true, true, None)
    ensures Reachable(s.(tx := s.tx.(pc := Idle, buf := [SetParked(Rx, false)]), rx := s.rx.(token := true),
                         rxParker := Parker(true, false, None)))
  {
    hide Reachable;
    SenderLowersFlag(s);
    var s3 := s.(tx := s.tx.(pc := WakeLock(Rx, Done), buf := [SetParked(Rx, false)]));
    var s4 := s3.(tx := s3.tx.(pc := WakeUnpark(Rx, Done)), rxParker := Parker(true, false, Some(Tx)));
    Go(s3, Step(Tx, false), s4);
    Go(s4, Step(Tx, false), s4.(tx := s4.tx.(pc := Idle), rx := s4.rx.(token := true), rxParker := Parker(true, false, None)));
  }

  lemma SenderLowersFlag(s: State)
    requires Reachable(s) && s.tx.pc == Fence && s.tx.buf == [] && s.rxParker.parked
    ensures Reachable(s.(tx := s.tx.(pc := WakeLock(Rx, Done), buf := [SetParked(Rx, false)])))
  {
    hide Reachable;
    var s1 := s.(tx := s.tx.(pc := WakeLoad(Rx, Done)));
    Go(s, Step(Tx, false), s1);
    var s2 := s.(tx := s.tx.(pc := WakeClear(Rx, Done)));
    Go(s1, Step(Tx, false), s2);
    Go(s2, Step(Tx, false), s.(tx := s.tx.(pc := WakeLock(Rx, Done), buf := [SetParked(Rx, false)])));
  }

  /** The woken receiver takes the one item there is. */
  lemma ReceiverTakes(s: State)
    requires Reachable(s) && s.cfg.fences && s.rx == Thread(Park, 0, 0, 0, true, []) && s.tail == 1 && !s.txParker.parked
    requires s.rxParker == Parker(true, false, None) && !s.skipped
    ensures Reachable(s.(rx := Thread(Idle, 1, 1, 1, false, []), head := 1, rxParker := Parker(false, false, None)))
  {
    hide Reachable;
    var s1 := s.(rx := Thread(ClearFlag, 0, 0, 0, false, []));
    Go(s, Step(Rx, false), s1);
    var s2 := s.(rx := Thread(Reload(true), 0, 0, 0, false, [SetParked(Rx, false)]));
    Go(s1, Step(Rx, false), s2);
    var s3 := s.(rx := Thread(StoreCtr(true), 1, 0, 1, false, [SetParked(Rx, false)]));
    Go(s2, Step(Rx, false), s3);
    var s4 := s.(rx := Thread(Fence, 1, 1, 1, false, [SetParked(Rx, false), SetCtr(1)]));
    Go(s3, Step(Rx, false), s4);
    ReceiverFinishes(s4);
  }

  lemma ReceiverFinishes(s: State)
    requires Reachable(s) && s.cfg.fences && s.rx == Thread(Fence, 1, 1, 1, false, [SetParked(Rx, false), SetCtr(1)])
    requires !s.txParker.parked
    ensures Reachable(s.(rx := Thread(Idle, 1, 1, 1, false, []), head := 1, rxParker := s.rxParker.(parked := false)))
  {
    hide Reachable;
    var s1 := s.(rx := Thread(Fence, 1, 1, 1, false, [SetCtr(1)]), rxParker := s.rxParker.(parked := false));
    Go(s, Flush(Rx), s1);
    var s2 := s1.(rx := Thread(Fence, 1, 1, 1, false, []), head := 1);
    Go(s1, Flush(Rx), s2);
    var s3 := s2.(rx := Thread(WakeLoad(Tx, Done), 1, 1, 1, false, []));
    Go(s2, Step(Rx, false), s3);
    Go(s3, Step(Rx, false), s2.(rx := Thread(Idle, 1, 1, 1, false, [])));
  }

  /** The first wake's `parked = false` reaches memory only after the receiver has registered again,
      so the second send finds the flag down. The fences are all in place. */
  lemma WithoutTheDrainAtTheLockAWakeupIsLost() returns (s: State)
    ensures Reachable(s) && s.cfg.fences && !s.cfg.lockDrains && Stranded(s) && s.tail == 2 && s.rx.ctr == 1
  {
    hide Reachable;
    var s0 := Start(true, false);
    StartIsReachable(true, false);
    ReceiverSleeps(s0);
    var s1 := s0.(rx := s0.rx.(pc := Park), rxParker := Parker(true, true, None));
    SenderStores(s1);
    var s2 := s1.(tx := Thread(Fence, 1, 1, 0, false, []), tail := 1);
    Go(Stored(s1), Flush(Tx), s2);
    SenderWakesLate(s2);
    var s3 := s2.(tx := Thread(Idle, 1, 1, 0, false, [SetParked(Rx, false)]), rx := Thread(Park, 0, 0, 0, true, []),
                  rxParker := Parker(true, false, None));
    ReceiverTakes(s3);
    var s4 := s3.(rx := Thread(Idle, 1, 1, 1, false, []), head := 1, rxParker := Parker(false, false, None));
    ReceiverSleeps(s4);
    var s5 := s4.(rx := s4.rx.(pc := Park), rxParker := Parker(true, true, None));
    SenderStores(s5);
    s := SecondSend(s5);
  }

  lemma SecondSend(s: State) returns (r: State)
    requires Reachable(Stored(s)) && s.cfg.fences && s.tx == Thread(Idle, 1, 1, 0, false, [SetParked(Rx, false)])
    requires s.rx == Thread(Park, 1, 1, 1, false, []) && s.rxParker.parked
    ensures Reachable(r) && r.cfg == s.cfg && Stranded(r) && r.tail == 2 && r.rx.ctr == 1
  {
    hide Reachable;
    var s1 := Stored(s).(tx := Thread(Fence, 2, 2, 0, false, [SetCtr(2)]), rxParker := s.rxParker.(parked := false));
    Go(Stored(s), Flush(Tx), s1);
    var s2 := s1.(tx := Thread(Fence, 2, 2, 0, false, []), tail := 2);
    Go(s1, Flush(Tx), s2);
    SenderSkipsWake(s2);
    r := s2.(tx := s2.tx.(pc := Idle));
  }

  // ---------- after an unwound drain ----------

  /** A whole `try_send` with room while nobody is parked. */
  function Sent(s: State): State {
    s.(tx := s.tx.(ctr := s.tx.ctr + 1, pub := s.tx.ctr + 1), tail := s.tx.ctr + 1)
  }

  lemma SenderSends(s: State)
    requires Reachable(s) && s.cfg.fences && s.tx.pc == Idle && s.tx.ctr < s.tx.cached + s.cfg.cap && !s.gone && s.tx.buf == []
    requires !s.rxParker.parked
    ensures Reachable(Sent(s))
  {
    hide Reachable;
    SenderStores(s);
    var s1 := Sent(s).(tx := Sent(s).tx.(pc := Fence));
    Go(Stored(s), Flush(Tx), s1);
    SenderSkipsWake(s1);
    assert s1.(tx := s1.tx.(pc := Idle)) == Sent(s);
  }

  /** `send` on a full ring, up to the registration ... */
  lemma SenderFindsFull(s: State)
    requires Reachable(s) && s.tx.pc == Idle && s.tx.ctr == s.tx.cached + s.cfg.cap && s.tx.cached == s.head && !s.gone && s.tx.buf == []
    ensures Reachable(s.(tx := s.tx.(pc := PrepLock)))
  {
    hide Reachable;
    var s1 := s.(tx := s.tx.(pc := CheckGone(true)));
    Go(s, StartOp(Tx, true), s1);
    var s2 := s.(tx := s.tx.(pc := Reload(true)));
    Go(s1, Step(Tx, false), s2);
    Go(s2, Step(Tx, false), s.(tx := s.tx.(pc := PrepLock)));
  }

  /** ... and on to the park. */
  lemma SenderSleeps(s: State)
    requires Reachable(s) && s.cfg.fences && s.tx.pc == PrepLock && s.tx.ctr == s.head + s.cfg.cap && !s.gone && s.tx.buf == []
    requires s.txParker.lock == None
    ensures Reachable(s.(tx := s.tx.(pc := Park), txParker := Parker(true, true, None)))
  {
    hide Reachable;
    SenderRegisters(s);
    var s3 := s.(tx := s.tx.(pc := PrepFence), txParker := Parker(true, true, None));
    var s4 := s3.(tx := s3.tx.(pc := RecheckCtr));
    Go(s3, Step(Tx, false), s4);
    var s5 := s3.(tx := s3.tx.(pc := RecheckGone));
    Go(s4, Step(Tx, false), s5);
    Go(s5, Step(Tx, false), s3.(tx := s3.tx.(pc := Park)));
  }

  lemma SenderRegisters(s: State)
    requires Reachable(s) && s.tx.pc == PrepLock && s.tx.buf == [] && s.txParker.lock == None
    ensures Reachable(s.(tx := s.tx.(pc := PrepFence), txParker := Parker(true, true, None)))
  {
    hide Reachable;
    var s1 := s.(tx := s.tx.(pc := PrepFlag), txParker := s.txParker.(registered := true));
    Go(s, Step(Tx, false), s1);
    var s2 := s1.(tx := s1.tx.(pc := PrepFence, buf := [SetParked(Tx, true)]));
    Go(s1, Step(Tx, false), s2);
    Go(s2, Flush(Tx), s.(tx := s.tx.(pc := PrepFence), txParker := Parker(true, true, None)));
  }

  /** A `drain` whose callback unwinds at the first item: the head is stored, the wake is not made. */
  lemma ReceiverUnwinds(s: State)
    requires Reachable(s) && s.rx == Thread(Idle, 0, 0, 0, false, []) && s.tail == 2
    ensures Reachable(s.(rx := Thread(Idle, 1, 1, 2, false, []), head := 1, skipped := true))
  {
    hide Reachable;
    var s1 := s.(rx := Thread(DrainReload(0, 9), 0, 0, 0, false, []));
    Go(s, StartDrain(9), s1);
    var s2 := s.(rx := Thread(Callback(1, 9), 1, 0, 2, false, []));
    Go(s1, Step(Rx, false), s2);
    var s3 := s.(rx := Thread(StoreCtr(false), 1, 0, 2, false, []));
    Go(s2, Step(Rx, true), s3);
    var s4 := s.(rx := Thread(Idle, 1, 1, 2, false, [SetCtr(1)]), skipped := true);
    Go(s3, Step(Rx, false), s4);
    Go(s4, Flush(Rx), s.(rx := Thread(Idle, 1, 1, 2, false, []), head := 1, skipped := true));
  }

  /** The exception of `WakeupIsNotLost` is real: with fences and locks as they are, a drain that unwinds leaves
      the sender asleep beside a free slot, with the receiver done and nothing in any buffer. */
  lemma UnwoundDrainStrandsSender() returns (s: State)
    ensures Real(s) && Asleep(s, Tx) && CanProceed(s, Tx) && s.skipped
    ensures s.rx.pc == Idle && Drained(s, Tx) && Drained(s, Rx) && s.tail - s.head < s.cfg.cap
  {
    hide Reachable, Real;
    var s3 := FullAndAsleep();
    ReceiverUnwinds(s3);
    s := s3.(rx := Thread(Idle, 1, 1, 2, false, []), head := 1, skipped := true);
    ReachableIsReal(s);
  }

  /** A `drain` that takes both items and unwinds at the second. */
  lemma ReceiverUnwindsLate(s: State)
    requires Reachable(s) && s.rx == Thread(Idle, 0, 0, 0, false, []) && s.tail == 2
    ensures Reachable(s.(rx := Thread(Idle, 2, 2, 2, false, []), head := 2, skipped := true))
  {
    hide Reachable;
    var s1 := s.(rx := Thread(DrainReload(0, 9), 0, 0, 0, false, []));
    Go(s, StartDrain(9), s1);
    var s2 := s.(rx := Thread(Callback(1, 9), 1, 0, 2, false, []));
    Go(s1, Step(Rx, false), s2);
    var s3 := s.(rx := Thread(Callback(2, 9), 2, 0, 2, false, []));
    Go(s2, Step(Rx, false), s3);
    var s4 := s.(rx := Thread(StoreCtr(false), 2, 0, 2, false, []));
    Go(s3, Step(Rx, true), s4);
    var s5 := s.(rx := Thread(Idle, 2, 2, 2, false, [SetCtr(2)]), skipped := true);
    Go(s4, Step(Rx, false), s5);
    Go(s5, Flush(Rx), s.(rx := Thread(Idle, 2, 2, 2, false, []), head := 2, skipped := true));
  }

  /** A full ring of capacity 2 with the sender asleep. */
  lemma FullAndAsleep() returns (s: State)
    ensures Reachable(s) && s.cfg == Config(2, true, true) && s.tx == Thread(Park, 2, 2, 0, false, []) && s.txParker == Parker(true, true, None)
    ensures s.rx == Thread(Idle, 0, 0, 0, false, []) && s.rxParker == Parker(false, false, None)
    ensures s.tail == 2 && s.head == 0 && !s.gone && !s.skipped
  {
    hide Reachable;
    var s0 := Start(true, true);
    StartIsReachable(true, true);
    SenderSends(s0);
    SenderSends(Sent(s0));
    var s1 := s0.(tx := Thread(Idle, 2, 2, 0, false, []), tail := 2);
    assert Sent(Sent(s0)) == s1;
    SenderFindsFull(s1);
    SenderSleeps(s1.(tx := s1.tx.(pc := PrepLock)));
    s := s1.(tx := s1.tx.(pc := Park), txParker := Parker(true, true, None));
  }

  /** ... and if the drain has emptied the ring and the receiver then waits for more, both sleep for good:
      nothing is in any buffer, and neither thread can move without a spurious return. */
  lemma UnwoundDrainStrandsBoth() returns (s: State)
    ensures Real(s) && Asleep(s, Tx) && Asleep(s, Rx) && Drained(s, Tx) && Drained(s, Rx)
    ensures s.tail == s.head && !Enabled(s, Step(Tx, false)) && !Enabled(s, Step(Rx, false))
  {
    hide Reachable, Real;
    var s0 := FullAndAsleep();
    ReceiverUnwindsLate(s0);
    var s1 := s0.(rx := Thread(Idle, 2, 2, 2, false, []), head := 2, skipped := true);
    ReceiverSleeps(s1);
    s := s1.(rx := s1.rx.(pc := Park), rxParker := Parker(true, true, None));
    ReachableIsReal(s);
  }

  lemma ReachableIsReal(s: State)
    requires Reachable(s) && s.cfg.fences && s.cfg.lockDrains
    ensures Real(s)
  {
    var run: seq<State> :| IsRun(run) && Init(run[0]) && run[|run| - 1] == s;
    ConfigStays(run, |run| - 1);
  }

  lemma {:induction false} ConfigStays(run: seq<State>, i: nat)
    requires IsRun(run) && i < |run|
    ensures run[i].cfg == run[0].cfg
  {
    hide Enabled, Apply;
    if i > 0 {
      ConfigStays(run, i - 1);
      assert Next(run[i - 1], run[i]);
      var m :| Enabled(run[i - 1], m) && run[i] == Apply(run[i - 1], m);
      MoveKeepsConfig(run[i - 1], m);
    }
  }

  lemma MoveKeepsConfig(s: State, m: Move)
    requires Enabled(s, m)
    ensures Apply(s, m).cfg == s.cfg
  {
    hide Th, Pk, Ctr, Put, PutPk, PutCtr, PutFlags, Blocked, StillBlocked, LoadParked;
  }
}

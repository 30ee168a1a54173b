/**
 What the SPSC park protocol guarantees in every run on store buffers: no lost wakeup, no two
 sleepers, and an owed wake that arrives after a bounded number of the waker's own moves.
 */
module SpscParkTheorems {
  import opened Common
  import opened SpscPark
  import opened SpscParkInvariant

  // ---------- what holds in every run ----------

  lemma {:induction false} RunKeepsInv(run: seq<State>, i: nat)
    requires IsRun(run) && Init(run[0]) && run[0].cfg.fences && run[0].cfg.lockDrains && i < |run|
    ensures Inv(run[i])
  {
    if i == 0 {
      InvInit(run[0]);
    } else {
      RunKeepsInv(run, i - 1);
      hide Inv;
      assert Next(run[i - 1], run[i]);
      NextKeepsInv(run[i - 1], run[i]);
    }
  }

  lemma NextKeepsInv(s: State, s': State)
    requires Inv(s) && Next(s, s')
    ensures Inv(s')
  {
    hide Inv, Enabled, Apply;
    var m :| Enabled(s, m) && s' == Apply(s, m);
    InvStep(s, m, s');
  }

  /** A state of the real protocol: fences and locks wait for the store buffer. */
  ghost predicate Real(s: State) {
    exists run: seq<State> :: IsRun(run) && Init(run[0]) && run[0].cfg.fences && run[0].cfg.lockDrains && run[|run| - 1] == s
  }

  lemma RealInv(s: State)
    requires Real(s)
    ensures Inv(s)
  {
    hide Init, Inv;
    var run: seq<State> :| IsRun(run) && Init(run[0]) && run[0].cfg.fences && run[0].cfg.lockDrains && run[|run| - 1] == s;
    RunKeepsInv(run, |run| - 1);
  }

  /** What the side waits for has happened: the peer has stored a counter, or its disconnect, that ends the wait. */
  predicate CanProceed(s: State, x: Side) {
    !Blocked(s.cfg.cap, x, Th(s, x).ctr, Th(s, Other(x)).pub) || Dropping(Th(s, Other(x)).pc)
  }

  predicate Asleep(s: State, x: Side) {
    Th(s, x).pc.Park? && !Th(s, x).token
  }

  /** The peer is on its way to wake the sleeper and will find it: it holds the sleeper's handle, or the
      handle is registered and the peer is at the lock, or the flag is up in memory and the peer has yet
      to look at it. */
  predicate WillBeWoken(s: State, x: Side) {
    var pc := Th(s, Other(x)).pc;
    || (pc.WakeUnpark? && pc.of == x)
    || (Pk(s, x).registered && (Locking(pc, x) || (Pk(s, x).parked && Owes(pc, x))))
  }

  /** No lost wakeup: a receiver that sleeps although its wait is over, even by a store that is still in the
      peer's buffer, will be woken; and a sender will, if and only if the latest head was not stored by a
      drain that unwound. */
  lemma WakeupIsNotLost(s: State, x: Side)
    requires Real(s) && Asleep(s, x) && CanProceed(s, x)
    ensures WillBeWoken(s, x) <==> x.Rx? || !s.skipped
  {
    RealInv(s);
    hide Real, Th, Pk, Ctr, CountersOK, LockOK, Flushed, PcOK;
    assert SideInv(s, x) && GoneOK(s);
  }

  /** The two sides sleep at once only on an empty ring whose latest head was stored by a drain that unwound. */
  lemma NeverBothAsleep(s: State)
    requires Real(s) && Asleep(s, Tx) && Asleep(s, Rx)
    ensures s.skipped && Th(s, Rx).ctr == Th(s, Tx).ctr
  {
    RealInv(s);
    hide Real, Th, Pk, Ctr, BufferOK, LockOK, Findable, Flushed, PcOK, GoneOK;
    assert SideInv(s, Tx) && SideInv(s, Rx);
  }

  /** Whatever is still buffered, the true occupancy is between 0 and the capacity. */
  lemma OccupancyIsBounded(s: State)
    requires Real(s)
    ensures Th(s, Rx).ctr <= Th(s, Tx).ctr <= Th(s, Rx).ctr + s.cfg.cap
    ensures Ctr(s, Rx) <= Th(s, Rx).pub <= Th(s, Rx).ctr <= Ctr(s, Tx) <= Th(s, Tx).pub <= Th(s, Tx).ctr <= Ctr(s, Rx) + s.cfg.cap
  {
    RealInv(s);
    hide Real, Th, Ctr, BufferOK, LockOK, Findable, OwedOK, Flushed, PcOK, GoneOK;
    assert SideInv(s, Tx) && SideInv(s, Rx);
    CountsBound(Th(s, Tx).buf, Ctr(s, Tx), Th(s, Tx).pub);
    CountsBound(Th(s, Rx).buf, Ctr(s, Rx), Th(s, Rx).pub);
  }

  // ---------- the owed wake arrives ----------

  function WakeRank(pc: PC): nat {
    match pc
    case GoneFence => 9
    case Fence => 5
    case WakeLoad(_, n) => if n == WakeTx then 8 else 4
    case WakeClear(_, n) => if n == WakeTx then 7 else 3
    case WakeLock(_, n) => if n == WakeTx then 6 else 2
    case WakeUnpark(_, n) => if n == WakeTx then 5 else 1
    case _ => 0
  }

  /** How many more steps of its own the waker can need. */
  function WakeWork(th: Thread): nat {
    |th.buf| + 2 * WakeRank(th.pc)
  }

  /** The waker's next move: its buffer drains while it is at a fence or a lock. */
  function WakerMove(s: State, y: Side): Move {
    if Drained(s, y) then Step(y, false) else Flush(y)
  }

  /** The handle lock cannot be held against a waker whose sleeper is parked. */
  lemma LockIsFree(s: State, x: Side, z: Side)
    requires LockOK(s, z) && !Th(s, x).pc.WakeUnpark? && !Th(s, Other(x)).pc.WakeUnpark?
    ensures Pk(s, z).lock == None
  {
    hide Th, Pk;
    assert forall w :: w == x || !Th(s, w).pc.WakeUnpark?;
  }

  lemma WakerIsEnabled(s: State, x: Side)
    requires Inv(s) && Th(s, x).pc.Park? && Owes(Th(s, Other(x)).pc, x)
    ensures Enabled(s, WakerMove(s, Other(x)))
  {
    hide Th, Pk, Ctr, CountersOK, BufferOK, Findable, OwedOK, Flushed, GoneOK;
    assert SideInv(s, x) && SideInv(s, Other(x));
    if Th(s, Other(x)).pc.WakeLock? {
      LockIsFree(s, x, Th(s, Other(x)).pc.of);
    }
  }

  lemma WakerProgress(s: State, x: Side, s': State)
    requires Inv(s) && Asleep(s, x) && CanProceed(s, x) && Owes(Th(s, Other(x)).pc, x)
    requires Enabled(s, WakerMove(s, Other(x))) && s' == Apply(s, WakerMove(s, Other(x)))
    ensures Th(s', x) == Th(s, x).(token := Th(s', x).token) && CanProceed(s', x) && s'.skipped == s.skipped
    ensures WakeWork(Th(s', Other(x))) < WakeWork(Th(s, Other(x)))
  {
    hide Th, Pk, Ctr, Put, PutPk, PutCtr, PutFlags, CountersOK, BufferOK, LockOK, Findable, OwedOK, Flushed, GoneOK;
    assert PcOK(s, Other(x));
    if Drained(s, Other(x)) {
      WakerSteps(s, x, s');
    } else {
      assert Th(s', Other(x)) == Th(s, Other(x)).(buf := Th(s, Other(x)).buf[1..]);
    }
  }

  lemma WakerSteps(s: State, x: Side, s': State)
    requires Asleep(s, x) && CanProceed(s, x) && Owes(Th(s, Other(x)).pc, x) && PcOK(s, Other(x))
    requires Drained(s, Other(x)) && s' == StepOf(s, Other(x), false)
    ensures Th(s', x) == Th(s, x).(token := Th(s', x).token) && CanProceed(s', x) && s'.skipped == s.skipped
    ensures WakeWork(Th(s', Other(x))) < WakeWork(Th(s, Other(x)))
  {
    hide Th, StepOf, Owes, PcOK, Dropping, Blocked;
    WakerSpares(s, x, s');
    WakerShrinks(s, x, s');
  }

  /** The step touches of the sleeper only the token, and takes back nothing that it waits for. */
  lemma WakerSpares(s: State, x: Side, s': State)
    requires Asleep(s, x) && Owes(Th(s, Other(x)).pc, x) && PcOK(s, Other(x))
    requires Drained(s, Other(x)) && s' == StepOf(s, Other(x), false)
    ensures Th(s', x) == Th(s, x).(token := Th(s', x).token) && s'.skipped == s.skipped && s'.cfg == s.cfg
    ensures Th(s', Other(x)).pub == Th(s, Other(x)).pub
    ensures Dropping(Th(s, Other(x)).pc) ==> Dropping(Th(s', Other(x)).pc)
  {
    hide Th, Pk, Ctr, Put, PutPk, PutCtr, PutFlags;
    hide StepReload, StepReloadAgain, StepDrainReload, StepStoreCtr, StepStoreGone, StepRecheckCtr, DrainTest, Begin, LoadParked;
  }

  lemma WakerShrinks(s: State, x: Side, s': State)
    requires Asleep(s, x) && Owes(Th(s, Other(x)).pc, x) && PcOK(s, Other(x))
    requires Drained(s, Other(x)) && s' == StepOf(s, Other(x), false)
    ensures WakeWork(Th(s', Other(x))) < WakeWork(Th(s, Other(x)))
  {
    hide Th, Pk, Ctr, Put, PutPk, PutCtr, PutFlags;
    hide StepReload, StepReloadAgain, StepDrainReload, StepStoreCtr, StepStoreGone, StepRecheckCtr, DrainTest, Begin, LoadParked;
  }

  /** Every step of the run is the next move of thread `y`. */
  ghost predicate MovesOf(run: seq<State>, y: Side) {
    forall i, j {:trigger run[i], run[j]} :: 0 <= i && j == i + 1 && j < |run| ==>
      Enabled(run[i], WakerMove(run[i], y)) && run[j] == Apply(run[i], WakerMove(run[i], y))
  }

  lemma MovesPrepend(s: State, rest: seq<State>, y: Side)
    requires |rest| > 0 && (|rest| == 1 || MovesOf(rest, y))
    requires Enabled(s, WakerMove(s, y)) && rest[0] == Apply(s, WakerMove(s, y))
    ensures MovesOf([s] + rest, y)
  {
    hide Enabled, Apply, WakerMove;
    var run := [s] + rest;
    forall i, j {:trigger run[i], run[j]} | 0 <= i && j == i + 1 && j < |run|
      ensures Enabled(run[i], WakerMove(run[i], y)) && run[j] == Apply(run[i], WakerMove(run[i], y))
    {
      if i > 0 {
        assert run[i] == rest[i - 1] && run[j] == rest[j - 1];
      }
    }
  }

  lemma {:induction false} WakeArrives(s: State, x: Side) returns (run: seq<State>)
    requires Inv(s) && Asleep(s, x) && CanProceed(s, x) && (x.Tx? ==> !s.skipped)
    ensures |run| > 0 && MovesOf(run, Other(x)) && run[0] == s && |run| <= WakeWork(Th(s, Other(x))) + 1
    ensures Th(run[|run| - 1], x).pc.Park? && Th(run[|run| - 1], x).token
    decreases WakeWork(Th(s, Other(x)))
  {
    var y := Other(x);
    assert Owes(Th(s, y).pc, x) by {
      hide Th, Pk, Ctr, CountersOK, BufferOK, LockOK, Findable, Flushed, PcOK, GoneOK;
      assert SideInv(s, x);
    }
    hide Inv, Enabled, Apply, CanProceed, Owes, WakeWork, MovesOf;
    var m := WakerMove(s, y);
    WakerIsEnabled(s, x);
    var s' := Apply(s, m);
    WakerProgress(s, x, s');
    InvStep(s, m, s');
    if Th(s', x).token {
      MovesPrepend(s, [s'], y);
      run := [s] + [s'];
    } else {
      var rest := WakeArrives(s', x);
      run := [s] + rest;
      MovesPrepend(s, rest, y);
    }
  }

  /** The wake that a sleeper is owed arrives: the waker alone, by at most `WakeWork` moves of its own, hands it the
      token. No move of anybody else is needed. */
  lemma OwedWakeArrives(s: State, x: Side) returns (run: seq<State>)
    requires Real(s) && Asleep(s, x) && CanProceed(s, x) && (x.Tx? ==> !s.skipped)
    ensures |run| > 0 && run[0] == s && MovesOf(run, Other(x)) && |run| <= WakeWork(Th(s, Other(x))) + 1
    ensures Th(run[|run| - 1], x).pc.Park? && Th(run[|run| - 1], x).token
  {
    hide Real, Inv, MovesOf, Asleep, CanProceed, WakeWork;
    RealInv(s);
    run := WakeArrives(s, x);
  }
}

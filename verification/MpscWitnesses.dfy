/**
 Runs that show where the MPSC ring promises less than one might expect. Each is a chain of moves
 from the initial state of a small channel.
 */
module MpscWitnesses {
  import opened Arith
  import opened Common
  import opened MpscMachine
  import opened MpscTheorems

  lemma Go(s: State, m: Move, s': State)
    requires Reachable(s) && Enabled(s, m) && s' == Apply(s, m)
    ensures Reachable(s') && Next(s, s')
  {
    assert Next(s, s');
    hide Next, Enabled, Apply;
    var run :| IsRun(run) && Init(run[0]) && run[|run| - 1] == s;
    var longer := run + [s'];
    forall i | 0 < i < |longer| ensures Next(longer[i - 1], longer[i]) {
      if i < |run| { assert Next(run[i - 1], run[i]); }
    }
    assert IsRun(longer) && longer[|longer| - 1] == s';
  }

  lemma InitIsReachable(s: State)
    requires Init(s)
    ensures Reachable(s)
  {
    assert IsRun([s]) && [s][|[s]| - 1] == s;
  }

  lemma TwoMoves(s: State, s1: State, s2: State)
    requires Next(s, s1) && Next(s1, s2)
    ensures IsRun([s, s1, s2])
  {
    hide Next;
  }

  lemma ThreeMoves(s: State, s1: State, s2: State, s3: State)
    requires Next(s, s1) && Next(s1, s2) && Next(s2, s3)
    ensures IsRun([s, s1, s2, s3])
  {
    hide Next;
  }

  // ---------- pieces of runs ----------

  /** A call of `try_send` on a ring with room, up to the won claim. */
  function Claimed(s: State, t: Tid, h: Hid, blocking: bool): State
    requires t in s.prods
  {
    var op := Op(h, |s.hist.fate|, blocking, s.ring.head, 0);
    SetPC(s.(ring := s.ring.(claim := s.ring.claim + 1),
             hist := s.hist.(log := s.hist.log + [Claim(op.v, t)], fate := s.hist.fate + [Accepted(|s.hist.log|)])),
          t, Write(op, s.ring.claim))
  }

  lemma SetPCTwice(s: State, t: Tid, a: ProdPC, b: ProdPC)
    requires t in s.prods
    ensures SetPC(SetPC(s, t, a), t, b) == SetPC(s, t, b)
  {
  }

  lemma Starts(s: State, t: Tid, h: Hid, blocking: bool)
    requires Reachable(s) && WellShaped(s) && t in s.prods && s.prods[t].pc == Idle && HandleFree(s, h)
    ensures Reachable(SetPC(s.(hist := s.hist.(fate := s.hist.fate + [Held(t)])), t, CheckRx(Op(h, |s.hist.fate|, blocking, s.ring.head, 0))))
  {
    hide Reachable, ProdStep, ConsStep, StepReap;
    Go(s, StartSend(t, h, blocking),
       SetPC(s.(hist := s.hist.(fate := s.hist.fate + [Held(t)])), t, CheckRx(Op(h, |s.hist.fate|, blocking, s.ring.head, 0))));
  }

  lemma ChecksRx(s: State, t: Tid, op: Op)
    requires Reachable(s) && WellShaped(s) && t in s.prods && s.prods[t].pc == CheckRx(op) && op.v < |s.hist.fate| && !s.ends.rxDropped
    ensures Reachable(SetPC(s, t, LoadClaim(op)))
  {
    hide Reachable, ConsStep, StepReap, StepCas, StepWrite, StepPublish, StepLoadHead, StepTake, StepUnpark, GiveBack;
    Go(s, StepProd(t, false), SetPC(s, t, LoadClaim(op)));
  }

  lemma LoadsClaim(s: State, t: Tid, op: Op)
    requires Reachable(s) && WellShaped(s) && t in s.prods && s.prods[t].pc == LoadClaim(op) && op.v < |s.hist.fate|
    ensures Reachable(SetPC(s, t, Decide(s, op, s.ring.claim)))
  {
    hide Reachable, ConsStep, StepReap, StepCas, StepWrite, StepPublish, StepLoadHead, StepTake, StepUnpark, GiveBack;
    Go(s, StepProd(t, false), SetPC(s, t, Decide(s, op, s.ring.claim)));
  }

  lemma WinsClaim(s: State, t: Tid, op: Op)
    requires Reachable(s) && WellShaped(s) && t in s.prods && s.prods[t].pc == Cas(op, s.ring.claim) && op.v < |s.hist.fate|
    ensures Reachable(StepCas(s, t, op, s.ring.claim, false))
  {
    hide Reachable, ConsStep, StepReap, StepCas, StepWrite, StepPublish, StepLoadHead, StepTake, StepUnpark, GiveBack;
    Go(s, StepProd(t, false), StepCas(s, t, op, s.ring.claim, false));
  }

  lemma CasYieldsClaimed(s: State, s3: State, t: Tid, op: Op)
    requires t in s.prods && op.h in s.ends.handles && op == Op(op.h, |s.hist.fate|, op.blocking, s.ring.head, 0)
    requires s3 == SetPC(s.(hist := s.hist.(fate := s.hist.fate + [Held(t)])), t, Cas(op, s.ring.claim))
    requires !s.hist.fault && s.ring.claim < USIZE_MAX
    ensures StepCas(s3, t, op, s.ring.claim, false) == Claimed(s, t, op.h, op.blocking)
  {
    assert s3.hist.fate[op.v := Accepted(|s.hist.log|)] == s.hist.fate + [Accepted(|s.hist.log|)];
  }

  lemma Claims(s: State, t: Tid, h: Hid, blocking: bool)
    requires Reachable(s) && WellShaped(s) && t in s.prods && s.prods[t].pc == Idle && HandleFree(s, h)
    requires !s.ends.rxDropped && s.ring.claim < Limit(s.ends.handles[h], s.cap) && !s.hist.fault
    ensures Reachable(Claimed(s, t, h, blocking))
  {
    hide Reachable, StepCas;
    var op := Op(h, |s.hist.fate|, blocking, s.ring.head, 0);
    var held := s.(hist := s.hist.(fate := s.hist.fate + [Held(t)]));
    Starts(s, t, h, blocking);
    ChecksRx(SetPC(held, t, CheckRx(op)), t, op);
    SetPCTwice(held, t, CheckRx(op), LoadClaim(op));
    LoadsClaim(SetPC(held, t, LoadClaim(op)), t, op);
    SetPCTwice(held, t, LoadClaim(op), Cas(op, s.ring.claim));
    WinsClaim(SetPC(held, t, Cas(op, s.ring.claim)), t, op);
    CasYieldsClaimed(s, SetPC(held, t, Cas(op, s.ring.claim)), t, op);
  }

  /** ... and from there to the published slot. */
  lemma Publishes(s: State, t: Tid, op: Op, q: nat)
    requires Reachable(s) && WellShaped(s) && t in s.prods && s.prods[t].pc == Write(op, q) && op.v < |s.hist.fate|
    ensures Reachable(StepPublish(StepWrite(s, t, op, q), t, q))
    ensures IsRun([s, StepWrite(s, t, op, q), StepPublish(StepWrite(s, t, op, q), t, q)])
  {
    hide Reachable, ConsStep, StepReap, StepCas, StepLoadHead, StepTake, StepUnpark, GiveBack, Tag, SlotOf;
    var s1 := StepWrite(s, t, op, q);
    Go(s, StepProd(t, false), s1);
    Go(s1, StepProd(t, false), StepPublish(s1, t, q));
    TwoMoves(s, s1, StepPublish(s1, t, q));
  }

  /** A blocking `send` on a full ring, up to the park. */
  function Blocked(s: State, t: Tid, h: Hid): State
    requires t in s.prods
  {
    SetPC(s.(ends := s.ends.(handles := s.ends.handles[h := s.ring.head]),
             wait := s.wait.(list := s.wait.list + [t], waiting := true),
             hist := s.hist.(fate := s.hist.fate + [Held(t)])),
          t, Park(Op(h, |s.hist.fate|, true, s.ring.head, 0)))
  }

  lemma FindsFull(s: State, t: Tid, op: Op, q: nat)
    requires Reachable(s) && WellShaped(s) && t in s.prods && s.prods[t].pc == LoadHead(op, q) && op.v < |s.hist.fate|
    requires q >= Limit(s.ring.head, s.cap) && op.blocking && s.park
    ensures Reachable(SetPC(s.(ends := s.ends.(handles := s.ends.handles[op.h := s.ring.head])), t, PushList(op)))
  {
    hide Reachable, ConsStep, StepReap, StepCas, StepWrite, StepPublish, StepTake, StepUnpark, GiveBack;
    Go(s, StepProd(t, false), SetPC(s.(ends := s.ends.(handles := s.ends.handles[op.h := s.ring.head])), t, PushList(op)));
  }

  lemma Lists(s: State, t: Tid, op: Op)
    requires Reachable(s) && WellShaped(s) && t in s.prods && s.prods[t].pc == PushList(op) && op.v < |s.hist.fate| && ListUnlocked(s)
    ensures Reachable(SetPC(s.(wait := s.wait.(list := s.wait.list + [t], waiting := true)), t, ReloadClaim(op)))
  {
    hide Reachable, ConsStep, StepReap, StepCas, StepWrite, StepPublish, StepLoadHead, StepTake, StepUnpark, GiveBack;
    var s1 := SetPC(s.(wait := s.wait.(list := s.wait.list + [t])), t, SetWaiting(op));
    Go(s, StepProd(t, false), s1);
    var s2 := s.(wait := s.wait.(list := s.wait.list + [t], waiting := true));
    SetPCTwice(s2, t, SetWaiting(op), ReloadClaim(op));
    Go(s1, StepProd(t, false), SetPC(s2, t, ReloadClaim(op)));
  }

  lemma FallsAsleep(s: State, t: Tid, op: Op)
    requires Reachable(s) && WellShaped(s) && t in s.prods && s.prods[t].pc == ReloadClaim(op) && op.v < |s.hist.fate|
    requires s.ring.claim >= Limit(s.ring.head, s.cap) && !s.ends.rxDropped
    ensures Reachable(SetPC(s, t, Park(op)))
  {
    hide Reachable, ConsStep, StepReap, StepCas, StepWrite, StepPublish, StepLoadHead, StepTake, StepUnpark, GiveBack;
    var s1 := SetPC(s, t, ReloadHead(op, s.ring.claim));
    Go(s, StepProd(t, false), s1);
    var s2 := SetPC(s, t, ReloadRx(op));
    Go(s1, StepProd(t, false), s2);
    Go(s2, StepProd(t, false), SetPC(s, t, Park(op)));
  }

  lemma Blocks(s: State, t: Tid, h: Hid)
    requires Reachable(s) && WellShaped(s) && t in s.prods && s.prods[t].pc == Idle && HandleFree(s, h)
    requires !s.ends.rxDropped && s.park && ListUnlocked(s)
    requires s.ring.claim >= Limit(s.ends.handles[h], s.cap) && s.ring.claim >= Limit(s.ring.head, s.cap)
    ensures Reachable(Blocked(s, t, h))
  {
    hide Reachable;
    var op := Op(h, |s.hist.fate|, true, s.ring.head, 0);
    var held := s.(hist := s.hist.(fate := s.hist.fate + [Held(t)]));
    Starts(s, t, h, true);
    ChecksRx(SetPC(held, t, CheckRx(op)), t, op);
    SetPCTwice(held, t, CheckRx(op), LoadClaim(op));
    LoadsClaim(SetPC(held, t, LoadClaim(op)), t, op);
    SetPCTwice(held, t, LoadClaim(op), LoadHead(op, s.ring.claim));
    FindsFull(SetPC(held, t, LoadHead(op, s.ring.claim)), t, op, s.ring.claim);
    var cached := held.(ends := held.ends.(handles := held.ends.handles[h := s.ring.head]));
    SetPCTwice(cached, t, LoadHead(op, s.ring.claim), PushList(op));
    Lists(SetPC(cached, t, PushList(op)), t, op);
    var listed := cached.(wait := cached.wait.(list := cached.wait.list + [t], waiting := true));
    SetPCTwice(listed, t, PushList(op), ReloadClaim(op));
    FallsAsleep(SetPC(listed, t, ReloadClaim(op)), t, op);
    SetPCTwice(listed, t, ReloadClaim(op), Park(op));
  }

  /** A `drain` whose callback unwinds at the first item. */
  function Unwound(s: State): State
    requires 0 < s.cap == |s.ring.slots| && SlotAt(s, s.rx.head).cell.Some?
  {
    var i := SlotOf(s.rx.head, s.cap);
    s.(ring := s.ring.(slots := s.ring.slots[i := s.ring.slots[i].(cell := None)], head := s.rx.head + 1),
       hist := s.hist.(delivered := s.hist.delivered + [s.ring.slots[i].cell.value]),
       rx := s.rx.(pc := Resting, head := s.rx.head + 1, skipped := true))
  }

  lemma DrainReaches(s: State)
    requires Reachable(s) && WellShaped(s) && s.rx.pc == Resting && Published(s, s.rx.head)
    ensures Reachable(SetRx(s, DrainTake(0, 1)))
  {
    hide Reachable, ProdStep, StepReap, StepUnparkAll, StepProbeAgain, StepProbeSenders, MoveOut, StepStoreHead, StepDrainStore, Tag, SlotOf;
    var s1 := SetRx(s, DrainLoad(0, 1));
    Go(s, StartDrain(1), s1);
    Go(s1, StepCons(false), SetRx(s, DrainTake(0, 1)));
  }

  lemma DrainUnwinds(s: State)
    requires Reachable(s) && WellShaped(s) && s.rx.pc == DrainTake(0, 1)
    ensures Reachable(StepDrainStore(SetRx(MoveOut(s, Callback(1, 1)), DrainStore(1, true)), 1, true))
  {
    hide Reachable, ProdStep, StepReap, StepUnparkAll, StepProbeAgain, StepProbeSenders, StepStoreHead, StepDrainStore, Tag, SlotOf;
    var s1 := MoveOut(s, Callback(1, 1));
    Go(s, StepCons(false), s1);
    var s2 := SetRx(s1, DrainStore(1, true));
    hide MoveOut;
    Go(s1, StepCons(true), s2);
    Go(s2, StepCons(false), StepDrainStore(s2, 1, true));
  }

  lemma DrainsAndUnwinds(s: State)
    requires Reachable(s) && WellShaped(s) && s.rx.pc == Resting && !s.hist.fault && s.rx.head < USIZE_MAX
    requires Published(s, s.rx.head) && SlotAt(s, s.rx.head).cell.Some?
    ensures Reachable(Unwound(s))
  {
    hide Reachable, SlotOf, Tag;
    DrainReaches(s);
    DrainUnwinds(SetRx(s, DrainTake(0, 1)));
  }

  lemma {:induction false} SpinsOut(s: State, left: nat)
    requires Reachable(s) && WellShaped(s) && s.rx.pc == Spin(left) && !Published(s, s.rx.head)
    ensures Reachable(SetRx(s, PrepSlot))
    decreases left
  {
    hide Reachable, ProdStep, StepReap, StepUnparkAll, StepProbeAgain, StepProbeSenders, MoveOut, StepStoreHead, StepDrainStore, Tag, SlotOf;
    if left <= 1 {
      Go(s, StepCons(false), SetRx(s, PrepSlot));
    } else {
      var s1 := SetRx(s, Spin(left - 1));
      Go(s, StepCons(false), s1);
      SpinsOut(s1, left - 1);
    }
  }

  /** A `recv` on an empty ring, up to the park. */
  function Asleep(s: State): State {
    s.(wait := s.wait.(registered := Some(s.rx.tid), parked := true), rx := s.rx.(pc := Parked))
  }

  lemma FindsEmpty(s: State)
    requires Reachable(s) && WellShaped(s) && s.rx.pc == Resting && s.park && s.ends.senders > 0 && !Published(s, s.rx.head)
    ensures Reachable(SetRx(s, Spin(PARK_SPINS)))
  {
    hide Reachable, ProdStep, StepReap, StepUnparkAll, StepProbeAgain, MoveOut, StepStoreHead, StepDrainStore, Tag, SlotOf;
    var s1 := SetRx(s, Probe(true));
    Go(s, StartRecv(true), s1);
    var s2 := SetRx(s, ProbeSenders(true));
    Go(s1, StepCons(false), s2);
    Go(s2, StepCons(false), SetRx(s, Spin(PARK_SPINS)));
  }

  lemma ReceiverParks(s: State)
    requires Reachable(s) && WellShaped(s) && s.rx.pc == PrepSlot && s.ends.senders > 0 && !Published(s, s.rx.head) && s.wait.slotLock == None
    ensures Reachable(Asleep(s))
  {
    hide Reachable, ProdStep, StepReap, StepUnparkAll, StepProbeAgain, StepProbeSenders, MoveOut, StepStoreHead, StepDrainStore, Tag, SlotOf;
    var s1 := s.(wait := s.wait.(registered := Some(s.rx.tid)), rx := s.rx.(pc := PrepFlag));
    Go(s, StepCons(false), s1);
    var s2 := s.(wait := s.wait.(registered := Some(s.rx.tid), parked := true), rx := s.rx.(pc := RecheckRound));
    Go(s1, StepCons(false), s2);
    var s3 := SetRx(s2, RecheckSenders);
    Go(s2, StepCons(false), s3);
    Go(s3, StepCons(false), Asleep(s));
  }

  lemma Sleeps(s: State)
    requires Reachable(s) && WellShaped(s) && s.rx.pc == Resting && s.park && s.ends.senders > 0 && !Published(s, s.rx.head) && s.wait.slotLock == None
    ensures Reachable(Asleep(s))
  {
    hide Reachable;
    FindsEmpty(s);
    SpinsOut(SetRx(s, Spin(PARK_SPINS)), PARK_SPINS);
    ReceiverParks(SetRx(s, PrepSlot));
  }

  /** A waker that finds nobody parked. */
  lemma WakesNobody(s: State, t: Tid)
    requires Reachable(s) && WellShaped(s) && t in s.prods && s.prods[t].pc == WakeLoad && !s.wait.parked
    ensures Reachable(SetPC(s, t, Idle))
  {
    hide Reachable, ConsStep, StepReap, StepCas, StepWrite, StepPublish, StepLoadHead, StepTake, StepUnpark, GiveBack;
    Go(s, StepProd(t, false), SetPC(s, t, Idle));
  }

  // ---------- an unwound drain loses a wakeup ----------

  /** A channel of capacity 1 with strategy Park, one sender handle used by thread 0, and a receiver
      used by thread 7. */
  function Small(ring: Ring, cached: nat, wait: Parking, pc: ProdPC, rx: Consumer, hist: History): State {
    State(1, true, ring, Ends(map[0 := cached], 1, false), wait, map[0 := Producer(pc, false)], rx, hist)
  }

  const AWAKE := Parking(false, None, None, false, [])
  const RESTING := Consumer(Resting, 0, 7, false, false, false)
  const ONE_SENT := History([Claim(0, 0)], [], [Accepted(0)], [], None, false)

  function Start(): State {
    Small(Ring([Slot(-1, None)], 0, 0), 0, AWAKE, Idle, RESTING, History([], [], [], [], None, false))
  }

  /** The first payload is in the ring and the ring is full. */
  function Filled(): State {
    Small(Ring([Slot(0, Some(0))], 1, 0), 0, AWAKE, Idle, RESTING, ONE_SENT)
  }

  lemma StartClaims()
    ensures Reachable(Small(Ring([Slot(-1, None)], 1, 0), 0, AWAKE, Write(Op(0, 0, false, 0, 0), 0), RESTING, ONE_SENT))
  {
    hide Reachable;
    InitIsReachable(Start());
    Claims(Start(), 0, 0, false);
    assert Claimed(Start(), 0, 0, false)
        == Small(Ring([Slot(-1, None)], 1, 0), 0, AWAKE, Write(Op(0, 0, false, 0, 0), 0), RESTING, ONE_SENT);
  }

  lemma FillsUp()
    ensures Reachable(Filled())
  {
    hide Reachable;
    var op := Op(0, 0, false, 0, 0);
    StartClaims();
    var s := Small(Ring([Slot(-1, None)], 1, 0), 0, AWAKE, Write(op, 0), RESTING, ONE_SENT);
    Publishes(s, 0, op, 0);
    var s' := Small(Ring([Slot(0, Some(0))], 1, 0), 0, AWAKE, WakeLoad, RESTING, ONE_SENT);
    assert StepPublish(StepWrite(s, 0, op, 0), 0, 0) == s';
    WakesNobody(s', 0);
    assert SetPC(s', 0, Idle) == Filled();
  }

  /** The second payload waits in a parked `send`. */
  function SenderAsleep(): State {
    Small(Ring([Slot(0, Some(0))], 1, 0), 0, AWAKE.(waiting := true, list := [0]), Park(Op(0, 1, true, 0, 0)),
          RESTING, ONE_SENT.(fate := [Accepted(0), Held(0)]))
  }

  lemma SecondSendBlocks()
    ensures Reachable(SenderAsleep())
  {
    hide Reachable;
    FillsUp();
    Blocks(Filled(), 0, 0);
    assert Blocked(Filled(), 0, 0) == SenderAsleep();
  }

  /** The receiver has drained the only payload, with a callback that unwound, and waits for more. */
  function BothAsleep(): State {
    Small(Ring([Slot(0, None)], 1, 1), 0, Parking(true, Some(7), None, true, [0]), Park(Op(0, 1, true, 0, 0)),
          Consumer(Parked, 1, 7, false, false, true),
          History([Claim(0, 0)], [0], [Accepted(0), Held(0)], [], None, false))
  }

  lemma ReceiverFallsAsleep()
    ensures Reachable(BothAsleep())
  {
    hide Reachable;
    SecondSendBlocks();
    DrainsAndUnwinds(SenderAsleep());
    var s := Small(Ring([Slot(0, None)], 1, 1), 0, AWAKE.(waiting := true, list := [0]), Park(Op(0, 1, true, 0, 0)),
                   Consumer(Resting, 1, 7, false, false, true),
                   History([Claim(0, 0)], [0], [Accepted(0), Held(0)], [], None, false));
    assert Unwound(SenderAsleep()) == s;
    Sleeps(s);
    assert Asleep(s) == BothAsleep();
  }

  /** The wake that an unwound `drain` skips is not made up for by the next operation: the ring is empty,
      the sender sleeps although there is room, the receiver's next `recv` sleeps too, and nobody in
      the system can move. The condition of `NeverBothAsleep` is needed. */
  lemma UnwoundDrainCanDeadlock()
    ensures exists s :: Reachable(s) && Stuck(s) && s.rx.pc == Parked && s.rx.skipped
              && s.ring.claim < Limit(s.ring.head, s.cap)
              && exists t :: t in s.prods && s.prods[t].pc.Park?
  {
    hide Reachable;
    ReceiverFallsAsleep();
    var s := BothAsleep();
    assert Stuck(s);
    assert 0 in s.prods && s.prods[0].pc.Park?;
  }

  // ---------- the saturation point ----------

  /** `n` payloads have been sent through a channel of capacity 1 and received, one by one. */
  function Cycled(n: nat): State
    requires n > 0
  {
    Small(Ring([Slot(Tag(n - 1, 1), None)], n, n), n - 1, AWAKE, Idle, RESTING.(head := n),
          History(seq(n, (i: nat) => Claim(i, 0)), seq(n, (i: nat) => i), seq(n, (i: nat) => Accepted(i)), [], None, false))
  }

  /** A `try_send` that has to refresh its cached head, up to the won claim. */
  function Reclaimed(s: State, t: Tid, h: Hid): State
    requires t in s.prods
  {
    Claimed(s.(ends := s.ends.(handles := s.ends.handles[h := s.ring.head])), t, h, false)
  }

  lemma FindsRoom(s: State, t: Tid, op: Op, q: nat)
    requires Reachable(s) && WellShaped(s) && t in s.prods && s.prods[t].pc == LoadHead(op, q) && op.v < |s.hist.fate|
    requires q < Limit(s.ring.head, s.cap)
    ensures Reachable(SetPC(s.(ends := s.ends.(handles := s.ends.handles[op.h := s.ring.head])), t, Cas(op, q)))
  {
    hide Reachable, ConsStep, StepReap, StepCas, StepWrite, StepPublish, StepTake, StepUnpark, GiveBack;
    Go(s, StepProd(t, false), SetPC(s.(ends := s.ends.(handles := s.ends.handles[op.h := s.ring.head])), t, Cas(op, q)));
  }

  lemma Reclaims(s: State, t: Tid, h: Hid)
    requires Reachable(s) && WellShaped(s) && t in s.prods && s.prods[t].pc == Idle && HandleFree(s, h)
    requires !s.ends.rxDropped && s.ring.claim >= Limit(s.ends.handles[h], s.cap) && s.ring.claim < Limit(s.ring.head, s.cap) && !s.hist.fault
    ensures Reachable(Reclaimed(s, t, h))
  {
    hide Reachable, StepCas;
    var op := Op(h, |s.hist.fate|, false, s.ring.head, 0);
    var held := s.(hist := s.hist.(fate := s.hist.fate + [Held(t)]));
    Starts(s, t, h, false);
    ChecksRx(SetPC(held, t, CheckRx(op)), t, op);
    SetPCTwice(held, t, CheckRx(op), LoadClaim(op));
    LoadsClaim(SetPC(held, t, LoadClaim(op)), t, op);
    SetPCTwice(held, t, LoadClaim(op), LoadHead(op, s.ring.claim));
    FindsRoom(SetPC(held, t, LoadHead(op, s.ring.claim)), t, op, s.ring.claim);
    RefreshThenClaim(s, held, t, h, op);
  }

  lemma RefreshThenClaim(s: State, held: State, t: Tid, h: Hid, op: Op)
    requires WellShaped(s) && t in s.prods && s.prods[t].pc == Idle && HandleFree(s, h) && !s.hist.fault && s.ring.claim < USIZE_MAX
    requires op == Op(h, |s.hist.fate|, false, s.ring.head, 0) && held == s.(hist := s.hist.(fate := s.hist.fate + [Held(t)]))
    requires Reachable(SetPC(SetPC(held, t, LoadHead(op, s.ring.claim)).(ends := s.ends.(handles := s.ends.handles[h := s.ring.head])),
                             t, Cas(op, s.ring.claim)))
    ensures Reachable(Reclaimed(s, t, h))
  {
    hide Reachable, StepCas;
    var cached := s.(ends := s.ends.(handles := s.ends.handles[h := s.ring.head]));
    var s3 := SetPC(cached.(hist := s.hist.(fate := s.hist.fate + [Held(t)])), t, Cas(op, s.ring.claim));
    assert s3 == SetPC(SetPC(held, t, LoadHead(op, s.ring.claim)).(ends := cached.ends), t, Cas(op, s.ring.claim));
    WinsClaim(s3, t, op);
    CasYieldsClaimed(cached, s3, t, op);
  }

  /** `try_recv` of a published payload while no producer waits. */
  lemma Receives(s: State)
    requires Reachable(s) && WellShaped(s) && s.rx.pc == Resting && s.park && !s.wait.waiting && !s.rx.skipped && !s.hist.fault
    requires Published(s, s.rx.head) && SlotAt(s, s.rx.head).cell.Some? && s.rx.head < USIZE_MAX
    ensures Reachable(Received1(s))
  {
    hide Reachable, ProdStep, StepReap, StepUnparkAll, StepProbeAgain, StepProbeSenders, MoveOut, StepStoreHead, StepDrainStore, Tag, SlotOf;
    var s1 := SetRx(s, Probe(false));
    Go(s, StartRecv(false), s1);
    var s2 := SetRx(s, Take);
    Go(s1, StepCons(false), s2);
    TakesAndStores(s, s2);
  }

  /** The state after it. */
  function Received1(s: State): State
    requires 0 < s.cap == |s.ring.slots| && SlotAt(s, s.rx.head).cell.Some?
  {
    var i := SlotOf(s.rx.head, s.cap);
    s.(ring := s.ring.(slots := s.ring.slots[i := s.ring.slots[i].(cell := None)], head := s.rx.head + 1),
       hist := s.hist.(delivered := s.hist.delivered + [s.ring.slots[i].cell.value]),
       rx := s.rx.(head := s.rx.head + 1))
  }

  lemma TakesAndStores(s: State, s2: State)
    requires Reachable(s2) && WellShaped(s) && s2 == SetRx(s, Take) && s.rx.pc == Resting && s.park && !s.wait.waiting && !s.rx.skipped
    requires SlotAt(s, s.rx.head).cell.Some? && s.rx.head < USIZE_MAX && !s.hist.fault
    ensures Reachable(Received1(s))
  {
    hide Reachable, ProdStep, StepReap, StepUnparkAll, StepProbeAgain, StepProbeSenders, StepDrainStore, Tag, SlotOf;
    var s3 := MoveOut(s2, StoreHead);
    Go(s2, StepCons(false), s3);
    var s4 := StepStoreHead(s3);
    Go(s3, StepCons(false), s4);
    Go(s4, StepCons(false), Received1(s));
  }

  /** One more payload goes through. */
  lemma CycleStep(n: nat)
    requires 0 < n < USIZE_MAX && Reachable(Cycled(n))
    ensures Reachable(Cycled(n + 1))
  {
    hide Reachable;
    RoundAtCapacityOne(n);
    SlotAtCapacityOne(n);
    Reclaims(Cycled(n), 0, 0);
    CyclePublishes(n);
    Receives(Refilled(n));
    CycleEnds(n);
  }

  /** Payload `n` is in the ring. */
  function Refilled(n: nat): State
    requires n > 0
  {
    Small(Ring([Slot(Tag(n, 1), Some(n))], n + 1, n), n, AWAKE, Idle, RESTING.(head := n),
          History(seq(n, (i: nat) => Claim(i, 0)) + [Claim(n, 0)], seq(n, (i: nat) => i),
                  seq(n, (i: nat) => Accepted(i)) + [Accepted(n)], [], None, false))
  }

  lemma CyclePublishes(n: nat)
    requires n > 0 && Reachable(Reclaimed(Cycled(n), 0, 0))
    ensures Reachable(Refilled(n))
  {
    hide Reachable, Tag;
    SlotAtCapacityOne(n);
    var op := Op(0, n, false, n, 0);
    var s1 := Reclaimed(Cycled(n), 0, 0);
    Publishes(s1, 0, op, n);
    var s2 := StepPublish(StepWrite(s1, 0, op, n), 0, n);
    WakesNobody(s2, 0);
    assert SetPC(s2, 0, Idle) == Refilled(n);
  }

  lemma CycleEnds(n: nat)
    requires n > 0
    ensures SlotAt(Refilled(n), n).cell.Some? && Received1(Refilled(n)) == Cycled(n + 1)
  {
    hide Tag;
    SlotAtCapacityOne(n);
    assert seq(n, (i: nat) => Claim(i, 0)) + [Claim(n, 0)] == seq(n + 1, (i: nat) => Claim(i, 0));
    assert seq(n, (i: nat) => i) + [n] == seq(n + 1, (i: nat) => i);
    assert seq(n, (i: nat) => Accepted(i)) + [Accepted(n)] == seq(n + 1, (i: nat) => Accepted(i));
  }

  lemma {:induction false} Cycles(n: nat)
    requires 0 < n <= USIZE_MAX
    ensures Reachable(Cycled(n))
  {
    hide Reachable;
    if n == 1 {
      FillsUp();
      Receives(Filled());
      assert Received1(Filled()) == Cycled(1);
    } else {
      Cycles(n - 1);
      CycleStep(n - 1);
    }
  }

  /** After `usize::MAX` payloads the saturated bound makes an empty ring look full: `send` parks on it, the
      receiver parks too, and nobody in the system can move. No callback has unwound. */
  lemma SaturationCanDeadlock()
    ensures exists s :: Reachable(s) && Stuck(s) && s.rx.pc == Parked && !s.rx.skipped
              && s.ring.head == s.ring.claim == USIZE_MAX && s.ends.senders > 0
              && exists t :: t in s.prods && s.prods[t].pc.Park?
  {
    hide Reachable, Cycled;
    Cycles(USIZE_MAX);
    SaturatedSleeps(USIZE_MAX, Cycled(USIZE_MAX));
  }

  lemma SaturatedSleeps(n: nat, s: State)
    requires n == USIZE_MAX && s == Cycled(n) && Reachable(s)
    ensures exists s' :: Reachable(s') && Stuck(s') && s'.rx.pc == Parked && !s'.rx.skipped
              && s'.ring.head == s'.ring.claim == USIZE_MAX && s'.ends.senders > 0
              && exists t :: t in s'.prods && s'.prods[t].pc.Park?
  {
    hide Reachable;
    Blocks(s, 0, 0);
    var s1 := Blocked(s, 0, 0);
    SaturatedIsUnpublished(n);
    SlotAtCapacityOne(n);
    Sleeps(s1);
    var s2 := Asleep(s1);
    assert Stuck(s2);
    assert 0 in s2.prods && s2.prods[0].pc.Park?;
  }

  lemma SaturatedIsUnpublished(n: nat)
    requires n == USIZE_MAX
    ensures Tag(n - 1, 1) != Tag(n, 1)
  {
    TagIsNeverTheMark(n - 1, 1);
    TagOfMaxIsTheMark();
  }

  // ---------- Empty after another sender's Ok ----------

  /** A channel of capacity 2 without parking, used by threads 0 and 1 with handles 0 and 1. */
  function Pair(ring: Ring, handles: map<Hid, nat>, pc0: ProdPC, pc1: ProdPC, rx: ConsPC, hist: History): State {
    State(2, false, ring, Ends(handles, |handles|, false), AWAKE, map[0 := Producer(pc0, false), 1 := Producer(pc1, false)],
          RESTING.(pc := rx), hist)
  }

  const TWO_SLOTS := [Slot(-1, None), Slot(-1, None)]

  lemma PairStarts()
    ensures Reachable(Pair(Ring(TWO_SLOTS, 0, 0), map[0 := 0, 1 := 0], Idle, Idle, Resting, History([], [], [], [], None, false)))
  {
    hide Reachable, ProdStep, ConsStep, StepReap;
    var none := History([], [], [], [], None, false);
    var s := Pair(Ring(TWO_SLOTS, 0, 0), map[0 := 0], Idle, Idle, Resting, none);
    InitIsReachable(s);
    Go(s, CloneSender(0, 1), Pair(Ring(TWO_SLOTS, 0, 0), map[0 := 0, 1 := 0], Idle, Idle, Resting, none));
  }

  /** Both have claimed; thread 0 has not written yet. */
  function BothClaimed(pc1: ProdPC, slot1: Slot, rx: ConsPC): State {
    Pair(Ring([Slot(-1, None), slot1], 2, 0), map[0 := 0, 1 := 0], Write(Op(0, 0, false, 0, 0), 0), pc1, rx,
         History([Claim(0, 0), Claim(1, 1)], [], [Accepted(0), Accepted(1)], [], None, false))
  }

  lemma BothClaim()
    ensures Reachable(BothClaimed(Write(Op(1, 1, false, 0, 0), 1), Slot(-1, None), Resting))
  {
    hide Reachable;
    PairStarts();
    var s := Pair(Ring(TWO_SLOTS, 0, 0), map[0 := 0, 1 := 0], Idle, Idle, Resting, History([], [], [], [], None, false));
    Claims(s, 0, 0, false);
    var s1 := Pair(Ring(TWO_SLOTS, 1, 0), map[0 := 0, 1 := 0], Write(Op(0, 0, false, 0, 0), 0), Idle, Resting,
                   History([Claim(0, 0)], [], [Accepted(0)], [], None, false));
    assert Claimed(s, 0, 0, false) == s1;
    Claims(s1, 1, 1, false);
    assert Claimed(s1, 1, 1, false) == BothClaimed(Write(Op(1, 1, false, 0, 0), 1), Slot(-1, None), Resting);
  }

  lemma SecondPublishes()
    ensures Reachable(BothClaimed(Idle, Slot(0, Some(1)), Resting))
  {
    hide Reachable;
    BothClaim();
    var op := Op(1, 1, false, 0, 0);
    var s := BothClaimed(Write(op, 1), Slot(-1, None), Resting);
    Publishes(s, 1, op, 1);
    assert StepPublish(StepWrite(s, 1, op, 1), 1, 1) == BothClaimed(Idle, Slot(0, Some(1)), Resting);
  }

  /** A `try_recv` that runs alone and returns `Empty`: two probes and a look at the senders in between. */
  lemma ProbesInVain(s: State)
    requires Reachable(s) && WellShaped(s) && s.rx.pc == Resting && !Published(s, s.rx.head) && s.ends.senders > 0
    ensures IsRun([s, SetRx(s, Probe(false)), SetRx(s, ProbeSenders(false)), s])
  {
    hide Reachable, ProdStep, StepReap, StepUnparkAll, StepProbeAgain, MoveOut, StepStoreHead, StepDrainStore, Tag, SlotOf;
    var s1, s2 := SetRx(s, Probe(false)), SetRx(s, ProbeSenders(false));
    Go(s, StartRecv(false), s1);
    Go(s1, StepCons(false), s2);
    Go(s2, StepCons(false), s);
    ThreeMoves(s, s1, s2, s);
  }

  /** The payload with sequence number 1 has been published and its sender is back from `Ok`, while the
      older one is claimed and not published; nothing has been delivered, and the receiver rests. */
  ghost predicate SecondIsIn(s: State) {
    s.rx.pc == Resting && s.rx.head == 0 && s.hist.delivered == [] && s.ends.senders > 0
    && |s.hist.log| > 1 && 0 < s.cap == |s.ring.slots| && !Published(s, 0) && Published(s, 1)
    && s.hist.log[1].who in s.prods && s.prods[s.hist.log[1].who].pc == Idle
  }

  /** The ring is FIFO in claim order but not a linearizable queue for `Empty`: a whole `try_recv`, from its
      start to its end, can come after a `try_send` of sequence 1 has returned `Ok`, and still return `Empty`,
      because an earlier claim is not published yet. `EmptyIsExact` says when this happens. */
  lemma EmptyAfterAnotherOk()
    ensures exists s :: Reachable(s) && SecondIsIn(s)
              && IsRun([s, SetRx(s, Probe(false)), SetRx(s, ProbeSenders(false)), s]) && StepProbeSenders(SetRx(s, ProbeSenders(false)), false) == s
  {
    hide Reachable, IsRun;
    SecondPublishes();
    var s := BothClaimed(Idle, Slot(0, Some(1)), Resting);
    assert |map[0 := 0, 1 := 0]| == 2;
    ProbesInVain(s);
    assert SecondIsIn(s);
  }

  // ---------- a send that succeeds after the receiver is gone ----------

  /** A channel of capacity 1 without parking, used by thread 0 with handle 0. */
  function Alone(ring: Ring, ends: Ends, pc: ProdPC, rx: ConsPC, hist: History): State {
    State(1, false, ring, ends, AWAKE, map[0 := Producer(pc, false)], RESTING.(pc := rx), hist)
  }

  lemma DropsReceiver(s: State)
    requires Reachable(s) && WellShaped(s) && s.rx.pc == Resting && !s.wait.waiting && !s.rx.skipped
    ensures Reachable(s.(ends := s.ends.(rxDropped := true), rx := s.rx.(pc := Gone)))
  {
    hide Reachable, ProdStep, StepReap, StepUnparkAll, StepProbeAgain, StepProbeSenders, MoveOut, StepStoreHead, StepDrainStore;
    var s1 := SetRx(s, SetRxDropped);
    Go(s, StartDropRx, s1);
    var s2 := s.(ends := s.ends.(rxDropped := true), rx := s.rx.(pc := SwapWaiting(true)));
    Go(s1, StepCons(false), s2);
    Go(s2, StepCons(false), s.(ends := s.ends.(rxDropped := true), rx := s.rx.(pc := Gone)));
  }

  const LATE := Op(0, 0, false, 0, 0)
  const HELD := History([], [], [Held(0)], [], None, false)

  lemma CallBegins()
    ensures Reachable(Alone(Ring([Slot(-1, None)], 0, 0), Ends(map[0 := 0], 1, false), LoadClaim(LATE), Resting, HELD))
  {
    hide Reachable;
    LateStarts();
    var s := Alone(Ring([Slot(-1, None)], 0, 0), Ends(map[0 := 0], 1, false), CheckRx(LATE), Resting, HELD);
    ChecksRx(s, 0, LATE);
    assert SetPC(s, 0, LoadClaim(LATE)) == Alone(s.ring, s.ends, LoadClaim(LATE), Resting, HELD);
  }

  lemma LateStarts()
    ensures Reachable(Alone(Ring([Slot(-1, None)], 0, 0), Ends(map[0 := 0], 1, false), CheckRx(LATE), Resting, HELD))
  {
    hide Reachable;
    var s := Alone(Ring([Slot(-1, None)], 0, 0), Ends(map[0 := 0], 1, false), Idle, Resting, History([], [], [], [], None, false));
    InitIsReachable(s);
    hide Init;
    Starts(s, 0, 0, false);
    assert SetPC(s.(hist := s.hist.(fate := s.hist.fate + [Held(0)])), 0, CheckRx(LATE)) == Alone(s.ring, s.ends, CheckRx(LATE), Resting, HELD);
  }

  lemma CallBeginsBeforeDrop()
    ensures Reachable(Alone(Ring([Slot(-1, None)], 0, 0), Ends(map[0 := 0], 1, true), LoadClaim(LATE), Gone, HELD))
  {
    hide Reachable, Init;
    CallBegins();
    var s := Alone(Ring([Slot(-1, None)], 0, 0), Ends(map[0 := 0], 1, false), LoadClaim(LATE), Resting, HELD);
    DropsReceiver(s);
    assert s.(ends := s.ends.(rxDropped := true), rx := s.rx.(pc := Gone))
        == Alone(Ring([Slot(-1, None)], 0, 0), Ends(map[0 := 0], 1, true), LoadClaim(LATE), Gone, HELD);
  }

  /** The move `m` wins a claim although the receiver is gone. */
  ghost predicate ClaimsTooLate(s: State, m: Move) {
    s.rx.pc == Gone && s.ends.rxDropped && s.hist.log == [] && Enabled(s, m) && MpscTheorems.WinsClaim(s, m)
  }

  /** One payload is in the ring, undelivered, and all calls have returned, none of them with an error. */
  ghost predicate LeftInTheRing(s: State) {
    |s.hist.log| == 1 && 0 < s.cap == |s.ring.slots| && Published(s, 0) && s.hist.delivered == [] && s.hist.returned == []
    && forall t :: t in s.prods ==> s.prods[t].pc == Idle
  }

  function LateState(ring: Ring, pc: ProdPC, hist: History): State {
    Alone(ring, Ends(map[0 := 0], 1, true), pc, Gone, hist)
  }

  lemma LateClaim()
    ensures var s := LateState(Ring([Slot(-1, None)], 0, 0), Cas(LATE, 0), HELD);
            Reachable(s) && ClaimsTooLate(s, StepProd(0, false))
            && Apply(s, StepProd(0, false)) == LateState(Ring([Slot(-1, None)], 1, 0), Write(LATE, 0), ONE_SENT)
  {
    hide Reachable, ConsStep, StepReap, StepWrite, StepPublish, StepLoadHead, StepTake, StepUnpark, GiveBack;
    CallBeginsBeforeDrop();
    var s0 := LateState(Ring([Slot(-1, None)], 0, 0), LoadClaim(LATE), HELD);
    LoadsClaim(s0, 0, LATE);
    var s := LateState(Ring([Slot(-1, None)], 0, 0), Cas(LATE, 0), HELD);
    assert SetPC(s0, 0, Decide(s0, LATE, 0)) == s;
    assert StepCas(s, 0, LATE, 0, false) == LateState(Ring([Slot(-1, None)], 1, 0), Write(LATE, 0), ONE_SENT);
  }

  lemma LatePublish(s: State)
    requires Reachable(s) && s == LateState(Ring([Slot(-1, None)], 1, 0), Write(LATE, 0), ONE_SENT)
    ensures exists run :: IsRun(run) && run[0] == s && LeftInTheRing(run[|run| - 1])
  {
    hide Reachable, IsRun;
    Publishes(s, 0, LATE, 0);
    var end := LateState(Ring([Slot(0, Some(0))], 1, 0), Idle, ONE_SENT);
    assert StepPublish(StepWrite(s, 0, LATE, 0), 0, 0) == end;
    var run := [s, StepWrite(s, 0, LATE, 0), end];
    assert LeftInTheRing(end) && run[|run| - 1] == end;
    assert IsRun(run) && run[0] == s;
  }

  /** A call that has seen a live receiver may still claim after the receiver is gone: the winning exchange,
      with the flag up and nothing claimed before, is a move of a reachable state. The run from there ends
      with the caller back from `Ok` and its payload in the ring, where nobody will ever receive it.
      `EveryPayloadEndsOnce` says that `Shared::drop` will drop it, once. */
  lemma SendAfterReceiverIsGone()
    ensures exists s, m, run :: Reachable(s) && ClaimsTooLate(s, m)
              && IsRun(run) && run[0] == Apply(s, m) && LeftInTheRing(run[|run| - 1])
  {
    LateClaim();
    var s, m := LateState(Ring([Slot(-1, None)], 0, 0), Cas(LATE, 0), HELD), StepProd(0, false);
    hide Enabled, Apply, ClaimsTooLate, LeftInTheRing;
    Go(s, m, Apply(s, m));
    LatePublish(Apply(s, m));
    hide Reachable, IsRun;
    var run :| IsRun(run) && run[0] == Apply(s, m) && LeftInTheRing(run[|run| - 1]);
    assert ClaimsTooLate(s, m);
  }
}

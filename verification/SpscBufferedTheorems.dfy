/**
 What the SPSC ring guarantees on store buffers, whether or not its fences wait: the payload to be read is in
 its slot, deliveries are first in first out, and nothing is lost when the sender disconnects.
 */
module SpscBufferedTheorems {
  import opened Common
  import opened Arith
  import opened SpscBuffered
  import opened SpscBufferedInvariant
  import P = SpscPark
  import I = SpscParkInvariant
  import SpscParkTheorems

  lemma {:induction false} RunKeepsInv(run: seq<State>, i: nat)
    requires IsRun(run) && Init(run[0]) && i < |run|
    ensures Inv(run[i])
  {
    if i == 0 {
      InvInit(run[0]);
    } else {
      RunKeepsInv(run, i - 1);
      hide Inv;
      assert Next(run[i - 1], run[i]);
      NextKeepsInv(run[i - 1], run[i]);
    }
  }

  lemma NextKeepsInv(s: State, s': State)
    requires Inv(s) && Next(s, s')
    ensures Inv(s')
  {
    hide Inv, Enabled, Apply;
    var m :| Enabled(s, m) && s' == Apply(s, m);
    InvStep(s, m, s');
  }

  lemma ReachableInv(s: State)
    requires Reachable(s)
    ensures Inv(s)
  {
    hide Init, Inv;
    var run :| IsRun(run) && Init(run[0]) && run[|run| - 1] == s;
    RunKeepsInv(run, |run| - 1);
  }

  // ---------- the park protocol runs inside ----------

  /** A run of the park protocol from the configuration of `s` to `s`. */
  ghost predicate ParkReaches(s: P.State) {
    exists run: seq<P.State> :: P.IsRun(run) && P.Init(run[0]) && run[0].cfg == s.cfg && run[|run| - 1] == s
  }

  /** A move of the ring is a move of the park protocol, or none. */
  lemma ParkMoves(s: State, m: Move, s': State)
    requires Inv(s) && Enabled(s, m) && s' == Apply(s, m)
    ensures s'.ctl == s.ctl || (P.Next(s.ctl, s'.ctl) && s'.ctl.cfg == s.ctl.cfg)
  {
    match m
    case WriteSlot(_) =>
    case ReadSlot =>
    case FlushTx =>
      if s.buffer[0].Control? {
        var c := P.Flush(P.Tx);
        assert s.ctl.tx.buf != [];
        assert P.Enabled(s.ctl, c) && s'.ctl == P.Apply(s.ctl, c);
        FlushEffect(s.ctl, P.Tx, s'.ctl);
      }
    case Step(c) =>
      assert P.Enabled(s.ctl, c) && s'.ctl == P.Apply(s.ctl, c);
      ConfigStays(s.ctl, c);
  }

  lemma ConfigStays(s: P.State, c: P.Move)
    requires P.Enabled(s, c)
    ensures P.Apply(s, c).cfg == s.cfg
  {
    hide Effect, P.Apply, P.Enabled;
    if Acts(c, P.Tx) {
      MoveEffect(s, c, P.Tx);
      EffectConfig(s, P.Tx, P.Apply(s, c));
    } else if Acts(c, P.Rx) {
      MoveEffect(s, c, P.Rx);
      EffectConfig(s, P.Rx, P.Apply(s, c));
    } else {
      OtherConfig(s, c);
    }
  }

  lemma EffectConfig(s: P.State, x: P.Side, s': P.State)
    requires Effect(s, x, s')
    ensures s'.cfg == s.cfg
  {
  }

  lemma OtherConfig(s: P.State, c: P.Move)
    requires P.Enabled(s, c) && !Acts(c, P.Tx) && !Acts(c, P.Rx)
    ensures P.Apply(s, c).cfg == s.cfg
  {
    hide P.StepOf, P.Begin, P.DrainTest;
  }

  lemma {:induction false} RunProjects(run: seq<State>, i: nat)
    requires IsRun(run) && Init(run[0]) && i < |run|
    ensures ParkReaches(run[i].ctl)
  {
    hide Init, ParkReaches;
    if i == 0 {
      StartProjects(run[0]);
    } else {
      assert Next(run[i - 1], run[i]);
      hide Inv, Next;
      RunProjects(run, i - 1);
      RunKeepsInv(run, i - 1);
      NextProjects(run[i - 1], run[i]);
    }
  }

  lemma StartProjects(s: State)
    requires Init(s)
    ensures ParkReaches(s.ctl)
  {
    var park := [s.ctl];
    assert P.IsRun(park) && P.Init(park[0]) && park[|park| - 1] == s.ctl;
  }

  lemma NextProjects(s: State, s': State)
    requires Inv(s) && Next(s, s') && ParkReaches(s.ctl)
    ensures ParkReaches(s'.ctl)
  {
    hide Inv, Enabled, Apply, P.Next, P.Init;
    var m :| Enabled(s, m) && s' == Apply(s, m);
    ParkMoves(s, m, s');
    if s'.ctl != s.ctl {
      var park: seq<P.State> :| P.IsRun(park) && P.Init(park[0]) && park[0].cfg == s.ctl.cfg && park[|park| - 1] == s.ctl;
      var longer := park + [s'.ctl];
      forall i | 0 < i < |longer| ensures P.Next(longer[i - 1], longer[i]) {
        if i < |park| { assert P.Next(park[i - 1], park[i]); }
      }
      assert P.IsRun(longer) && P.Init(longer[0]) && longer[|longer| - 1] == s'.ctl;
    }
  }

  /** The ring with its slots is a refinement of the park protocol: every state it reaches shows a reachable state of
      `SpscPark`, so what is proved there (no lost wakeup, no two sleepers) holds here. */
  lemma RefinesPark(s: State)
    requires Reachable(s)
    ensures P.Reachable(s.ctl)
    ensures s.ctl.cfg.fences && s.ctl.cfg.lockDrains ==> SpscParkTheorems.Real(s.ctl)
  {
    hide Init, P.Init, P.Next;
    var run :| IsRun(run) && Init(run[0]) && run[|run| - 1] == s;
    RunProjects(run, |run| - 1);
  }

  // ---------- the data ----------

  /** The tail in memory never runs ahead of the slots in memory, nor the slots a lap ahead of the reads. */
  lemma TailFollowsSlots(s: State)
    requires Reachable(s)
    ensures |s.received| <= s.ctl.rx.ctr <= s.ctl.tail <= s.landed <= |s.log| <= s.ctl.tx.ctr <= s.ctl.head + s.ctl.cfg.cap
    ensures s.ctl.head <= |s.received|
  {
    ReachableInv(s);
    OrderedBounds(s.buffer, s.ctl.cfg.cap, s.log, s.landed, s.ctl.tail, s.ctl.tx.pub);
    I.CountsBound(s.ctl.rx.buf, s.ctl.head, s.ctl.rx.pub);
  }

  /** The slot to be read holds the oldest payload, in memory. */
  lemma SlotIsReady(s: State)
    requires Reachable(s) && Enabled(s, ReadSlot)
    ensures |s.received| < |s.log| && s.cells[SlotOf(|s.received|, s.ctl.cfg.cap)] == Some(s.log[|s.received|])
  {
    ReachableInv(s);
    ReadFinds(s);
  }

  /** A slot write on its way to memory is that of a payload of the log that has not landed. */
  lemma {:induction false} PendingWrite(b: seq<Entry>, cap: nat, log: seq<Ticket>, lo: nat, t: nat, pub: nat, e: Entry)
    requires cap > 0 && Ordered(b, cap, log, lo, t, pub) && e in b && e.Payload?
    ensures exists q :: lo <= q < |log| && e == Payload(SlotOf(q, cap), log[q])
  {
    if b[0] == e {
      assert e == Payload(SlotOf(lo, cap), log[lo]);
    } else {
      PendingWrite(b[1..], cap, log, if b[0].Payload? then lo + 1 else lo, if b[0].Control? && b[0].w.SetCtr? then b[0].w.n else t, pub, e);
    }
  }

  /** No slot write in the buffer goes to a slot that holds an unread payload: however late it reaches memory,
      it destroys nothing, and it never meets the receiver's read. */
  lemma SlotsAreExclusive(s: State, e: Entry, k: nat)
    requires Reachable(s) && e in s.buffer && e.Payload? && |s.received| <= k < s.landed
    ensures s.ctl.cfg.cap > 0 && e.slot != SlotOf(k, s.ctl.cfg.cap)
  {
    ReachableInv(s);
    TailFollowsSlots(s);
    PendingWrite(s.buffer, s.ctl.cfg.cap, s.log, s.landed, s.ctl.tail, s.ctl.tx.pub, e);
    var q :| s.landed <= q < |s.log| && e == Payload(SlotOf(q, s.ctl.cfg.cap), s.log[q]);
    SlotsDifferWithinALap(k, q, s.ctl.cfg.cap);
  }

  /** First in, first out, without gaps: what the receiver has read is the beginning of what the sender has written. */
  lemma ReceivedIsPrefixOfLog(s: State)
    requires Reachable(s)
    ensures |s.received| <= |s.log| && forall k :: 0 <= k < |s.received| ==> s.received[k] == Some(s.log[k])
  {
    ReachableInv(s);
  }

  /** The payloads that the receiver can find: published in memory and not read. */
  ghost function Queue(s: State): seq<Ticket>
    requires |s.received| <= s.ctl.tail <= |s.log|
  {
    s.log[|s.received|..s.ctl.tail]
  }

  /** The publishing step is the one in which the tail reaches memory. */
  predicate Publishes(s: State, m: Move) {
    m.FlushTx? && s.buffer != [] && s.buffer[0].Control? && s.buffer[0].w.SetCtr?
  }

  ghost predicate QueueStep(s: State, m: Move, s': State) {
    && |s.received| <= s.ctl.tail <= |s.log| && |s'.received| <= s'.ctl.tail <= |s'.log|
    && if Publishes(s, m) then s.ctl.tail < |s.log| && Queue(s') == Queue(s) + [s.log[s.ctl.tail]] && s'.received == s.received
       else if m.ReadSlot? then |Queue(s)| > 0 && Queue(s') == Queue(s)[1..] && s'.received == s.received + [Some(Queue(s)[0])]
       else Queue(s') == Queue(s) && s'.received == s.received
  }

  /** A bounded FIFO queue on store buffers: the store of a tail, when it reaches memory, appends the next payload of
      the log, a read takes the oldest payload, and no other move changes the queue. */
  lemma RefinesBoundedFifo(s: State, m: Move, s': State)
    requires Reachable(s) && Enabled(s, m) && s' == Apply(s, m)
    ensures QueueStep(s, m, s') && |Queue(s)| <= s.ctl.cfg.cap
  {
    TailFollowsSlots(s);
    ReachableInv(s);
    hide Reachable, Inv, QueueStep;
    match m
    case WriteSlot(v) => QueueLaw(s, m, s');
    case ReadSlot => QueueReads(s, s');
    case FlushTx => QueuePublishes(s, s');
    case Step(c) =>
      TailStays(s.ctl, c);
      QueueLaw(s, m, s');
  }

  lemma QueueLaw(s: State, m: Move, s': State)
    requires |s.received| <= s.ctl.tail <= |s.log| && !Publishes(s, m) && !m.ReadSlot?
    requires s'.received == s.received && s'.ctl.tail == s.ctl.tail && s.log <= s'.log
    ensures QueueStep(s, m, s')
  {
  }

  lemma QueueReads(s: State, s': State)
    requires Inv(s) && Enabled(s, ReadSlot) && s' == Apply(s, ReadSlot) && |s.received| <= s.ctl.tail <= |s.log|
    ensures QueueStep(s, ReadSlot, s')
  {
    ReadFinds(s);
    hide Inv;
  }

  lemma QueuePublishes(s: State, s': State)
    requires Inv(s) && Enabled(s, FlushTx) && s' == Apply(s, FlushTx) && |s.received| <= s.ctl.tail <= s.landed <= |s.log|
    ensures QueueStep(s, FlushTx, s')
  {
    if s.buffer[0].Control? {
      assert s.ctl.tx.buf != [] && s.ctl.tx.buf[0] == s.buffer[0].w;
      FlushEffect(s.ctl, P.Tx, s'.ctl);
      if s.buffer[0].w.SetCtr? {
        assert s'.ctl.tail == s.ctl.tail + 1 <= |s.log|;
        assert s'.log == s.log && s'.received == s.received;
        hide Inv, Enabled, Apply;
        assert s.log[|s.received|..s.ctl.tail + 1] == s.log[|s.received|..s.ctl.tail] + [s.log[s.ctl.tail]];
      } else {
        QueueLaw(s, FlushTx, s');
      }
    } else {
      QueueLaw(s, FlushTx, s');
    }
  }

  lemma TailStays(s: P.State, c: P.Move)
    requires P.Enabled(s, c) && c != P.Flush(P.Tx)
    ensures P.Apply(s, c).tail == s.tail
  {
    hide P.Apply, P.Enabled;
    if Acts(c, P.Tx) {
      MoveEffect(s, c, P.Tx);
    } else if Acts(c, P.Rx) {
      MoveEffect(s, c, P.Rx);
    } else {
      OtherTail(s, c);
    }
  }

  lemma OtherTail(s: P.State, c: P.Move)
    requires P.Enabled(s, c) && c != P.Flush(P.Tx) && !Acts(c, P.Tx) && !Acts(c, P.Rx)
    ensures P.Apply(s, c).tail == s.tail
  {
    hide P.StepOf, P.Begin, P.DrainTest;
  }

  /** The receiver's test against the tail in memory, before it has moved on, is the test for an empty queue. */
  lemma EmptyIsExact(s: State)
    requires Reachable(s) && |s.received| == s.ctl.rx.ctr
    ensures |s.received| <= s.ctl.tail <= |s.log|
    ensures P.Blocked(s.ctl.cfg.cap, P.Rx, s.ctl.rx.ctr, s.ctl.tail) <==> Queue(s) == []
  {
    TailFollowsSlots(s);
  }

  // ---------- disconnection ----------

  /** The sender is in its drop or past it, and everything it has written has been read. */
  ghost predicate Over(s: State) {
    I.Dropping(s.ctl.tx.pc) && |s.received| == |s.log|
  }

  /** Disconnection loses nothing, although the flag is an ordinary buffered store: when the receiver has found the
      flag up and its second look finds the tail still at its head, every payload ever written has been read. */
  lemma DisconnectedIsLossless(s: State)
    requires Reachable(s) && s.ctl.rx.pc.ReloadAgain? && |s.received| == s.ctl.rx.ctr == s.ctl.tail
    ensures Over(s) && forall k :: 0 <= k < |s.log| ==> s.received[k] == Some(s.log[k])
  {
    ReachableInv(s);
    OrderedBounds(s.buffer, s.ctl.cfg.cap, s.log, s.landed, s.ctl.tail, s.ctl.tx.pub);
  }

  lemma OverStays(s: State, m: Move, s': State)
    requires Inv(s) && Enabled(s, m) && s' == Apply(s, m) && Over(s)
    ensures Over(s') && s'.log == s.log && s'.received == s.received
  {
    match m
    case WriteSlot(_) =>
    case ReadSlot => ReadFinds(s);
    case FlushTx =>
      if s.buffer[0].Control? {
        assert s.ctl.tx.buf != [];
        FlushEffect(s.ctl, P.Tx, s'.ctl);
      }
    case Step(c) =>
      hide Inv;
      DroppingStays(s.ctl, c);
  }

  lemma DroppingStays(s: P.State, c: P.Move)
    requires P.Enabled(s, c) && I.Dropping(s.tx.pc)
    ensures I.Dropping(P.Apply(s, c).tx.pc)
  {
    if Acts(c, P.Tx) {
      MoveEffect(s, c, P.Tx);
      hide P.Apply, P.Enabled;
    } else if Acts(c, P.Rx) {
      MoveEffect(s, c, P.Rx);
      hide P.Apply, P.Enabled;
    } else {
      hide P.StepOf, P.Begin, P.DrainTest;
    }
  }

  /** ... and so it stays: nothing more is written and nothing more is read in any continuation of the run. */
  lemma {:induction false} DisconnectedIsFinal(run: seq<State>, i: nat, j: nat)
    requires IsRun(run) && Init(run[0]) && i <= j < |run| && Over(run[i])
    ensures Over(run[j]) && run[j].log == run[i].log && run[j].received == run[i].received
  {
    hide Init, Over;
    if i < j {
      assert Next(run[j - 1], run[j]);
      hide Inv, Enabled, Apply;
      RunKeepsInv(run, j - 1);
      DisconnectedIsFinal(run, i, j - 1);
      var m :| Enabled(run[j - 1], m) && run[j] == Apply(run[j - 1], m);
      OverStays(run[j - 1], m, run[j]);
      hide Next, IsRun;
    }
  }

  // ---------- the second look at the tail is needed ----------

  lemma Go(s: State, m: Move, s': State)
    requires Reachable(s) && Enabled(s, m) && s' == Apply(s, m)
    ensures Reachable(s')
  {
    assert Next(s, s');
    hide Next, Enabled, Apply;
    var run :| IsRun(run) && Init(run[0]) && run[|run| - 1] == s;
    var longer := run + [s'];
    forall i | 0 < i < |longer| ensures Next(longer[i - 1], longer[i]) {
      if i < |run| { assert Next(run[i - 1], run[i]); }
    }
    assert IsRun(longer) && longer[|longer| - 1] == s';
  }

  /** A ring of one slot; the receiver has found it empty and is about to load the flag. */
  function Looking(tx: P.Thread, tail: nat, gone: bool, cell: Option<Ticket>, buffer: seq<Entry>, log: seq<Ticket>, landed: nat): State {
    State(P.State(P.Config(1, true, true), tx, P.Thread(P.LoadGone(false), 0, 0, 0, false, []), tail, 0, gone,
                  P.Parker(false, false, None), P.Parker(false, false, None), false),
          [cell], buffer, log, landed, [])
  }

  lemma InitIsReachable(s: State)
    requires Init(s)
    ensures Reachable(s)
  {
    hide Init;
    assert IsRun([s]) && [s][|[s]| - 1] == s;
  }

  lemma FoundEmpty()
    ensures Reachable(Looking(P.Thread(P.Idle, 0, 0, 0, false, []), 0, false, None, [], [], 0))
  {
    var end := Looking(P.Thread(P.Idle, 0, 0, 0, false, []), 0, false, None, [], [], 0);
    var s := end.(ctl := end.ctl.(rx := P.Thread(P.Idle, 0, 0, 0, false, [])));
    InitIsReachable(s);
    hide Reachable, Init;
    var s1 := end.(ctl := end.ctl.(rx := P.Thread(P.Reload(false), 0, 0, 0, false, [])));
    Go(s, Step(P.StartOp(P.Rx, false)), s1);
    Go(s1, Step(P.Step(P.Rx, false)), end);
  }

  /** The sender writes its slot and stores its tail. */
  lemma ThenSent()
    ensures Reachable(Looking(P.Thread(P.Fence, 1, 1, 0, false, [P.SetCtr(1)]), 0, false, None, [Payload(0, 7), Control(P.SetCtr(1))], [7], 0))
  {
    hide Reachable;
    FoundEmpty();
    var s := Looking(P.Thread(P.Idle, 0, 0, 0, false, []), 0, false, None, [], [], 0);
    var s1 := Looking(P.Thread(P.CheckGone(false), 0, 0, 0, false, []), 0, false, None, [], [], 0);
    Go(s, Step(P.StartOp(P.Tx, false)), s1);
    var s2 := Looking(P.Thread(P.StoreCtr(true), 1, 0, 0, false, []), 0, false, None, [], [], 0);
    Go(s1, Step(P.Step(P.Tx, false)), s2);
    var s3 := Looking(P.Thread(P.StoreCtr(true), 1, 0, 0, false, []), 0, false, None, [Payload(0, 7)], [7], 0);
    Go(s2, WriteSlot(7), s3);
    Go(s3, Step(P.Step(P.Tx, false)),
       Looking(P.Thread(P.Fence, 1, 1, 0, false, [P.SetCtr(1)]), 0, false, None, [Payload(0, 7), Control(P.SetCtr(1))], [7], 0));
  }

  /** Both reach memory, and the sender finds nobody to wake. */
  lemma ThenPublished()
    ensures Reachable(Looking(P.Thread(P.Idle, 1, 1, 0, false, []), 1, false, Some(7), [], [7], 1))
  {
    hide Reachable;
    ThenSent();
    var s := Looking(P.Thread(P.Fence, 1, 1, 0, false, [P.SetCtr(1)]), 0, false, None, [Payload(0, 7), Control(P.SetCtr(1))], [7], 0);
    var s1 := Looking(P.Thread(P.Fence, 1, 1, 0, false, [P.SetCtr(1)]), 0, false, Some(7), [Control(P.SetCtr(1))], [7], 1);
    Go(s, FlushTx, s1);
    var s2 := Looking(P.Thread(P.Fence, 1, 1, 0, false, []), 1, false, Some(7), [], [7], 1);
    Go(s1, FlushTx, s2);
    var s3 := Looking(P.Thread(P.WakeLoad(P.Rx, P.Done), 1, 1, 0, false, []), 1, false, Some(7), [], [7], 1);
    Go(s2, Step(P.Step(P.Tx, false)), s3);
    Go(s3, Step(P.Step(P.Tx, false)), Looking(P.Thread(P.Idle, 1, 1, 0, false, []), 1, false, Some(7), [], [7], 1));
  }

  /** Without its second load of the tail `try_recv` would lose a payload: the receiver can have found the ring
      empty and then find the flag up, in a reachable state in which a published payload waits in memory. */
  lemma FlagCanComeWithAPayload()
    ensures exists s :: Reachable(s) && s.ctl.rx.pc == P.LoadGone(false) && s.ctl.gone && I.Dropping(s.ctl.tx.pc)
              && |s.received| < s.ctl.tail <= |s.log| && Queue(s) != []
  {
    hide Reachable;
    ThenPublished();
    var s := Looking(P.Thread(P.Idle, 1, 1, 0, false, []), 1, false, Some(7), [], [7], 1);
    var s1 := Looking(P.Thread(P.StoreGone, 1, 1, 0, false, []), 1, false, Some(7), [], [7], 1);
    Go(s, Step(P.StartDrop(P.Tx)), s1);
    var s2 := Looking(P.Thread(P.GoneFence, 1, 1, 0, false, [P.SetGone]), 1, false, Some(7), [Control(P.SetGone)], [7], 1);
    Go(s1, Step(P.Step(P.Tx, false)), s2);
    var s3 := Looking(P.Thread(P.GoneFence, 1, 1, 0, false, []), 1, true, Some(7), [], [7], 1);
    Go(s2, FlushTx, s3);
    assert |Queue(s3)| == 1;
  }
}

/**
 What one thread of the MPSC ring may rely on while the others run: between two of its own accesses
 any moves of the other threads may happen, and this is what they leave alone.
 */
module MpscThreads {
  import opened Arith
  import opened Common
  import opened MpscMachine
  import opened MpscInvariant
  import opened MpscTheorems

  /** The thread whose code runs: a producer thread, or the one that owns the receiver. */
  datatype Actor = Sending(t: Tid) | Receiving

  /** A move of somebody else. Anybody may unpark the thread. */
  predicate Foreign(me: Actor, s: State, m: Move) {
    match me
    case Sending(t) =>
      (match m
       case StartSend(u, _, _) => u != t
       case DropSender(u, _) => u != t
       case StepProd(u, _) => u != t
       case ProdNoise(u, token) => u != t || token
       case Reap => false
       case _ => true)
    case Receiving =>
      (match m
       case StartRecv(_) => false
       case StartDrain(_) => false
       case StartDropRx => false
       case StepCons(_) => false
       case ConsNoise(tid, token) => token && tid == s.rx.tid
       case Reap => false
       case _ => true)
  }

  /** A side that is gone does not come back, and after `Disconnected` nothing is accepted. */
  ghost predicate StaysGone(s: State, s': State) {
    && (s.ends.rxDropped ==> s'.ends.rxDropped) && (s.ends.senders == 0 ==> s'.ends.senders == 0)
    && (s.rx.closed ==> s'.rx.closed && s'.hist.log == s.hist.log)
  }

  /** Claims are never undone, nobody comes back, and a payload that has left its call's hands stays where it went. */
  ghost predicate Grows(s: State, s': State) {
    && s'.cap == s.cap && s'.park == s.park
    && s.hist.log <= s'.hist.log && s.hist.delivered <= s'.hist.delivered && |s.hist.fate| <= |s'.hist.fate|
    && s.ring.head <= s'.ring.head && s.ring.claim <= s'.ring.claim
    && StaysGone(s, s')
    && forall v :: 0 <= v < |s.hist.fate| && !s.hist.fate[v].Held? ==> s'.hist.fate[v] == s.hist.fate[v]
  }

  /** The thread finds its own program counter, its handle and its token as it left them. */
  ghost predicate Undisturbed(me: Actor, s: State, s': State) {
    && Grows(s, s')
    && match me
       case Sending(t) =>
         t in s.prods && t in s'.prods && s'.prods[t].pc == s.prods[t].pc && (s.prods[t].token ==> s'.prods[t].token)
         && (InOp(s.prods[t].pc) ==> var h := s.prods[t].pc.op.h;
               h in s.ends.handles && h in s'.ends.handles && s'.ends.handles[h] == s.ends.handles[h])
       case Receiving =>
         && s'.rx == s.rx.(token := s'.rx.token) && (s.rx.token ==> s'.rx.token)
         && s'.ring.head == s.ring.head && s'.ends.rxDropped == s.ends.rxDropped
         && s'.hist.delivered == s.hist.delivered && (Shown(s) ==> Shown(s'))
  }

  /** The receiver's next slot is published. */
  ghost predicate Shown(s: State) {
    0 < s.cap == |s.ring.slots| && Published(s, s.rx.head)
  }

  lemma UndisturbedTwice(me: Actor, s: State, s1: State, s2: State)
    requires Undisturbed(me, s, s1) && Undisturbed(me, s1, s2)
    ensures Undisturbed(me, s, s2)
  {
  }

  lemma GrowsTwice(s: State, s1: State, s2: State)
    requires Grows(s, s1) && Grows(s1, s2)
    ensures Grows(s, s2)
  {
  }

  lemma ProdStaysGone(s: State, t: Tid, quirk: bool)
    requires Inv(s) && Enabled(s, StepProd(t, quirk))
    ensures StaysGone(s, ProdStep(s, t, quirk))
  {
    if s.rx.closed {
      NoHandlesNoCalls(s);
      OtherProdKeepsQueue(s, t, quirk);
    }
    hide Inv, Tag, SlotOf, GiveBack, Limit;
  }

  lemma ConsStaysGone(s: State, quirk: bool)
    requires Inv(s) && Enabled(s, StepCons(quirk))
    ensures StaysGone(s, ConsStep(s, quirk))
  {
    hide Inv, Tag, SlotOf;
    if s.rx.closed { ConsClosed(s, quirk); }
  }

  lemma ProdGrows(s: State, t: Tid, quirk: bool)
    requires Inv(s) && Enabled(s, StepProd(t, quirk))
    ensures Grows(s, ProdStep(s, t, quirk))
  {
    var pc := s.prods[t].pc;
    if InOp(pc) && !InFlight(pc) {
      CallFacts(s, t);
      assert s.hist.fate[pc.op.v] == Held(t);
    }
    hide StaysGone;
    ProdStaysGone(s, t, quirk);
    hide Inv, Tag, SlotOf;
    match pc
    case CheckRx(op) =>
    case LoadHead(op, q) =>
    case Cas(op, q) =>
    case Write(op, q) =>
    case Publish(op, q) =>
    case _ =>
  }

  lemma ConsGrows(s: State, quirk: bool)
    requires Inv(s) && Enabled(s, StepCons(quirk))
    ensures Grows(s, ConsStep(s, quirk))
  {
    assert s.ring.head <= s.rx.head;
    hide StaysGone;
    ConsStaysGone(s, quirk);
    hide Inv, Tag, SlotOf;
  }

  /** Every move only adds to the histories. */
  lemma MoveGrows(s: State, m: Move)
    requires Inv(s) && Enabled(s, m)
    ensures Grows(s, Apply(s, m))
  {
    match m
    case StepProd(t, quirk) => ProdGrows(s, t, quirk);
    case StepCons(quirk) => ConsGrows(s, quirk);
    case _ =>
  }

  lemma ProdKeepsProducers(s: State, t: Tid, quirk: bool, u: Tid, s': State)
    requires Enabled(s, StepProd(t, quirk)) && t != u && u in s.prods && s' == ProdStep(s, t, quirk)
    ensures u in s'.prods && s'.prods[u] == s.prods[u]
    ensures forall h :: h in s.ends.handles && (InOp(s.prods[t].pc) ==> s.prods[t].pc.op.h != h) ==>
              h in s'.ends.handles && s'.ends.handles[h] == s.ends.handles[h]
  {
    hide Tag, SlotOf, Decide, Limit;
  }

  lemma ProdLeavesAlone(s: State, t: Tid, quirk: bool, u: Tid)
    requires Inv(s) && Enabled(s, StepProd(t, quirk)) && t != u && u in s.prods
    ensures Undisturbed(Sending(u), s, ProdStep(s, t, quirk))
  {
    if InOp(s.prods[u].pc) {
      assert ThreadOK(s, u);
      assert Uses(s, u, s.prods[u].pc.op.h);
    }
    if InOp(s.prods[t].pc) { assert Uses(s, t, s.prods[t].pc.op.h); }
    hide Inv, ProdStep, Grows;
    ProdGrows(s, t, quirk);
    ProdKeepsProducers(s, t, quirk, u, ProdStep(s, t, quirk));
  }

  lemma ConsKeepsProducers(s: State, quirk: bool, u: Tid)
    requires Enabled(s, StepCons(quirk)) && u in s.prods
    ensures var s' := ConsStep(s, quirk);
      && u in s'.prods && s'.prods[u].pc == s.prods[u].pc && (s.prods[u].token ==> s'.prods[u].token)
      && s'.ends.handles == s.ends.handles
  {
    hide Tag, SlotOf;
  }

  lemma ConsLeavesAlone(s: State, quirk: bool, u: Tid)
    requires Inv(s) && Enabled(s, StepCons(quirk)) && u in s.prods
    ensures Undisturbed(Sending(u), s, ConsStep(s, quirk))
  {
    assert ThreadOK(s, u);
    hide Inv, ConsStep, Grows;
    ConsGrows(s, quirk);
    ConsKeepsProducers(s, quirk, u);
  }

  lemma ProdKeepsReceiver(s: State, t: Tid, quirk: bool, s': State)
    requires Enabled(s, StepProd(t, quirk)) && s' == ProdStep(s, t, quirk)
    ensures s'.rx == s.rx || s'.rx == s.rx.(token := true)
  {
    hide Tag, SlotOf, Decide, Limit;
  }

  lemma ProdKeepsHead(s: State, t: Tid, quirk: bool, s': State)
    requires Enabled(s, StepProd(t, quirk)) && s' == ProdStep(s, t, quirk)
    ensures s'.ring.head == s.ring.head && s'.ends.rxDropped == s.ends.rxDropped && s'.hist.delivered == s.hist.delivered
  {
    hide Tag, SlotOf, Decide, Limit;
  }

  /** A thread that publishes does so in another slot. */
  lemma PublishKeepsShown(s: State, t: Tid, op: Op, q: nat)
    requires Inv(s) && t in s.prods && s.prods[t].pc == Publish(op, q) && Shown(s)
    ensures Shown(StepPublish(s, t, q))
  {
    CallFacts(s, t);
    FlightFacts(s, t);
    hide Inv, Tag, SlotOf;
    if SlotOf(q, s.cap) == SlotOf(s.rx.head, s.cap) {
      SameSlotSameSequence(s, q);
      TagIsFresh(q, s.cap);
    }
  }

  lemma SameSlotSameSequence(s: State, q: nat)
    requires Inv(s) && s.rx.head <= q < s.ring.claim && SlotOf(q, s.cap) == SlotOf(s.rx.head, s.cap)
    ensures q == s.rx.head && 0 < s.cap && q <= USIZE_MAX
  {
    if s.rx.head < q { SlotsDifferWithinALap(s.rx.head, q, s.cap); }
  }

  lemma ProdKeepsShown(s: State, t: Tid, quirk: bool)
    requires Inv(s) && Enabled(s, StepProd(t, quirk)) && Shown(s)
    ensures Shown(ProdStep(s, t, quirk))
  {
    var pc := s.prods[t].pc;
    ProdKeepsReceiver(s, t, quirk, ProdStep(s, t, quirk));
    if pc.Publish? {
      PublishKeepsShown(s, t, pc.op, pc.seqNo);
    } else {
      OtherRoundsStay(s, t, quirk);
    }
  }

  lemma OtherRoundsStay(s: State, t: Tid, quirk: bool)
    requires Enabled(s, StepProd(t, quirk)) && !s.prods[t].pc.Publish? && Shown(s)
    ensures var s' := ProdStep(s, t, quirk);
      s'.cap == s.cap == |s'.ring.slots| && forall i :: 0 <= i < s.cap ==> s'.ring.slots[i].round == s.ring.slots[i].round
  {
    hide Tag, SlotOf, Decide, Limit, StepPublish;
  }

  lemma ProdLeavesReceiver(s: State, t: Tid, quirk: bool)
    requires Inv(s) && Enabled(s, StepProd(t, quirk))
    ensures Undisturbed(Receiving, s, ProdStep(s, t, quirk))
  {
    hide Inv, ProdStep, Grows;
    ProdGrows(s, t, quirk);
    ProdKeepsReceiver(s, t, quirk, ProdStep(s, t, quirk));
    ProdKeepsHead(s, t, quirk, ProdStep(s, t, quirk));
    if Shown(s) { ProdKeepsShown(s, t, quirk); }
    hide Shown;
  }

  lemma OtherLeavesAlone(s: State, m: Move, u: Tid)
    requires Inv(s) && Enabled(s, m) && Foreign(Sending(u), s, m) && u in s.prods && !m.StepProd? && !m.StepCons?
    ensures Undisturbed(Sending(u), s, Apply(s, m))
  {
    MoveGrows(s, m);
    if InOp(s.prods[u].pc) {
      assert ThreadOK(s, u);
    }
    hide Inv, Grows;
  }

  lemma OtherLeavesReceiver(s: State, m: Move)
    requires Inv(s) && Enabled(s, m) && Foreign(Receiving, s, m) && !m.StepProd?
    ensures Undisturbed(Receiving, s, Apply(s, m))
  {
    MoveGrows(s, m);
  }

  lemma ForeignLeavesAlone(me: Actor, s: State, m: Move)
    requires Inv(s) && Enabled(s, m) && Foreign(me, s, m) && (me.Sending? ==> me.t in s.prods)
    ensures Undisturbed(me, s, Apply(s, m))
  {
    hide Inv, Undisturbed, ProdStep, ConsStep;
    match (me, m)
    case (Sending(u), StepProd(t, quirk)) => ProdLeavesAlone(s, t, quirk, u);
    case (Sending(u), StepCons(quirk)) => ConsLeavesAlone(s, quirk, u);
    case (Sending(u), _) => OtherLeavesAlone(s, m, u);
    case (Receiving, StepProd(t, quirk)) => ProdLeavesReceiver(s, t, quirk);
    case (Receiving, _) => OtherLeavesReceiver(s, m);
  }
}

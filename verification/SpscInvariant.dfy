/**
 The invariant of the SPSC ring: the two counters bound each other through stale copies, and the slots
 between the private counters hold exactly the payloads that are on their way.
 */
module SpscInvariant {
  import opened Arith
  import opened Common
  import opened SpscMachine

  ghost predicate Counters(s: State) {
    && 0 < s.cap == |s.buf|
    && s.tx.cachedHead <= s.head <= s.rx.head <= s.rx.cachedTail <= s.tail <= s.tx.tail <= s.tx.cachedHead + s.cap
    && |s.hist.log| == s.tx.tail
    && !s.hist.fault
  }

  /** The slot of one sequence of the lap that starts at the private head. */
  ghost predicate SlotOK(s: State, q: nat)
    requires Counters(s)
  {
    s.buf[SlotOf(q, s.cap)] == if q < s.tx.tail then Some(s.hist.log[q]) else None
  }

  ghost predicate Window(s: State)
    requires Counters(s)
  {
    forall q :: s.rx.head <= q < s.rx.head + s.cap ==> SlotOK(s, q)
  }

  ghost predicate TxOK(s: State)
    requires Counters(s)
  {
    && (PayloadOf(s.tx.pc).Some? ==> PayloadOf(s.tx.pc).value < |s.hist.fate| && s.hist.fate[PayloadOf(s.tx.pc).value] == Held)
    && s.tx.tail == s.tail + (if s.tx.pc == StoreTail then 1 else 0)
    && (s.tx.pc.ReloadHead? ==> s.tx.tail == s.tx.cachedHead + s.cap)
    && (s.tx.pc.Write? ==> s.tx.tail < s.tx.cachedHead + s.cap)
  }

  ghost predicate RxOK(s: State)
    requires Counters(s)
  {
    && (s.disconnected <==> s.tx.pc == Gone || s.rx.pc == Left)
    && (s.rx.drained ==> s.tx.pc == Gone && s.rx.head == s.tail)
    && match s.rx.pc
       case ReloadTail => s.rx.head == s.head && s.rx.head == s.rx.cachedTail
       case ReloadAgain => s.rx.head == s.head && s.tx.pc == Gone
       case Take => s.rx.head == s.head && s.rx.head < s.rx.cachedTail
       case StoreHead => s.rx.head == s.head + 1
       case DrainReload(c, m) => s.rx.head == s.head + c && c < m
       case DrainTake(c, m) => s.rx.head == s.head + c && c < m && s.rx.head < s.rx.cachedTail
       case Callback(c, m) => s.rx.head == s.head + c && 0 < c <= m
       case DrainStore(c) => s.rx.head == s.head + c
       case _ => s.rx.head == s.head
  }

  /** What was delivered is the log up to the private head. */
  ghost predicate Delivery(s: State)
    requires Counters(s)
  {
    s.hist.delivered == s.hist.log[..s.rx.head]
  }

  ghost predicate FateOK(s: State, v: Ticket)
    requires v < |s.hist.fate|
  {
    match s.hist.fate[v]
    case Held => PayloadOf(s.tx.pc) == Some(v)
    case HandedBack(i) => i < |s.hist.returned| && s.hist.returned[i] == v
    case Accepted(q) => q < |s.hist.log| && s.hist.log[q] == v
  }

  /** Every payload is in exactly one place, and each place is recorded as that payload's. */
  ghost predicate Fates(s: State) {
    && (forall v :: 0 <= v < |s.hist.fate| ==> FateOK(s, v))
    && (forall i :: 0 <= i < |s.hist.returned| ==> s.hist.returned[i] < |s.hist.fate| && s.hist.fate[s.hist.returned[i]] == HandedBack(i))
    && (forall q :: 0 <= q < |s.hist.log| ==> s.hist.log[q] < |s.hist.fate| && s.hist.fate[s.hist.log[q]] == Accepted(q))
  }

  /** Payloads are accepted in the order in which they were offered. */
  ghost predicate Ordered(s: State) {
    && (forall i, j :: 0 <= i < j < |s.hist.log| ==> s.hist.log[i] < s.hist.log[j])
    && (PayloadOf(s.tx.pc).Some? ==> forall i :: 0 <= i < |s.hist.log| ==> s.hist.log[i] < PayloadOf(s.tx.pc).value)
  }

  ghost predicate Reaped(s: State)
    requires Counters(s)
  {
    s.hist.dropped.Some? ==> s.tx.pc == Gone && s.rx.pc == Left && s.hist.dropped.value == s.hist.log[s.head..s.tail]
  }

  ghost predicate Inv(s: State) {
    Counters(s) && Window(s) && TxOK(s) && RxOK(s) && Delivery(s) && Fates(s) && Ordered(s) && Reaped(s)
  }

  lemma InvInit(s: State)
    requires Init(s)
    ensures Inv(s)
  {
    forall q | 0 <= q < s.cap ensures SlotOK(s, q) {
      assert SlotOf(q, s.cap) == q;
    }
  }

  // ---------- moves that change no ring data ----------

  /** Only the program counters, the caches and the shared counters move. */
  ghost predicate SameData(s: State, s': State) {
    s'.cap == s.cap && s'.buf == s.buf && s'.tx.tail == s.tx.tail && s'.rx.head == s.rx.head && s'.hist == s.hist
  }

  lemma SameDataKeeps(s: State, s': State)
    requires Inv(s) && SameData(s, s') && Counters(s') && PayloadOf(s'.tx.pc) == PayloadOf(s.tx.pc)
    ensures Window(s') && Delivery(s') && Fates(s') && Ordered(s')
  {
    forall q | s'.rx.head <= q < s'.rx.head + s'.cap ensures SlotOK(s', q) {
      assert SlotOK(s, q);
    }
    forall v | 0 <= v < |s'.hist.fate| ensures FateOK(s', v) {
      assert FateOK(s, v);
    }
  }

  lemma KeepGiveBack(s: State, s0: State, v: Ticket)
    requires Inv(s) && PayloadOf(s.tx.pc) == Some(v)
    requires s0 == s.(tx := s.tx.(cachedHead := s0.tx.cachedHead)) && Counters(s0) && v < |s.hist.fate|
    ensures Inv(GiveBack(s0, v))
  {
    var s' := GiveBack(s0, v);
    forall q | s'.rx.head <= q < s'.rx.head + s'.cap ensures SlotOK(s', q) {
      assert SlotOK(s, q);
    }
    forall w | 0 <= w < |s'.hist.fate| ensures FateOK(s', w) {
      assert FateOK(s, w);
    }
  }

  lemma KeepCheckGone(s: State, v: Ticket, b: bool)
    requires Inv(s) && s.tx.pc == CheckGone(v, b)
    ensures v < |s.hist.fate| && Inv(StepCheckGone(s, v, b))
  {
    if s.disconnected {
      KeepGiveBack(s, s, v);
    } else {
      SameDataKeeps(s, StepCheckGone(s, v, b));
    }
  }

  lemma KeepReloadHead(s: State, v: Ticket, b: bool)
    requires Inv(s) && s.tx.pc == ReloadHead(v, b)
    ensures v < |s.hist.fate| && Inv(StepReloadHead(s, v, b))
  {
    if s.tx.tail - s.head == s.cap && !b {
      KeepGiveBack(s, s.(tx := s.tx.(cachedHead := s.head)), v);
      assert StepReloadHead(s, v, b) == GiveBack(s.(tx := s.tx.(cachedHead := s.head)), v);
    } else {
      SameDataKeeps(s, StepReloadHead(s, v, b));
    }
  }

  lemma KeepWrite(s: State, v: Ticket)
    requires Inv(s) && s.tx.pc == Write(v)
    ensures v < |s.hist.fate| && Inv(StepWrite(s, v))
  {
    var s' := StepWrite(s, v);
    OtherSlots(s.tx.tail, s.rx.head, s.cap);
    assert SlotOK(s, s.tx.tail);
    forall q | s'.rx.head <= q < s'.rx.head + s'.cap ensures SlotOK(s', q) {
      assert SlotOK(s, q);
    }
    forall w | 0 <= w < |s'.hist.fate| ensures FateOK(s', w) {
      assert FateOK(s, w);
    }
    assert s'.hist.log[..s'.rx.head] == s.hist.log[..s.rx.head];
  }

  lemma KeepTx(s: State)
    requires Inv(s) && TxEnabled(s)
    ensures Inv(TxStep(s))
  {
    match s.tx.pc
    case CheckGone(v, b) => KeepCheckGone(s, v, b);
    case ReloadHead(v, b) => KeepReloadHead(s, v, b);
    case Write(v) => KeepWrite(s, v);
    case StoreTail => SameDataKeeps(s, TxStep(s));
    case StoreGone => SameDataKeeps(s, TxStep(s));
  }

  lemma KeepMoveOut(s: State, pc: RxPC)
    requires Inv(s) && s.rx.head < s.rx.cachedTail
    requires (s.rx.pc == Take && pc == StoreHead) || (s.rx.pc.DrainTake? && pc == Callback(s.rx.pc.count + 1, s.rx.pc.max))
    ensures Inv(MoveOut(s, pc))
  {
    var s' := MoveOut(s, pc);
    assert SlotOK(s, s.rx.head);
    OtherSlots(s.rx.head, s.rx.head, s.cap);
    NextLap(s.rx.head, s.cap);
    forall q | s'.rx.head <= q < s'.rx.head + s'.cap ensures SlotOK(s', q) {
      if q < s.rx.head + s.cap { assert SlotOK(s, q); }
    }
    forall w | 0 <= w < |s'.hist.fate| ensures FateOK(s', w) {
      assert FateOK(s, w);
    }
    assert s'.hist.log[..s'.rx.head] == s.hist.log[..s.rx.head] + [s.hist.log[s.rx.head]];
  }

  /** A step of the receiver that reads no slot. */
  ghost predicate RxMove(s: State, s': State) {
    s' == s.(rx := s.rx.(pc := s'.rx.pc, cachedTail := s'.rx.cachedTail, drained := s'.rx.drained), head := s'.head,
             disconnected := s'.disconnected)
  }

  lemma KeepRxMove(s: State, s': State)
    requires Inv(s) && RxMove(s, s') && Counters(s') && RxOK(s') && s.rx.pc != Left
    ensures Inv(s')
  {
    SameDataKeeps(s, s');
    hide Window, Delivery, Fates, Ordered, RxOK;
  }

  lemma RxPosition(s: State, unwinds: bool, s': State)
    requires Counters(s) && TxOK(s) && RxOK(s) && Enabled(s, StepRx(unwinds)) && !s.rx.pc.Take? && !s.rx.pc.DrainTake?
    requires s' == RxStep(s, unwinds)
    ensures RxMove(s, s') && Counters(s') && RxOK(s')
  {
    hide MoveOut;
  }

  lemma KeepRx(s: State, unwinds: bool)
    requires Inv(s) && Enabled(s, StepRx(unwinds))
    ensures Inv(RxStep(s, unwinds))
  {
    if s.rx.pc.Take? {
      KeepMoveOut(s, StoreHead);
    } else if s.rx.pc.DrainTake? {
      KeepMoveOut(s, Callback(s.rx.pc.count + 1, s.rx.pc.max));
    } else {
      hide Window, Delivery, Fates, Ordered, RxMove;
      RxPosition(s, unwinds, RxStep(s, unwinds));
      hide Counters, TxOK, RxOK, RxStep;
      KeepRxMove(s, RxStep(s, unwinds));
    }
  }

  lemma ReapDrops(s: State)
    requires Inv(s) && s.rx.pc == Left && s.tx.pc == Gone
    ensures !StepReap(s).hist.fault && StepReap(s).hist.dropped == Some(s.hist.log[s.head..s.tail])
  {
    var cells := CellsBetween(s.buf, s.cap, s.head, s.tail);
    forall k | 0 <= k < |cells| ensures cells[k] == Some(s.hist.log[s.head + k]) {
      assert SlotOK(s, s.head + k);
    }
    assert Payloads(cells) == s.hist.log[s.head..s.tail];
  }

  lemma KeepStartSend(s: State, b: bool)
    requires Inv(s) && s.tx.pc == Idle
    ensures Inv(Apply(s, StartSend(b)))
  {
    var s' := Apply(s, StartSend(b));
    forall q | s'.rx.head <= q < s'.rx.head + s'.cap ensures SlotOK(s', q) {
      assert SlotOK(s, q);
    }
    forall w | 0 <= w < |s'.hist.fate| ensures FateOK(s', w) {
      if w < |s.hist.fate| { assert FateOK(s, w); }
    }
  }

  lemma KeepReap(s: State)
    requires Inv(s) && Enabled(s, Reap)
    ensures Inv(StepReap(s))
  {
    var s' := StepReap(s);
    ReapDrops(s);
    forall q | s'.rx.head <= q < s'.rx.head + s'.cap ensures SlotOK(s', q) {
      assert SlotOK(s, q);
    }
    forall w | 0 <= w < |s'.hist.fate| ensures FateOK(s', w) {
      assert FateOK(s, w);
    }
  }

  /** Every move keeps the invariant. */
  lemma InvStep(s: State, m: Move)
    requires Inv(s) && Enabled(s, m)
    ensures Inv(Apply(s, m))
  {
    match m
    case StartSend(b) => KeepStartSend(s, b);
    case StepTx => KeepTx(s);
    case StepRx(u) => KeepRx(s, u);
    case Reap => KeepReap(s);
    case _ => SameDataKeeps(s, Apply(s, m));
  }
}

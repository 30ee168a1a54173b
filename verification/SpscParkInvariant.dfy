/**
 The invariant of the SPSC park protocol on store buffers, and the proof that every move keeps it.
 A registered side can be found, and a side whose check has missed something is
 owed a wake by its peer.
 */
module SpscParkInvariant {
  import opened Common
  import opened SpscPark

  // ---------- the invariant ----------

  /** The buffered stores to the own counter lead from the value in memory to the value stored last. */
  ghost predicate Counts(buf: seq<Write>, lo: nat, hi: nat) {
    if buf == [] then lo == hi
    else if buf[0].SetCtr? then lo <= buf[0].n && Counts(buf[1..], buf[0].n, hi)
    else Counts(buf[1..], lo, hi)
  }

  lemma {:induction false} CountsAppend(buf: seq<Write>, lo: nat, hi: nat, w: Write)
    requires Counts(buf, lo, hi) && (w.SetCtr? ==> hi <= w.n)
    ensures Counts(buf + [w], lo, if w.SetCtr? then w.n else hi)
  {
    if buf == [] {
      assert Counts([], if w.SetCtr? then w.n else hi, if w.SetCtr? then w.n else hi);
    } else {
      assert (buf + [w])[1..] == buf[1..] + [w];
      CountsAppend(buf[1..], if buf[0].SetCtr? then buf[0].n else lo, hi, w);
    }
  }

  lemma {:induction false} CountsBound(buf: seq<Write>, lo: nat, hi: nat)
    requires Counts(buf, lo, hi)
    ensures lo <= hi
    ensures (forall w :: w in buf ==> !w.SetCtr?) ==> lo == hi
  {
    if buf != [] {
      CountsBound(buf[1..], if buf[0].SetCtr? then buf[0].n else lo, hi);
    }
  }

  /** The private counter is ahead of the stored one only inside an operation. */
  predicate Ahead(pc: PC) {
    pc.StoreCtr? || pc.Callback? || pc.DrainReload?
  }

  ghost predicate CountersOK(s: State, x: Side) {
    var th := Th(s, x);
    && Counts(th.buf, Ctr(s, x), th.pub)
    && th.pub <= th.ctr && (!Ahead(th.pc) ==> th.pub == th.ctr)
    && th.cached <= Ctr(s, Other(x))
    && (if x.Tx? then th.cached <= th.ctr <= th.cached + s.cfg.cap else th.ctr <= th.cached)
  }

  /** What may sit in the buffer at each point: only the store that the next fence or lock will wait
      for, and leftovers of the thread's own withdrawn registrations. */
  ghost predicate BufferOK(th: Thread, x: Side) {
    && (forall w :: w in th.buf ==> WriteOK(th.pc, x, w))
    && (th.pc.PrepFence? ==> th.buf == [] || th.buf == [SetParked(x, true)])
    && (Empty(th.pc) ==> th.buf == [])
  }

  predicate Empty(pc: PC) {
    pc.PrepFlag? || pc.RecheckCtr? || pc.RecheckGone? || pc.Park? || pc.WakeLoad? || pc.WakeClear? || pc.WakeUnpark?
  }

  predicate WriteOK(pc: PC, x: Side, w: Write) {
    match w
    case SetCtr(_) => true
    case SetGone => pc == GoneFence
    case SetParked(z, on) =>
      || (z == x && !on && !Registered(pc))
      || (z == x && on && pc == PrepFence)
      || (pc.WakeLock? && pc.of == z && !on)
  }

  /** The thread has registered its handle and not returned from the park. */
  predicate Registered(pc: PC) {
    pc.PrepFlag? || pc.PrepFence? || pc.RecheckCtr? || pc.RecheckGone? || pc.Park?
  }

  predicate Dropping(pc: PC) {
    pc == GoneFence || pc == Gone || (Waking(pc) && pc.next != Done)
  }

  predicate Waking(pc: PC) {
    pc.WakeLoad? || pc.WakeClear? || pc.WakeLock? || pc.WakeUnpark?
  }

  /** The thread has stored something the peer may wait for and has not finished waking side `z`. */
  predicate Owes(pc: PC, z: Side) {
    || pc == Fence
    || pc == GoneFence
    || (Waking(pc) && (pc.of == z || (pc.next == WakeTx && z.Tx?)))
  }

  ghost predicate LockOK(s: State, z: Side) {
    forall w :: Pk(s, z).lock == Some(w) <==> (Th(s, w).pc.WakeUnpark? && Th(s, w).pc.of == z)
  }

  predicate Notified(s: State, x: Side) {
    Th(s, x).token || (Th(s, Other(x)).pc.WakeUnpark? && Th(s, Other(x)).pc.of == x)
  }

  predicate Locking(pc: PC, z: Side) {
    pc.WakeLock? && pc.of == z
  }

  /** A registered side can be found: its flag is up, in memory or on the way there, or the peer has
      seen it up and is on its way to the handle. */
  predicate Findable(s: State, x: Side) {
    Registered(Th(s, x).pc) ==>
      || Notified(s, x)
      || (Pk(s, x).registered
          && (Th(s, x).pc.PrepFlag? || Pk(s, x).parked || SetParked(x, true) in Th(s, x).buf || Locking(Th(s, Other(x)).pc, x)))
  }

  /** The peer has done what the side waits for, although the side's own check missed it. */
  predicate MissedCtr(s: State, x: Side) {
    (Th(s, x).pc.RecheckGone? || Th(s, x).pc.Park?) && !Blocked(s.cfg.cap, x, Th(s, x).ctr, Th(s, Other(x)).pub)
  }

  predicate MissedGone(s: State, x: Side) {
    Th(s, x).pc.Park? && Dropping(Th(s, Other(x)).pc)
  }

  predicate OwedOK(s: State, x: Side) {
    && (MissedCtr(s, x) ==> Th(s, x).token || Owes(Th(s, Other(x)).pc, x) || (x.Tx? && s.skipped))
    && (MissedGone(s, x) ==> Th(s, x).token || Owes(Th(s, Other(x)).pc, x))
  }

  /** A stored counter is in memory unless its thread is at the fence, or has skipped the wake. */
  predicate Flushed(s: State, x: Side) {
    Ctr(s, x) == Th(s, x).pub || Th(s, x).pc == Fence || Th(s, x).pc == GoneFence || (x.Rx? && s.skipped)
  }

  predicate PcOK(s: State, x: Side) {
    match Th(s, x).pc
    case CheckGone(_) => x.Tx?
    case LoadGone(_) => x.Rx?
    case ReloadAgain => x.Rx?
    case DrainReload(c, _) => x.Rx? && Th(s, x).ctr == Th(s, x).pub + c
    case Callback(c, _) => x.Rx? && c > 0 && Th(s, x).ctr == Th(s, x).pub + c
    case StoreCtr(w) => (!w ==> x.Rx?) && Th(s, x).ctr > Th(s, x).pub
    case WakeLoad(z, n) => (n == Done && z == Other(x)) || (n == WakeTx && z.Rx?) || (n == Quit && z.Tx?)
    case WakeClear(z, n) => (n == Done && z == Other(x)) || (n == WakeTx && z.Rx?) || (n == Quit && z.Tx?)
    case WakeLock(z, n) => (n == Done && z == Other(x)) || (n == WakeTx && z.Rx?) || (n == Quit && z.Tx?)
    case WakeUnpark(z, n) => (n == Done && z == Other(x)) || (n == WakeTx && z.Rx?) || (n == Quit && z.Tx?)
    case _ => true
  }

  predicate GoneOK(s: State) {
    && (s.gone ==> Dropping(Th(s, Tx).pc) || Dropping(Th(s, Rx).pc))
    && (s.skipped ==> !Dropping(Th(s, Rx).pc) && !Owes(Th(s, Rx).pc, Tx))
    && (forall x :: Dropping(Th(s, x).pc) ==> s.gone || (Th(s, x).pc == GoneFence && SetGone in Th(s, x).buf))
  }

  ghost predicate SideInv(s: State, x: Side) {
    && CountersOK(s, x) && BufferOK(Th(s, x), x) && LockOK(s, x) && Findable(s, x) && OwedOK(s, x)
    && Flushed(s, x) && PcOK(s, x)
  }

  ghost predicate Inv(s: State) {
    s.cfg.fences && s.cfg.lockDrains && s.cfg.cap > 0 && SideInv(s, Tx) && SideInv(s, Rx) && GoneOK(s)
  }

  lemma InvInit(s: State)
    requires Init(s) && s.cfg.fences && s.cfg.lockDrains
    ensures Inv(s)
  {
  }

  // ---------- a buffered store reaches memory ----------

  lemma FlushKeepsCounters(s: State, x: Side, s': State)
    requires Th(s, x).buf != [] && s' == FlushOne(s, x)
    requires CountersOK(s, x) && CountersOK(s, Other(x)) && Flushed(s, x)
    ensures CountersOK(s', x) && CountersOK(s', Other(x)) && Flushed(s', x)
  {
    hide Th, Pk, Ctr, Put, PutPk, PutCtr, PutFlags;
    var buf := Th(s, x).buf;
    CountsBound(buf, Ctr(s, x), Th(s, x).pub);
    CountsBound(buf[1..], if buf[0].SetCtr? then buf[0].n else Ctr(s, x), Th(s, x).pub);
  }

  lemma FlushKeepsBuffer(s: State, x: Side, s': State)
    requires Th(s, x).buf != [] && s' == FlushOne(s, x)
    requires BufferOK(Th(s, x), x)
    ensures BufferOK(Th(s', x), x)
  {
    hide Th, Pk, Ctr, Put, PutPk, PutCtr, PutFlags;
    var buf := Th(s, x).buf;
    assert forall w :: w in buf[1..] ==> w in buf;
    assert Th(s', x) == Th(s, x).(buf := buf[1..]);
  }

  lemma FlushKeepsFindable(s: State, x: Side, s': State)
    requires Th(s, x).buf != [] && s' == FlushOne(s, x)
    requires BufferOK(Th(s, x), x) && Findable(s, x) && Findable(s, Other(x))
    ensures Findable(s', x) && Findable(s', Other(x))
  {
    hide Th, Pk, Ctr, Put, PutPk, PutCtr, PutFlags;
    var buf := Th(s, x).buf;
    assert WriteOK(Th(s, x).pc, x, buf[0]);
    assert forall w :: w in buf ==> w == buf[0] || w in buf[1..];
  }

  lemma FlushKeepsGone(s: State, x: Side, s': State)
    requires Th(s, x).buf != [] && s' == FlushOne(s, x)
    requires BufferOK(Th(s, x), x) && GoneOK(s)
    ensures GoneOK(s')
  {
    hide Th, Pk, Ctr, Put, PutPk, PutCtr, PutFlags;
    assert WriteOK(Th(s, x).pc, x, Th(s, x).buf[0]);
    assert forall z :: Th(s', z).pc == Th(s, z).pc;
  }

  lemma FlushKeepsRest(s: State, x: Side, s': State)
    requires Th(s, x).buf != [] && s' == FlushOne(s, x)
    ensures Th(s', Other(x)) == Th(s, Other(x))
    ensures forall z :: LockOK(s, z) ==> LockOK(s', z)
    ensures forall z :: OwedOK(s, z) ==> OwedOK(s', z)
    ensures forall z :: PcOK(s, z) ==> PcOK(s', z)
    ensures Flushed(s, Other(x)) ==> Flushed(s', Other(x))
  {
    hide Th, Pk, Ctr, Put, PutPk, PutCtr, PutFlags;
  }

  lemma KeepFlush(s: State, x: Side, s': State)
    requires Inv(s) && Th(s, x).buf != [] && s' == FlushOne(s, x)
    ensures Inv(s')
  {
    hide Th, Pk, Ctr, Put, PutPk, PutCtr, PutFlags;
    assert s'.cfg == s.cfg;
    hide FlushOne, CountersOK, BufferOK, LockOK, Findable, OwedOK, Flushed, PcOK, GoneOK;
    assert SideInv(s, x) && SideInv(s, Other(x));
    FlushKeepsCounters(s, x, s');
    FlushKeepsBuffer(s, x, s');
    FlushKeepsFindable(s, x, s');
    FlushKeepsGone(s, x, s');
    FlushKeepsRest(s, x, s');
  }

  // ---------- steps that do not touch the protocol ----------

  /** The thread neither waits, nor wakes, nor has anything to announce. */
  predicate Quiet(pc: PC) {
    !Registered(pc) && !Waking(pc) && !Dropping(pc) && pc != Fence
  }

  /** The part of `CountersOK` that concerns the thread alone. */
  predicate LocalOK(th: Thread, x: Side, cap: nat) {
    && th.pub <= th.ctr && (!Ahead(th.pc) ==> th.pub == th.ctr)
    && (if x.Tx? then th.cached <= th.ctr <= th.cached + cap else th.ctr <= th.cached)
  }

  predicate QuietStep(s: State, x: Side, th': Thread) {
    var th := Th(s, x);
    && Quiet(th.pc) && Quiet(th'.pc)
    && th' == th.(pc := th'.pc, ctr := th'.ctr, cached := th'.cached)
    && th'.cached <= Ctr(s, Other(x)) && LocalOK(th', x, s.cfg.cap)
  }

  lemma QuietKeepsPeer(s: State, x: Side, th': Thread, s': State)
    requires QuietStep(s, x, th') && s' == Put(s, x, th')
    ensures forall z :: LockOK(s, z) ==> LockOK(s', z)
    ensures forall z :: Findable(s, z) ==> Findable(s', z)
    ensures forall z :: OwedOK(s, z) ==> OwedOK(s', z)
    ensures Flushed(s, x) ==> Flushed(s', x)
    ensures GoneOK(s) ==> GoneOK(s')
  {
    hide Th, Pk, Ctr, Put;
  }

  lemma QuietKeepsCounters(s: State, x: Side, th': Thread, s': State)
    requires QuietStep(s, x, th') && s' == Put(s, x, th')
    requires CountersOK(s, x) && CountersOK(s, Other(x)) && BufferOK(Th(s, x), x)
    ensures CountersOK(s', x) && CountersOK(s', Other(x)) && BufferOK(th', x)
  {
    hide Th, Pk, Ctr, Put;
  }

  lemma QuietKeeps(s: State, x: Side, th': Thread, s': State)
    requires Inv(s) && QuietStep(s, x, th') && s' == Put(s, x, th') && PcOK(s', x)
    ensures Inv(s')
  {
    hide Th, Pk, Ctr, Put, QuietStep, CountersOK, BufferOK, LockOK, Findable, OwedOK, GoneOK;
    assert SideInv(s, x) && SideInv(s, Other(x));
    QuietKeepsPeer(s, x, th', s');
    QuietKeepsCounters(s, x, th', s');
    assert SideInv(s', x) && SideInv(s', Other(x));
  }

  lemma PutTwice(s: State, x: Side, a: Thread, b: Thread)
    ensures Put(Put(s, x, a), x, b) == Put(s, x, b)
    ensures Put(s, x, Th(s, x)) == s
  {
  }

  lemma KeepTest(s: State, x: Side, b: bool, s': State)
    requires Inv(s) && Quiet(Th(s, x).pc) && !Ahead(Th(s, x).pc) && s' == Test(s, x, b)
    ensures Inv(s')
  {
    hide Th, Pk, Ctr, Put, BufferOK, LockOK, Findable, OwedOK, GoneOK;
    assert SideInv(s, x) && SideInv(s, Other(x));
    QuietKeeps(s, x, Th(s', x), s');
  }

  lemma KeepBegin(s: State, x: Side, b: bool, s': State)
    requires Inv(s) && Quiet(Th(s, x).pc) && !Ahead(Th(s, x).pc) && s' == Begin(s, x, b)
    ensures Inv(s')
  {
    hide Th, Pk, Ctr, Put, BufferOK, LockOK, Findable, OwedOK, GoneOK, Test;
    assert SideInv(s, x) && SideInv(s, Other(x));
    if x.Tx? {
      QuietKeeps(s, x, Th(s', x), s');
    } else {
      KeepTest(s, x, b, s');
    }
  }

  lemma KeepCheckGone(s: State, x: Side, quirk: bool, s': State)
    requires Inv(s) && Th(s, x).pc.CheckGone? && StepEnabled(s, x, quirk) && s' == StepOf(s, x, quirk)
    ensures Inv(s')
  {
    hide Th, Pk, Ctr, Put, BufferOK, LockOK, Findable, OwedOK, GoneOK, Test;
    assert SideInv(s, x) && SideInv(s, Other(x));
    if LoadDisconnected(s, x) {
      QuietKeeps(s, x, Th(s', x), s');
    } else {
      KeepTest(s, x, Th(s, x).pc.b, s');
    }
  }

  lemma KeepReload(s: State, x: Side, s': State)
    requires Inv(s) && Th(s, x).pc.Reload? && s' == StepReload(s, x, Th(s, x).pc.b)
    ensures Inv(s')
  {
    hide Th, Pk, Ctr, Put, BufferOK, LockOK, Findable, OwedOK, GoneOK, Flushed;
    assert SideInv(s, x) && SideInv(s, Other(x));
    PutTwice(s, x, Th(s, x).(cached := Ctr(s, Other(x))), Th(s', x));
    CountersMeet(s, x);
    hide Counts, SideInv;
    QuietKeeps(s, x, Th(s', x), s');
  }

  /** The private counters stay within the bounds set by what the peer has in memory. */
  lemma CountersMeet(s: State, x: Side)
    requires CountersOK(s, x) && CountersOK(s, Other(x))
    ensures Th(s, x).cached <= Ctr(s, Other(x))
    ensures if x.Tx? then Ctr(s, Rx) <= Th(s, x).ctr <= Ctr(s, Rx) + s.cfg.cap else Th(s, x).ctr <= Ctr(s, Tx)
  {
    CountsBound(Th(s, x).buf, Ctr(s, x), Th(s, x).pub);
    CountsBound(Th(s, Other(x)).buf, Ctr(s, Other(x)), Th(s, Other(x)).pub);
  }

  lemma KeepLoadGone(s: State, x: Side, quirk: bool, s': State)
    requires Inv(s) && Th(s, x).pc.LoadGone? && StepEnabled(s, x, quirk) && s' == StepOf(s, x, quirk)
    ensures Inv(s')
  {
    hide Th, Pk, Ctr, Put, BufferOK, LockOK, Findable, OwedOK, GoneOK, LoadDisconnected;
    assert SideInv(s, x) && SideInv(s, Other(x));
    QuietKeeps(s, x, Th(s', x), s');
  }

  lemma KeepReloadAgain(s: State, x: Side, quirk: bool, s': State)
    requires Inv(s) && Th(s, x).pc.ReloadAgain? && StepEnabled(s, x, quirk) && s' == StepOf(s, x, quirk)
    ensures Inv(s')
  {
    hide Th, Pk, Ctr, Put, BufferOK, LockOK, Findable, OwedOK, GoneOK, Flushed;
    assert SideInv(s, x) && SideInv(s, Other(x));
    PutTwice(s, x, Th(s, x).(cached := Ctr(s, Tx)), Th(s', x));
    CountersMeet(s, x);
    hide Counts, SideInv;
    QuietKeeps(s, x, Th(s', x), s');
  }

  lemma KeepDrainReload(s: State, x: Side, quirk: bool, s': State)
    requires Inv(s) && Th(s, x).pc.DrainReload? && StepEnabled(s, x, quirk) && s' == StepOf(s, x, quirk)
    ensures Inv(s')
  {
    hide Th, Pk, Ctr, Put, BufferOK, LockOK, Findable, OwedOK, GoneOK, Flushed;
    assert SideInv(s, x) && SideInv(s, Other(x));
    PutTwice(s, x, Th(s, x).(cached := Ctr(s, Tx)), Th(s', x));
    CountersMeet(s, x);
    hide Counts, SideInv;
    QuietKeeps(s, x, Th(s', x), s');
  }

  lemma KeepDrainTest(s: State, count: nat, max: nat, s': State)
    requires Inv(s) && Quiet(Th(s, Rx).pc) && Th(s, Rx).ctr == Th(s, Rx).pub + count && s' == DrainTest(s, count, max)
    ensures Inv(s')
  {
    hide Th, Pk, Ctr, Put, BufferOK, LockOK, Findable, OwedOK, GoneOK;
    assert SideInv(s, Rx) && SideInv(s, Other(Rx));
    QuietKeeps(s, Rx, Th(s', Rx), s');
  }

  lemma KeepCallback(s: State, x: Side, quirk: bool, s': State)
    requires Inv(s) && Th(s, x).pc.Callback? && StepEnabled(s, x, quirk) && s' == StepOf(s, x, quirk)
    ensures Inv(s')
  {
    hide Th, Pk, Ctr, Put, BufferOK, LockOK, Findable, OwedOK, GoneOK, DrainTest;
    assert SideInv(s, x) && SideInv(s, Other(x));
    if quirk {
      QuietKeeps(s, x, Th(s', x), s');
    } else {
      KeepDrainTest(s, Th(s, Rx).pc.count, Th(s, Rx).pc.max, s');
    }
  }

  // ---------- steps of the protocol ----------

  /** The counters of both sides stay, and at most one store to another place is issued. */
  ghost predicate SameCounters(s: State, x: Side, s': State) {
    var th, th' := Th(s, x), Th(s', x);
    && s'.cfg == s.cfg && !Ahead(th.pc) && !Ahead(th'.pc)
    && Th(s', Other(x)) == Th(s, Other(x)).(token := Th(s', Other(x)).token)
    && th'.ctr == th.ctr && th'.pub == th.pub && th'.cached == th.cached
    && (th'.buf == th.buf || (exists w: Write :: !w.SetCtr? && th'.buf == th.buf + [w]))
    && Ctr(s', Tx) == Ctr(s, Tx) && Ctr(s', Rx) == Ctr(s, Rx)
  }

  lemma SameCountersKeep(s: State, x: Side, s': State)
    requires SameCounters(s, x, s') && CountersOK(s, x) && CountersOK(s, Other(x))
    ensures CountersOK(s', x) && CountersOK(s', Other(x))
  {
    hide Th, Ctr;
    var th, th' := Th(s, x), Th(s', x);
    if th'.buf != th.buf {
      var w: Write :| !w.SetCtr? && th'.buf == th.buf + [w];
      CountsAppend(th.buf, Ctr(s, x), th.pub, w);
    }
  }

  /** Neither before nor after the step does the thread wake anyone or have anything to announce. */
  predicate Private(pc: PC) {
    !Waking(pc) && !Dropping(pc) && pc != Fence
  }

  /** A step that changes nothing but the thread's own control state, token, buffer and registration. */
  predicate WaitStep(s: State, x: Side, s': State) {
    && Private(Th(s, x).pc) && Private(Th(s', x).pc) && Th(s', x).pub == Th(s, x).pub
    && s'.cfg == s.cfg && s'.gone == s.gone && s'.skipped == s.skipped
    && Th(s', Other(x)) == Th(s, Other(x)) && Pk(s', Other(x)) == Pk(s, Other(x))
    && Pk(s', x).lock == Pk(s, x).lock
    && Ctr(s', Tx) == Ctr(s, Tx) && Ctr(s', Rx) == Ctr(s, Rx)
  }

  lemma WaitKeepsPeer(s: State, x: Side, s': State)
    requires WaitStep(s, x, s')
    ensures LockOK(s, x) ==> LockOK(s', x)
    ensures LockOK(s, Other(x)) ==> LockOK(s', Other(x))
    ensures Findable(s, Other(x)) ==> Findable(s', Other(x))
    ensures OwedOK(s, Other(x)) ==> OwedOK(s', Other(x))
    ensures Flushed(s, Other(x)) ==> Flushed(s', Other(x))
    ensures Flushed(s, x) ==> Flushed(s', x)
    ensures PcOK(s, Other(x)) ==> PcOK(s', Other(x))
    ensures GoneOK(s) ==> GoneOK(s')
  {
    hide Th, Pk, Ctr;
    assert forall z :: z == x || Th(s', z) == Th(s, z);
  }

  /** A side that has not got past its own check has missed nothing, and need not be found before it registers. */
  lemma OwesNothing(s: State, x: Side)
    requires !Th(s, x).pc.RecheckGone? && !Th(s, x).pc.Park?
    ensures OwedOK(s, x) && (!Registered(Th(s, x).pc) ==> Findable(s, x))
  {
  }

  /** A step of a waiting side keeps everything once it keeps the conditions on that side. */
  lemma WaitKeeps(s: State, x: Side, s': State)
    requires Inv(s) && WaitStep(s, x, s') && SameCounters(s, x, s')
    requires BufferOK(Th(s', x), x) && Findable(s', x) && OwedOK(s', x) && PcOK(s', x)
    ensures Inv(s')
  {
    hide Th, Pk, Ctr;
    assert s'.cfg == s.cfg && Th(s', Other(x)) == Th(s, Other(x));
    hide WaitStep, SameCounters, CountersOK, BufferOK, LockOK, Findable, OwedOK, Flushed, PcOK, GoneOK;
    assert SideInv(s, x) && SideInv(s, Other(x));
    SameCountersKeep(s, x, s');
    WaitKeepsPeer(s, x, s');
    assert SideInv(s', x) && SideInv(s', Other(x));
  }

  lemma KeepPrepLock(s: State, x: Side, s': State)
    requires Inv(s) && Th(s, x).pc.PrepLock? && Drained(s, x) && s' == SetPC(PutPk(s, x, Pk(s, x).(registered := true)), x, PrepFlag)
    ensures Inv(s')
  {
    hide Th, Pk, Ctr, Put, PutPk, PutFlags, CountersOK, LockOK, GoneOK, Flushed, OwedOK;
    assert SideInv(s, x) && SideInv(s, Other(x));
    OwesNothing(s', x);
    WaitKeeps(s, x, s');
  }

  lemma KeepPrepFlag(s: State, x: Side, s': State)
    requires Inv(s) && Th(s, x).pc.PrepFlag? && s' == IssueParked(s, x, x, true, PrepFence)
    ensures Inv(s')
  {
    hide Th, Pk, Ctr, Put, PutPk, PutFlags, CountersOK, LockOK, GoneOK, Flushed, OwedOK;
    assert SideInv(s, x) && SideInv(s, Other(x));
    OwesNothing(s', x);
    WaitKeeps(s, x, s');
  }

  lemma KeepPrepFence(s: State, x: Side, s': State)
    requires Inv(s) && Th(s, x).pc.PrepFence? && Drained(s, x) && s' == SetPC(s, x, RecheckCtr)
    ensures Inv(s')
  {
    hide Th, Pk, Ctr, Put, PutPk, PutFlags, CountersOK, LockOK, GoneOK, Flushed, OwedOK;
    assert SideInv(s, x) && SideInv(s, Other(x));
    OwesNothing(s', x);
    WaitKeeps(s, x, s');
  }

  lemma KeepRecheckCtr(s: State, x: Side, s': State)
    requires Inv(s) && Th(s, x).pc.RecheckCtr? && s' == StepRecheckCtr(s, x)
    ensures Inv(s')
  {
    hide Th, Pk, Ctr, Put, PutPk, PutFlags, CountersOK, LockOK, GoneOK;
    assert SideInv(s, x) && SideInv(s, Other(x));
    CountersMeet(s, x);
    WaitKeeps(s, x, s');
  }

  lemma KeepRecheckGone(s: State, x: Side, s': State)
    requires Inv(s) && Th(s, x).pc.RecheckGone? && s' == SetPC(s, x, if LoadDisconnected(s, x) then Cancel else Park)
    ensures Inv(s')
  {
    hide Th, Pk, Ctr, Put, PutPk, PutFlags;
    assert Dropping(Th(s, Other(x)).pc) ==> LoadDisconnected(s, x) || Th(s, Other(x)).pc == GoneFence;
    hide CountersOK, LockOK, GoneOK, Flushed;
    assert SideInv(s, x) && SideInv(s, Other(x));
    WaitKeeps(s, x, s');
  }

  lemma KeepPark(s: State, x: Side, s': State)
    requires Inv(s) && Th(s, x).pc.Park? && s' == Put(s, x, Th(s, x).(token := false, pc := ClearFlag))
    ensures Inv(s')
  {
    hide Th, Pk, Ctr, Put, PutPk, PutFlags, CountersOK, LockOK, GoneOK, Flushed, OwedOK;
    assert SideInv(s, x) && SideInv(s, Other(x));
    OwesNothing(s', x);
    WaitKeeps(s, x, s');
  }

  /** Both `cancel` and the return from `park` end with the flag cleared, and the call starts over. */
  lemma KeepWithdraw(s: State, x: Side, s': State)
    requires Inv(s) && (Th(s, x).pc.Cancel? || Th(s, x).pc.ClearFlag?) && s' == IssueParked(s, x, x, false, Idle)
    ensures Inv(s')
  {
    hide Th, Pk, Ctr, Put, PutPk, PutFlags, CountersOK, LockOK, GoneOK, Flushed, OwedOK, Findable;
    assert SideInv(s, x) && SideInv(s, Other(x));
    OwesNothing(s', x);
    WaitKeeps(s, x, s');
  }

  // ---------- steps of a waker ----------

  /** A step of a thread that neither waits before nor after it; `y` is the peer. */
  predicate WakeStep(s: State, x: Side, s': State) {
    var y := Other(x);
    && !Registered(Th(s, x).pc) && !Registered(Th(s', x).pc)
    && s'.cfg == s.cfg && s'.gone == s.gone
    && Th(s', y) == Th(s, y).(token := Th(s', y).token) && (Th(s, y).token ==> Th(s', y).token)
    && Pk(s', y).parked == Pk(s, y).parked && Pk(s', x).parked == Pk(s, x).parked
    && (s.skipped == s'.skipped || x.Rx?)
  }

  /** It keeps everything once the peer stays findable and owed, and its own bookkeeping is in order. */
  lemma WakeKeeps(s: State, x: Side, s': State)
    requires Inv(s) && WakeStep(s, x, s') && CountersOK(s', x) && CountersOK(s', Other(x))
    requires BufferOK(Th(s', x), x) && PcOK(s', x) && Flushed(s', x) && Flushed(s', Other(x)) && GoneOK(s')
    requires LockOK(s', x) && LockOK(s', Other(x)) && Findable(s', Other(x)) && OwedOK(s', Other(x))
    ensures Inv(s')
  {
    hide Th, Pk, Ctr, CountersOK, LockOK, Flushed, Findable, OwedOK, GoneOK;
    assert SideInv(s, x) && SideInv(s, Other(x));
    OwesNothing(s', x);
    assert SideInv(s', x) && SideInv(s', Other(x));
  }

  lemma KeepFence(s: State, x: Side, s': State)
    requires Inv(s) && Th(s, x).pc.Fence? && Drained(s, x) && s' == SetPC(s, x, WakeLoad(Other(x), Done))
    ensures Inv(s')
  {
    hide Th, Pk, Ctr, Put, PutPk, PutFlags;
    assert Ctr(s, x) == Th(s, x).pub;
    hide CountersOK;
    assert SideInv(s, x) && SideInv(s, Other(x));
    SameCountersKeep(s, x, s');
    WakeKeeps(s, x, s');
  }

  lemma KeepGoneFence(s: State, x: Side, s': State)
    requires Inv(s) && Th(s, x).pc.GoneFence? && Drained(s, x) && s' == SetPC(s, x, WakeLoad(Rx, WakeTx))
    ensures Inv(s')
  {
    hide Th, Pk, Ctr, Put, PutPk, PutFlags;
    assert Ctr(s, x) == Th(s, x).pub;
    hide CountersOK;
    assert SideInv(s, x) && SideInv(s, Other(x));
    SameCountersKeep(s, x, s');
    WakeKeeps(s, x, s');
  }

  /** Only the hand-over under the lock matters for the lock. */
  lemma UnlockedKeepsLock(s: State, x: Side, s': State)
    requires !Th(s, x).pc.WakeUnpark? && !Th(s', x).pc.WakeUnpark?
    requires Th(s', Other(x)).pc == Th(s, Other(x)).pc
    requires Pk(s', Tx).lock == Pk(s, Tx).lock && Pk(s', Rx).lock == Pk(s, Rx).lock
    requires LockOK(s, Tx) && LockOK(s, Rx)
    ensures LockOK(s', Tx) && LockOK(s', Rx)
  {
    hide Th, Pk;
    assert forall z :: z == x || Th(s', z).pc == Th(s, z).pc;
  }

  lemma KeepWakeLoad(s: State, x: Side, s': State)
    requires Inv(s) && Th(s, x).pc.WakeLoad? && s' == StepWakeLoad(s, x, Th(s, x).pc.of, Th(s, x).pc.next)
    ensures Inv(s')
  {
    hide Th, Pk, Ctr, Put, PutPk, PutFlags, CountersOK, LockOK;
    assert SideInv(s, x) && SideInv(s, Other(x));
    SameCountersKeep(s, x, s');
    UnlockedKeepsLock(s, x, s');
    WakeKeeps(s, x, s');
  }

  lemma KeepWakeClear(s: State, x: Side, s': State)
    requires Inv(s) && Th(s, x).pc.WakeClear? && s' == IssueParked(s, x, Th(s, x).pc.of, false, WakeLock(Th(s, x).pc.of, Th(s, x).pc.next))
    ensures Inv(s')
  {
    hide Th, Pk, Ctr, Put, PutPk, PutFlags, CountersOK;
    assert SideInv(s, x) && SideInv(s, Other(x));
    SameCountersKeep(s, x, s');
    WakeKeeps(s, x, s');
  }

  lemma LockKeepsLock(s: State, x: Side, z: Side, next: Then, s': State)
    requires Th(s, x).pc == WakeLock(z, next) && Pk(s, z).lock == None && s' == StepLock(s, x, z, next)
    requires LockOK(s, Tx) && LockOK(s, Rx)
    ensures LockOK(s', Tx) && LockOK(s', Rx)
  {
    hide Th, Pk, Ctr, Put, PutPk, PutFlags;
  }

  lemma KeepWakeLock(s: State, x: Side, s': State)
    requires Inv(s) && Th(s, x).pc.WakeLock? && Drained(s, x) && s' == StepLock(s, x, Th(s, x).pc.of, Th(s, x).pc.next)
      && Pk(s, Th(s, x).pc.of).lock == None
    ensures Inv(s')
  {
    hide Th, Pk, Ctr, Put, PutPk, PutFlags, CountersOK, LockOK;
    assert SideInv(s, x) && SideInv(s, Other(x));
    SameCountersKeep(s, x, s');
    LockKeepsLock(s, x, Th(s, x).pc.of, Th(s, x).pc.next, s');
    WakeKeeps(s, x, s');
  }

  lemma UnparkKeepsLock(s: State, x: Side, z: Side, next: Then, s': State)
    requires Th(s, x).pc == WakeUnpark(z, next) && PcOK(s, x) && s' == StepUnpark(s, x, z, next)
    requires LockOK(s, Tx) && LockOK(s, Rx)
    ensures LockOK(s', Tx) && LockOK(s', Rx)
  {
    hide Th, Pk, Ctr, Put, PutPk, PutFlags;
  }

  lemma KeepWakeUnpark(s: State, x: Side, s': State)
    requires Inv(s) && Th(s, x).pc.WakeUnpark? && s' == StepUnpark(s, x, Th(s, x).pc.of, Th(s, x).pc.next)
    ensures Inv(s')
  {
    hide Th, Pk, Ctr, Put, PutPk, PutFlags, CountersOK, LockOK;
    assert SideInv(s, x) && SideInv(s, Other(x));
    SameCountersKeep(s, x, s');
    UnparkKeepsLock(s, x, Th(s, x).pc.of, Th(s, x).pc.next, s');
    WakeKeeps(s, x, s');
  }

  lemma KeepStoreGone(s: State, x: Side, s': State)
    requires Inv(s) && Th(s, x).pc.StoreGone? && s' == StepStoreGone(s, x)
    ensures Inv(s')
  {
    hide Th, Pk, Ctr, Put, PutPk, PutFlags, CountersOK;
    assert SideInv(s, x) && SideInv(s, Other(x));
    SameCountersKeep(s, x, s');
    WakeKeeps(s, x, s');
  }

  lemma StoreCtrKeepsCounters(s: State, x: Side, wake: bool, s': State)
    requires Th(s, x).pc == StoreCtr(wake) && s' == StepStoreCtr(s, x, wake)
    requires CountersOK(s, x) && CountersOK(s, Other(x))
    ensures CountersOK(s', x) && CountersOK(s', Other(x))
  {
    hide Th, Pk, Ctr, Put, PutPk, PutFlags;
    CountsAppend(Th(s, x).buf, Ctr(s, x), Th(s, x).pub, SetCtr(Th(s, x).ctr));
  }

  lemma KeepStoreCtr(s: State, x: Side, s': State)
    requires Inv(s) && Th(s, x).pc.StoreCtr? && s' == StepStoreCtr(s, x, Th(s, x).pc.wake)
    ensures Inv(s')
  {
    hide Th, Pk, Ctr, Put, PutPk, PutFlags, CountersOK;
    assert SideInv(s, x) && SideInv(s, Other(x));
    StoreCtrKeepsCounters(s, x, Th(s, x).pc.wake, s');
    WakeKeeps(s, x, s');
  }

  lemma NoiseKeepsSide(s: State, x: Side, token: bool, s': State, z: Side)
    requires s' == Put(s, x, Th(s, x).(token := token)) && (token || !Registered(Th(s, x).pc))
    ensures CountersOK(s, z) ==> CountersOK(s', z)
    ensures BufferOK(Th(s, z), z) ==> BufferOK(Th(s', z), z)
    ensures LockOK(s, z) ==> LockOK(s', z)
    ensures Findable(s, z) ==> Findable(s', z)
    ensures OwedOK(s, z) ==> OwedOK(s', z)
    ensures Flushed(s, z) ==> Flushed(s', z)
    ensures PcOK(s, z) ==> PcOK(s', z)
  {
    hide Th, Pk, Ctr, Put;
  }

  lemma KeepNoise(s: State, x: Side, token: bool, s': State)
    requires Inv(s) && Enabled(s, Noise(x, token)) && s' == Apply(s, Noise(x, token))
    ensures Inv(s')
  {
    hide Th, Pk, Ctr, Put, CountersOK, BufferOK, LockOK, Findable, OwedOK, Flushed, PcOK;
    NoiseKeepsSide(s, x, token, s', Tx);
    NoiseKeepsSide(s, x, token, s', Rx);
  }

  lemma KeepStartDrop(s: State, x: Side, s': State)
    requires Inv(s) && Th(s, x).pc == Idle && s' == SetPC(s, x, StoreGone)
    ensures Inv(s')
  {
    hide Th, Pk, Ctr, Put, BufferOK, LockOK, Findable, OwedOK, GoneOK;
    assert SideInv(s, x) && SideInv(s, Other(x));
    QuietKeeps(s, x, Th(s', x), s');
  }

  lemma KeepStartDrain(s: State, max: nat, s': State)
    requires Inv(s) && Th(s, Rx).pc == Idle && s' == DrainTest(s, 0, max)
    ensures Inv(s')
  {
    hide Th, Pk, Ctr, Put, BufferOK, LockOK, Findable, OwedOK, GoneOK, DrainTest;
    assert SideInv(s, Rx) && CountersOK(s, Rx);
    KeepDrainTest(s, 0, max, s');
  }

  lemma KeepStep(s: State, x: Side, quirk: bool, s': State)
    requires Inv(s) && StepEnabled(s, x, quirk) && s' == StepOf(s, x, quirk)
    ensures Inv(s')
  {
    hide SideInv, GoneOK, Th, Pk, Ctr, SetPC, Begin, IssueParked, StepReload, StepReloadAgain, StepDrainReload, StepStoreCtr, StepStoreGone,
      StepLock, StepUnpark, StepRecheckCtr, StepWakeLoad, DrainTest, Test;
    match Th(s, x).pc
    case CheckGone(_) => KeepCheckGone(s, x, quirk, s');
    case Reload(_) => KeepReload(s, x, s');
    case LoadGone(_) => KeepLoadGone(s, x, quirk, s');
    case ReloadAgain => KeepReloadAgain(s, x, quirk, s');
    case StoreCtr(_) => KeepStoreCtr(s, x, s');
    case Fence => KeepFence(s, x, s');
    case PrepLock => KeepPrepLock(s, x, s');
    case PrepFlag => KeepPrepFlag(s, x, s');
    case PrepFence => KeepPrepFence(s, x, s');
    case RecheckCtr => KeepRecheckCtr(s, x, s');
    case RecheckGone => KeepRecheckGone(s, x, s');
    case Cancel => KeepCancel(s, x, s');
    case Park => KeepPark(s, x, s');
    case ClearFlag => KeepCancel(s, x, s');
    case DrainReload(_, _) => KeepDrainReload(s, x, quirk, s');
    case Callback(_, _) => KeepCallback(s, x, quirk, s');
    case StoreGone => KeepStoreGone(s, x, s');
    case GoneFence => KeepGoneFence(s, x, s');
    case WakeLoad(_, _) => KeepWakeLoad(s, x, s');
    case WakeClear(_, _) => KeepWakeClear(s, x, s');
    case WakeLock(_, _) => KeepWakeLock(s, x, s');
    case WakeUnpark(_, _) => KeepWakeUnpark(s, x, s');
  }

  lemma KeepCancel(s: State, x: Side, s': State)
    requires Inv(s) && (Th(s, x).pc.Cancel? || Th(s, x).pc.ClearFlag?)
      && s' == Begin(IssueParked(s, x, x, false, Idle), x, true)
    ensures Inv(s')
  {
    hide SideInv, GoneOK, Th, Begin, Put;
    var s1 := IssueParked(s, x, x, false, Idle);
    KeepWithdraw(s, x, s1);
    KeepBegin(s1, x, true, s');
  }

  /** Every move keeps the invariant. */
  lemma InvStep(s: State, m: Move, s': State)
    requires Inv(s) && Enabled(s, m) && s' == Apply(s, m)
    ensures Inv(s')
  {
    hide SideInv, GoneOK, Th, StepEnabled, StepOf, FlushOne, Begin, DrainTest, SetPC, Put;
    match m
    case Flush(x) => KeepFlush(s, x, s');
    case Step(x, q) => KeepStep(s, x, q, s');
    case StartOp(x, b) => KeepBegin(s, x, b, s');
    case StartDrain(max) => KeepStartDrain(s, max, s');
    case StartDrop(x) => KeepStartDrop(s, x, s');
    case Noise(x, t) => KeepNoise(s, x, t, s');
  }
}

/**
 The invariant of the SPSC ring on store buffers, and the proof that every move keeps it: the slot writes and
 the tail stores alternate on their way to memory, so a tail in memory never runs ahead of the slots.
 */
module SpscBufferedInvariant {
  import opened Common
  import opened Arith
  import opened SpscBuffered
  import P = SpscPark
  import I = SpscParkInvariant

  // ---------- what a step of one side does to its own thread ----------

  predicate IsPlain(w: P.Write) {
    !w.SetCtr?
  }

  /** The buffer stays or gains one store that is not to the counter. */
  ghost predicate Gains(buf: seq<P.Write>, buf': seq<P.Write>) {
    buf' == buf || (|buf'| == |buf| + 1 && buf' == buf + [buf'[|buf|]] && IsPlain(buf'[|buf|]))
  }

  /** The thread keeps its counters or moves the private one on after a test against what it has seen of the
      peer; or it stores the private counter. */
  ghost predicate OwnStep(s: P.State, x: P.Side, s': P.State) {
    var th, th', peer := P.Th(s, x), P.Th(s', x), P.Ctr(s, P.Other(x));
    && (th'.cached == th.cached || th'.cached == peer)
    && if th.pc.StoreCtr? then th'.pub == th'.ctr == th.ctr && th'.buf == th.buf + [P.SetCtr(th.ctr)] && th'.cached == th.cached
       else
         && th'.pub == th.pub && Gains(th.buf, th'.buf)
         && (th'.ctr == th.ctr || (th'.ctr == th.ctr + 1 && !P.Blocked(s.cfg.cap, x, th.ctr, th'.cached)))
  }

  /** The control state of the sender. */
  ghost predicate SenderStep(s: P.State, s': P.State) {
    var th, th' := s.tx, s'.tx;
    && (th'.pc.StoreCtr? <==> th'.ctr == th.ctr + 1)
    && (I.Dropping(th.pc) ==> I.Dropping(th'.pc))
    && (P.SetGone in th'.buf && P.SetGone !in th.buf ==> I.Dropping(th'.pc))
  }

  ghost predicate ReceiverStep(s: P.State, s': P.State) {
    var th, th' := s.rx, s'.rx;
    && (I.Dropping(th.pc) ==> I.Dropping(th'.pc))
    && (P.SetGone in th'.buf && P.SetGone !in th.buf ==> I.Dropping(th'.pc))
    && (th'.pc.ReloadAgain? ==> th.pc.LoadGone? && P.LoadDisconnected(s, P.Rx))
  }

  /** What a step does not do: stores are buffered, and of the peer only the token changes. */
  predicate LeavesRest(s: P.State, x: P.Side, s': P.State) {
    var y := P.Other(x);
    && s'.cfg == s.cfg && s'.tail == s.tail && s'.head == s.head && s'.gone == s.gone
    && P.Th(s', y) == P.Th(s, y).(token := P.Th(s', y).token)
  }

  ghost predicate Effect(s: P.State, x: P.Side, s': P.State) {
    OwnStep(s, x, s') && LeavesRest(s, x, s') && if x.Tx? then SenderStep(s, s') else ReceiverStep(s, s')
  }

  lemma TestEffect(s: P.State, x: P.Side, b: bool)
    requires !P.Th(s, x).pc.StoreCtr? && !I.Dropping(P.Th(s, x).pc)
    ensures Effect(s, x, P.Test(s, x, b))
  {
  }

  lemma BeginEffect(s: P.State, x: P.Side, b: bool)
    requires !P.Th(s, x).pc.StoreCtr? && !I.Dropping(P.Th(s, x).pc)
    ensures Effect(s, x, P.Begin(s, x, b))
  {
    TestEffect(s, x, b);
  }

  /** The call starts over after the flag has been cleared. */
  lemma AgainEffect(s: P.State, x: P.Side)
    requires P.Th(s, x).pc.Cancel? || P.Th(s, x).pc.ClearFlag?
    ensures Effect(s, x, P.Begin(P.IssueParked(s, x, x, false, P.Idle), x, true))
  {
  }

  lemma ReloadEffect(s: P.State, x: P.Side, b: bool)
    requires P.Th(s, x).pc.Reload?
    ensures Effect(s, x, P.StepReload(s, x, b))
  {
  }

  lemma ReloadAgainEffect(s: P.State)
    requires P.Th(s, P.Rx).pc.ReloadAgain?
    ensures Effect(s, P.Rx, P.StepReloadAgain(s))
  {
  }

  lemma DrainTestEffect(s: P.State, count: nat, max: nat)
    requires P.Th(s, P.Rx).pc.Idle? || P.Th(s, P.Rx).pc.Callback?
    ensures Effect(s, P.Rx, P.DrainTest(s, count, max))
  {
  }

  lemma DrainReloadEffect(s: P.State, count: nat, max: nat)
    requires P.Th(s, P.Rx).pc.DrainReload?
    ensures Effect(s, P.Rx, P.StepDrainReload(s, count, max))
  {
  }

  lemma StoreEffect(s: P.State, x: P.Side, wake: bool)
    requires P.Th(s, x).pc == P.StoreCtr(wake)
    ensures Effect(s, x, P.StepStoreCtr(s, x, wake))
  {
  }

  lemma StoreGoneEffect(s: P.State, x: P.Side)
    requires P.Th(s, x).pc.StoreGone?
    ensures Effect(s, x, P.StepStoreGone(s, x))
  {
  }

  lemma IssueEffect(s: P.State, x: P.Side, z: P.Side, on: bool, pc: P.PC)
    requires !P.Th(s, x).pc.StoreCtr? && !pc.StoreCtr? && !pc.ReloadAgain?
    requires I.Dropping(P.Th(s, x).pc) ==> I.Dropping(pc)
    ensures Effect(s, x, P.IssueParked(s, x, z, on, pc))
  {
  }

  lemma PcEffect(s: P.State, x: P.Side, pc: P.PC)
    requires !P.Th(s, x).pc.StoreCtr? && !pc.StoreCtr? && (I.Dropping(P.Th(s, x).pc) ==> I.Dropping(pc))
    requires pc.ReloadAgain? && x.Rx? ==> P.Th(s, x).pc.LoadGone? && P.LoadDisconnected(s, P.Rx)
    ensures Effect(s, x, P.SetPC(s, x, pc))
  {
  }

  lemma LockEffect(s: P.State, x: P.Side, z: P.Side, next: P.Then)
    requires P.Th(s, x).pc == P.WakeLock(z, next)
    ensures Effect(s, x, P.StepLock(s, x, z, next))
  {
    var s1 := if P.Pk(s, z).registered then P.PutPk(s, z, P.Pk(s, z).(registered := false, lock := Some(x))) else s;
    PcEffect(s1, x, if P.Pk(s, z).registered then P.WakeUnpark(z, next) else P.After(next));
  }

  lemma UnparkEffect(s: P.State, x: P.Side, z: P.Side, next: P.Then)
    requires P.Th(s, x).pc == P.WakeUnpark(z, next)
    ensures Effect(s, x, P.StepUnpark(s, x, z, next))
  {
  }

  lemma CallbackEffect(s: P.State, q: bool, s': P.State)
    requires P.Th(s, P.Rx).pc.Callback? && s' == P.StepOf(s, P.Rx, q)
    ensures Effect(s, P.Rx, s')
  {
    if !q { DrainTestEffect(s, s.rx.pc.count, s.rx.pc.max); }
  }

  lemma ParkEffect(s: P.State, x: P.Side)
    requires P.Th(s, x).pc.Park?
    ensures Effect(s, x, P.Put(s, x, P.Th(s, x).(token := false, pc := P.ClearFlag)))
  {
  }

  lemma PrepLockEffect(s: P.State, x: P.Side)
    requires P.Th(s, x).pc.PrepLock?
    ensures Effect(s, x, P.SetPC(P.PutPk(s, x, P.Pk(s, x).(registered := true)), x, P.PrepFlag))
  {
  }

  /** Every step of a side, by its control state. */
  lemma StepEffect(s: P.State, x: P.Side, q: bool, s': P.State)
    requires P.StepEnabled(s, x, q) && s' == P.StepOf(s, x, q)
    ensures Effect(s, x, s')
  {
    hide Effect, P.Th, P.Put, P.PutPk, P.SetPC, P.Test, P.Begin, P.IssueParked, P.StepReload,
      P.StepReloadAgain, P.StepDrainReload, P.StepStoreCtr, P.StepStoreGone, P.StepLock, P.StepUnpark,
      P.DrainTest, P.LoadDisconnected, P.LoadParked;
    match P.Th(s, x).pc
    case CheckGone(b) => if P.LoadDisconnected(s, x) { PcEffect(s, x, P.Idle); } else { TestEffect(s, x, b); }
    case Reload(b) => ReloadEffect(s, x, b);
    case LoadGone(b) => PcEffect(s, x, if P.LoadDisconnected(s, x) then P.ReloadAgain else if b then P.PrepLock else P.Idle);
    case ReloadAgain => ReloadAgainEffect(s);
    case StoreCtr(w) => StoreEffect(s, x, w);
    case Fence => PcEffect(s, x, P.WakeLoad(P.Other(x), P.Done));
    case PrepLock => PrepLockEffect(s, x);
    case PrepFlag => IssueEffect(s, x, x, true, P.PrepFence);
    case PrepFence => PcEffect(s, x, P.RecheckCtr);
    case RecheckCtr => RecheckEffect(s, x);
    case RecheckGone => PcEffect(s, x, if P.LoadDisconnected(s, x) then P.Cancel else P.Park);
    case Cancel => AgainEffect(s, x);
    case Park => ParkEffect(s, x);
    case ClearFlag => AgainEffect(s, x);
    case DrainReload(c, m) => DrainReloadEffect(s, c, m);
    case Callback(_, _) => CallbackEffect(s, q, s');
    case StoreGone => StoreGoneEffect(s, x);
    case GoneFence => PcEffect(s, x, P.WakeLoad(P.Rx, P.WakeTx));
    case WakeLoad(z, n) => WakeLoadEffect(s, x);
    case WakeClear(z, n) => IssueEffect(s, x, z, false, P.WakeLock(z, n));
    case WakeLock(z, n) => LockEffect(s, x, z, n);
    case WakeUnpark(z, n) => UnparkEffect(s, x, z, n);
  }

  lemma RecheckEffect(s: P.State, x: P.Side)
    requires P.Th(s, x).pc.RecheckCtr?
    ensures Effect(s, x, P.StepRecheckCtr(s, x))
  {
    hide Effect, P.Th, P.Put;
    PcEffect(s, x, if P.StillBlocked(s.cfg.cap, x, P.Th(s, x).ctr, P.Ctr(s, P.Other(x)))
                   then P.RecheckGone else P.Cancel);
  }

  lemma WakeLoadEffect(s: P.State, x: P.Side)
    requires P.Th(s, x).pc.WakeLoad?
    ensures Effect(s, x, P.StepWakeLoad(s, x, P.Th(s, x).pc.of, P.Th(s, x).pc.next))
  {
    hide Effect, P.Th, P.Put;
    var z, n := P.Th(s, x).pc.of, P.Th(s, x).pc.next;
    PcEffect(s, x, if P.LoadParked(s, x, z) then P.WakeClear(z, n) else P.After(n));
  }

  lemma MoveEffect(s: P.State, m: P.Move, x: P.Side)
    requires P.Enabled(s, m) && Acts(m, x)
    ensures Effect(s, x, P.Apply(s, m))
  {
    hide Effect, P.Th, P.Put, P.SetPC, P.Begin, P.DrainTest, P.StepOf, P.StepEnabled;
    match m
    case Step(_, q) => StepEffect(s, x, q, P.Apply(s, m));
    case StartOp(_, b) => BeginEffect(s, x, b);
    case StartDrain(max) => DrainTestEffect(s, 0, max);
    case StartDrop(_) => PcEffect(s, x, P.StoreGone);
  }

  // ---------- the invariant ----------

  /** The control part of a buffer. */
  ghost function Controls(b: seq<Entry>): seq<P.Write> {
    if b == [] then [] else (if b[0].Control? then [b[0].w] else []) + Controls(b[1..])
  }

  /** Neither a slot write nor a store of the tail. */
  ghost predicate NoData(b: seq<Entry>) {
    forall e :: e in b ==> e.Control? && IsPlain(e.w)
  }

  /** From `lo` slot writes and the tail `t` in memory the buffer leads to the whole log and the tail `pub`: each
      slot write is that of the next payload, into its own slot, and the store of its tail comes
      before the next one. After the store of the flag comes nothing of the kind. */
  ghost predicate Ordered(b: seq<Entry>, cap: nat, log: seq<Ticket>, lo: nat, t: nat, pub: nat)
    requires cap > 0
  {
    if b == [] then lo == |log| && t == pub
    else match b[0]
      case Payload(i, v) => lo == t && lo < |log| && i == SlotOf(lo, cap) && v == log[lo] && Ordered(b[1..], cap, log, lo + 1, t, pub)
      case Control(SetCtr(n)) => n == lo == t + 1 && Ordered(b[1..], cap, log, lo, n, pub)
      case Control(SetGone) => NoData(b[1..]) && Ordered(b[1..], cap, log, lo, t, pub)
      case Control(_) => Ordered(b[1..], cap, log, lo, t, pub)
  }

  ghost predicate BufferOK(s: State) {
    && s.ctl.cfg.cap == |s.cells| > 0 && Controls(s.buffer) == s.ctl.tx.buf
    && Ordered(s.buffer, s.ctl.cfg.cap, s.log, s.landed, s.ctl.tail, s.ctl.tx.pub)
  }

  ghost predicate SenderOK(s: State) {
    var th := s.ctl.tx;
    && th.ctr == th.pub + (if th.pc.StoreCtr? then 1 else 0) && th.pub <= |s.log| <= th.ctr
    && th.cached <= s.ctl.head && th.ctr <= th.cached + s.ctl.cfg.cap
  }

  ghost predicate ReceiverOK(s: State) {
    var th := s.ctl.rx;
    && I.Counts(th.buf, s.ctl.head, th.pub)
    && th.pub <= |s.received| <= th.ctr <= |s.received| + 1 && th.ctr <= th.cached <= s.ctl.tail
  }

  /** Every unread payload whose write has landed is in its slot, and what has been read is the log. */
  ghost predicate SlotsOK(s: State) {
    && |s.cells| > 0 && |s.received| <= |s.log| && s.landed <= |s.log|
    && (forall k :: |s.received| <= k < s.landed ==> s.cells[SlotOf(k, |s.cells|)] == Some(s.log[k]))
    && (forall k :: 0 <= k < |s.received| ==> s.received[k] == Some(s.log[k]))
  }

  /** When the receiver finds the flag up, everything of the sender is in memory. */
  ghost predicate FlagOK(s: State) {
    && (P.SetGone in s.ctl.tx.buf ==> I.Dropping(s.ctl.tx.pc))
    && (P.SetGone in s.ctl.rx.buf ==> I.Dropping(s.ctl.rx.pc))
    && (s.ctl.gone ==> I.Dropping(s.ctl.rx.pc) || (I.Dropping(s.ctl.tx.pc) && NoData(s.buffer)))
    && (s.ctl.rx.pc.ReloadAgain? ==> s.ctl.gone)
  }

  ghost predicate Inv(s: State) {
    BufferOK(s) && SenderOK(s) && ReceiverOK(s) && SlotsOK(s) && FlagOK(s)
  }

  lemma InvInit(s: State)
    requires Init(s)
    ensures Inv(s)
  {
    assert P.Th(s.ctl, P.Tx) == s.ctl.tx && P.Th(s.ctl, P.Rx) == s.ctl.rx;
    assert P.Ctr(s.ctl, P.Tx) == s.ctl.tail && P.Ctr(s.ctl, P.Rx) == s.ctl.head;
  }

  // ---------- the buffer ----------

  lemma {:induction false} ControlsAppend(b: seq<Entry>, e: Entry)
    ensures Controls(b + [e]) == Controls(b) + (if e.Control? then [e.w] else [])
  {
    if b == [] {
      assert Controls([e]) == if e.Control? then [e.w] else [];
    } else {
      ControlsAppend(b[1..], e);
      assert (b + [e])[0] == b[0] && (b + [e])[1..] == b[1..] + [e];
    }
  }

  lemma {:induction false} ControlsHave(b: seq<Entry>, w: P.Write)
    ensures w in Controls(b) <==> Control(w) in b
  {
    if b != [] {
      ControlsHave(b[1..], w);
    }
  }

  lemma {:induction false} OrderedBounds(b: seq<Entry>, cap: nat, log: seq<Ticket>, lo: nat, t: nat, pub: nat)
    requires cap > 0 && Ordered(b, cap, log, lo, t, pub) && pub <= |log| <= pub + 1
    ensures t <= lo <= t + 1 && lo <= |log| && t <= pub
    ensures NoData(b) ==> lo == |log| && t == pub
  {
    if b != [] {
      var n := if b[0].Control? && b[0].w.SetCtr? then b[0].w.n else t;
      OrderedBounds(b[1..], cap, log, if b[0].Payload? then lo + 1 else lo, n, pub);
      assert forall e :: e in b[1..] ==> e in b;
    }
  }

  /** A store to another place than the tail. */
  lemma {:induction false} OrderedPlain(b: seq<Entry>, cap: nat, log: seq<Ticket>, lo: nat, t: nat, pub: nat, w: P.Write)
    requires cap > 0 && Ordered(b, cap, log, lo, t, pub) && IsPlain(w)
    ensures Ordered(b + [Control(w)], cap, log, lo, t, pub)
  {
    var e := Control(w);
    if b == [] {
      assert Ordered([], cap, log, lo, t, pub);
    } else {
      assert (b + [e])[1..] == b[1..] + [e];
      OrderedPlain(b[1..], cap, log, if b[0].Payload? then lo + 1 else lo, if b[0].Control? && b[0].w.SetCtr? then b[0].w.n else t, pub, w);
    }
  }

  /** The store of the new tail, after its slot write. */
  lemma {:induction false} OrderedTail(b: seq<Entry>, cap: nat, log: seq<Ticket>, lo: nat, t: nat, pub: nat)
    requires cap > 0 && Ordered(b, cap, log, lo, t, pub) && |log| == pub + 1 && Control(P.SetGone) !in b
    ensures Ordered(b + [Control(P.SetCtr(|log|))], cap, log, lo, t, |log|)
  {
    var e := Control(P.SetCtr(|log|));
    if b == [] {
      assert Ordered([], cap, log, lo, |log|, |log|);
    } else {
      assert (b + [e])[1..] == b[1..] + [e];
      OrderedTail(b[1..], cap, log, if b[0].Payload? then lo + 1 else lo, if b[0].Control? && b[0].w.SetCtr? then b[0].w.n else t, pub);
    }
  }

  /** The next slot write, after the store of the tail before it. */
  lemma {:induction false} OrderedSlot(b: seq<Entry>, cap: nat, log: seq<Ticket>, lo: nat, t: nat, pub: nat, v: Ticket)
    requires cap > 0 && Ordered(b, cap, log, lo, t, pub) && |log| == pub && Control(P.SetGone) !in b
    ensures Ordered(b + [Payload(SlotOf(|log|, cap), v)], cap, log + [v], lo, t, pub)
  {
    var e := Payload(SlotOf(|log|, cap), v);
    if b == [] {
      assert Ordered([], cap, log + [v], lo + 1, t, pub);
    } else {
      assert (b + [e])[1..] == b[1..] + [e];
      OrderedSlot(b[1..], cap, log, if b[0].Payload? then lo + 1 else lo, if b[0].Control? && b[0].w.SetCtr? then b[0].w.n else t, pub, v);
    }
  }

  // ---------- every move keeps it ----------

  /** A slot write of the sender. */
  lemma KeepWrite(s: State, v: Ticket, s': State)
    requires Inv(s) && Enabled(s, WriteSlot(v)) && s' == Apply(s, WriteSlot(v))
    ensures Inv(s')
  {
    hide Ordered;
    ControlsHave(s.buffer, P.SetGone);
    var e := Payload(SlotOf(|s.log|, s.ctl.cfg.cap), v);
    ControlsAppend(s.buffer, e);
    OrderedSlot(s.buffer, s.ctl.cfg.cap, s.log, s.landed, s.ctl.tail, s.ctl.tx.pub, v);
  }

  /** A read finds the oldest payload: its write has landed, because its tail has. */
  lemma ReadFinds(s: State)
    requires Inv(s) && Enabled(s, ReadSlot)
    ensures |s.received| < s.ctl.tail <= s.landed <= |s.log|
    ensures s.cells[SlotOf(|s.received|, s.ctl.cfg.cap)] == Some(s.log[|s.received|])
  {
    OrderedBounds(s.buffer, s.ctl.cfg.cap, s.log, s.landed, s.ctl.tail, s.ctl.tx.pub);
  }

  lemma KeepRead(s: State, s': State)
    requires Inv(s) && Enabled(s, ReadSlot) && s' == Apply(s, ReadSlot)
    ensures Inv(s')
  {
    ReadFinds(s);
    hide Ordered, I.Counts, Controls, NoData;
  }

  /** The oldest slot write hits a slot that holds no unread payload. */
  lemma WriteIsSafe(s: State)
    requires Inv(s) && s.buffer != [] && s.buffer[0].Payload?
    ensures s.buffer[0].slot == SlotOf(s.landed, s.ctl.cfg.cap) && s.landed < |s.log| && s.buffer[0].v == s.log[s.landed]
    ensures |s.log| <= |s.received| + s.ctl.cfg.cap
    ensures forall k :: |s.received| <= k < s.landed ==> SlotOf(k, s.ctl.cfg.cap) != s.buffer[0].slot
  {
    I.CountsBound(s.ctl.rx.buf, s.ctl.head, s.ctl.rx.pub);
    forall k | |s.received| <= k < s.landed ensures SlotOf(k, s.ctl.cfg.cap) != s.buffer[0].slot {
      SlotsDifferWithinALap(k, s.landed, s.ctl.cfg.cap);
    }
  }

  lemma KeepLanding(s: State, s': State)
    requires Inv(s) && s.buffer != [] && s.buffer[0].Payload? && s' == Flush(s)
    ensures Inv(s')
  {
    WriteIsSafe(s);
    assert forall e :: e in s.buffer[1..] ==> e in s.buffer;
    hide I.Counts;
  }

  /** What the oldest store of a buffer does in memory. */
  lemma FlushEffect(s: P.State, x: P.Side, s': P.State)
    requires P.Th(s, x).buf != [] && s' == P.FlushOne(s, x)
    ensures var w := P.Th(s, x).buf[0];
      && s'.cfg == s.cfg && s'.gone == (s.gone || w.SetGone?)
      && s'.tail == (if x.Tx? && w.SetCtr? then w.n else s.tail) && s'.head == (if x.Rx? && w.SetCtr? then w.n else s.head)
      && s'.tx == (if x.Tx? then s.tx.(buf := s.tx.buf[1..]) else s.tx) && s'.rx == (if x.Rx? then s.rx.(buf := s.rx.buf[1..]) else s.rx)
  {
  }

  /** A store of the sender reaches memory. */
  lemma KeepStoreFlush(s: State, s': State)
    requires Inv(s) && s.buffer != [] && s.buffer[0].Control? && s' == Flush(s)
    ensures Inv(s')
  {
    assert s.ctl.tx.buf != [] && s.ctl.tx.buf[0] == s.buffer[0].w;
    assert s.ctl.tx.buf[1..] == Controls(s.buffer[1..]);
    assert forall e :: e in s.buffer[1..] ==> e in s.buffer;
    assert forall w :: w in s.ctl.tx.buf[1..] ==> w in s.ctl.tx.buf;
    FlushEffect(s.ctl, P.Tx, s'.ctl);
    hide P.FlushOne;
    hide I.Counts;
  }

  /** A store of the receiver reaches memory. */
  lemma KeepFlushRx(s: State, s': State)
    requires Inv(s) && Enabled(s, Step(P.Flush(P.Rx))) && s' == Apply(s, Step(P.Flush(P.Rx)))
    ensures Inv(s')
  {
    var buf := s.ctl.rx.buf;
    assert s' == s.(ctl := P.FlushOne(s.ctl, P.Rx));
    FlushEffect(s.ctl, P.Rx, s'.ctl);
    hide Enabled, Apply, P.FlushOne;
    assert forall w :: w in buf[1..] ==> w in buf;
    I.CountsBound(buf, s.ctl.head, s.ctl.rx.pub);
    I.CountsBound(buf[1..], if buf[0].SetCtr? then buf[0].n else s.ctl.head, s.ctl.rx.pub);
    hide Ordered, Controls;
  }

  lemma KeepNoise(s: State, x: P.Side, token: bool, s': State)
    requires Inv(s) && Enabled(s, Step(P.Noise(x, token))) && s' == Apply(s, Step(P.Noise(x, token)))
    ensures Inv(s')
  {
    assert s'.buffer == s.buffer;
    hide Ordered, Controls, I.Counts, NoData;
  }

  lemma KeepSender(s: State, m: P.Move, s': State)
    requires Inv(s) && Enabled(s, Step(m)) && Acts(m, P.Tx) && s' == Apply(s, Step(m))
    ensures Inv(s')
  {
    MoveEffect(s.ctl, m, P.Tx);
    hide P.Enabled, P.Apply, Acts;
    SenderKeeps(s, s');
  }

  lemma SenderKeepsBuffer(s: State, s': State)
    requires BufferOK(s) && SenderOK(s) && FlagOK(s) && OwnStep(s.ctl, P.Tx, s'.ctl) && LeavesRest(s.ctl, P.Tx, s'.ctl) && |s.log| == s.ctl.tx.ctr
    requires s' == s.(ctl := s'.ctl, buffer := s.buffer + Stored(s.ctl.tx.buf, s'.ctl.tx.buf))
    ensures BufferOK(s') && (NoData(s.buffer) && !s.ctl.tx.pc.StoreCtr? ==> NoData(s'.buffer))
  {
    var th, th' := s.ctl.tx, s'.ctl.tx;
    ControlsHave(s.buffer, P.SetGone);
    if th'.buf != th.buf {
      var w := th'.buf[|th.buf|];
      assert th'.buf == th.buf + [w];
      ControlsAppend(s.buffer, Control(w));
      hide Controls;
      if w.SetCtr? {
        OrderedTail(s.buffer, s.ctl.cfg.cap, s.log, s.landed, s.ctl.tail, th.pub);
      } else {
        OrderedPlain(s.buffer, s.ctl.cfg.cap, s.log, s.landed, s.ctl.tail, th.pub, w);
      }
      assert s'.buffer == s.buffer + [Control(w)];
    } else {
      assert s'.buffer == s.buffer;
    }
    hide Ordered, Controls;
  }

  lemma SenderKeeps(s: State, s': State)
    requires Inv(s) && Effect(s.ctl, P.Tx, s'.ctl) && |s.log| == s.ctl.tx.ctr
    requires s' == s.(ctl := s'.ctl, buffer := s.buffer + Stored(s.ctl.tx.buf, s'.ctl.tx.buf))
    ensures Inv(s')
  {
    SenderKeepsBuffer(s, s');
    hide BufferOK, Ordered, Controls, I.Counts, NoData, Stored;
  }

  lemma KeepReceiver(s: State, m: P.Move, s': State)
    requires Inv(s) && Enabled(s, Step(m)) && Acts(m, P.Rx) && s' == Apply(s, Step(m))
    ensures Inv(s')
  {
    MoveEffect(s.ctl, m, P.Rx);
    hide P.Enabled, P.Apply, Acts;
    assert s'.buffer == s.buffer;
    ReceiverKeeps(s, s');
  }

  lemma ReceiverKeeps(s: State, s': State)
    requires Inv(s) && Effect(s.ctl, P.Rx, s'.ctl) && |s.received| == s.ctl.rx.ctr && s' == s.(ctl := s'.ctl)
    ensures Inv(s')
  {
    var th, th' := s.ctl.rx, s'.ctl.rx;
    if th'.buf != th.buf {
      I.CountsAppend(th.buf, s.ctl.head, th.pub, th'.buf[|th.buf|]);
    }
    hide Ordered, Controls, I.Counts, NoData;
  }

  /** Every move keeps the invariant. */
  lemma InvStep(s: State, m: Move, s': State)
    requires Inv(s) && Enabled(s, m) && s' == Apply(s, m)
    ensures Inv(s')
  {
    hide Inv;
    match m
    case WriteSlot(v) => KeepWrite(s, v, s');
    case ReadSlot => KeepRead(s, s');
    case FlushTx => if s.buffer[0].Payload? { KeepLanding(s, s'); } else { KeepStoreFlush(s, s'); }
    case Step(c) =>
      match c
      case Flush(_) => KeepFlushRx(s, s');
      case Noise(x, token) => KeepNoise(s, x, token, s');
      case Step(x, _) => if x.Tx? { KeepSender(s, c, s'); } else { KeepReceiver(s, c, s'); }
      case StartOp(x, _) => if x.Tx? { KeepSender(s, c, s'); } else { KeepReceiver(s, c, s'); }
      case StartDrain(_) => KeepReceiver(s, c, s');
      case StartDrop(x) => if x.Tx? { KeepSender(s, c, s'); } else { KeepReceiver(s, c, s'); }
  }
}

/**
 Store buffers and the MPSC ring: seen at the moments at which the stores reach memory, every run of
 `MpscBuffered` is a run of `MpscMachine`, up to loads that may return an old value of a store that no fence
 follows. So both invariants of the ring hold with store buffers.
 */
module MpscBufferedInvariant {
  import opened Common
  import opened Arith
  import M = MpscMachine
  import R = MpscInvariant
  import W = MpscWake
  import opened MpscBuffered

  // ---------- the interleaving behind a state ----------

  /** A thread with a pending store is where it was before the oldest of them. */
  function Behind(pc: M.ProdPC, b: seq<TxStore>): M.ProdPC {
    if b == [] then pc
    else match b[0]
      case Cell(op, q) => M.Write(op, q)
      case Round(op, q) => M.Publish(op, q)
      case Waiting(op) => M.SetWaiting(op)
      case LowerFlag => M.WakeClear
  }

  function Prods(prods: map<Tid, M.Producer>, bufs: map<Tid, seq<TxStore>>): (r: map<Tid, M.Producer>)
    ensures r.Keys == prods.Keys
    ensures forall t :: t in prods ==> r[t] == M.Producer(Behind(prods[t].pc, BufOf(bufs, t)), prods[t].token)
  {
    map t | t in prods :: M.Producer(Behind(prods[t].pc, BufOf(bufs, t)), prods[t].token)
  }

  /** The receiver as well, except that its late stores (a withdrawn flag, an unwound drain's head) count as made. */
  function RxBehind(pc: M.ConsPC, b: seq<RxStore>): M.ConsPC {
    if b == [] then pc
    else match b[|b| - 1]
      case RaiseFlag => M.PrepFlag
      case NewHead(_, from) => from
      case DropFlag => M.SetRxDropped
      case _ => pc
  }

  /** The head once the late stores have landed. */
  function HeadAfter(b: seq<RxStore>, h: nat): nat {
    if b == [] then h else HeadAfter(b[1..], if b[0].LateHead? then b[0].n else h)
  }

  function View(m: M.State, prods: map<Tid, M.Producer>, b: seq<RxStore>): M.State {
    m.(prods := prods, rx := m.rx.(pc := RxBehind(m.rx.pc, b)), ring := m.ring.(head := HeadAfter(b, m.ring.head)),
       wait := m.wait.(parked := m.wait.parked && Withdraw !in b))
  }

  function Virtual(s: State): M.State {
    View(s.mem, Prods(s.mem.prods, s.bufs), s.rxBuf)
  }

  // ---------- what may be in the buffers ----------

  predicate TxShape(pc: M.ProdPC, b: seq<TxStore>) {
    || b == []
    || (|b| == 1 && match b[0]
          case Cell(op, q) => pc == M.Publish(op, q)
          case Round(_, _) => pc == M.WakeLoad
          case Waiting(op) => pc == M.ReloadClaim(op)
          case LowerFlag => pc == M.WakeTake)
    || (|b| == 2 && b[0].Cell? && b[1] == Round(b[0].op, b[0].q) && pc == M.WakeLoad)
  }

  predicate IsLate(e: RxStore) {
    e.Withdraw? || e.LateHead?
  }

  predicate RxShape(rx: M.Consumer, b: seq<RxStore>) {
    b == [] || (
      && (forall i :: 0 <= i < |b| - 1 ==> IsLate(b[i]))
      && match b[|b| - 1]
         case RaiseFlag => |b| == 1 && rx.pc == M.RecheckRound
         case NewHead(n, from) =>
           n == rx.head && rx.pc == M.SwapWaiting(false) && (from == M.StoreHead || (from.DrainStore? && from.count > 0 && !from.unwinding))
         case DropFlag => rx.pc == M.SwapWaiting(true)
         case _ => !Drained(rx.pc))
  }

  /** The receiver has been past a lock or a fence and has stored nothing since. */
  predicate Drained(pc: M.ConsPC) {
    pc.PrepFlag? || pc.RecheckRound? || pc.RecheckSenders? || pc.Parked? || pc.LockList? || pc.UnparkAll? || pc.Gone?
  }

  /** Head stores only go up. */
  predicate HeadsRise(b: seq<RxStore>, h: nat) {
    b == [] || (if b[0].LateHead? then h <= b[0].n && HeadsRise(b[1..], b[0].n) else HeadsRise(b[1..], h))
  }

  ghost predicate BuffersOK(s: State) {
    && TxBuffersOK(s.mem.prods, s.bufs)
    && RxShape(s.mem.rx, s.rxBuf) && HeadsRise(s.rxBuf, s.mem.ring.head)
    && ((exists e :: e in s.rxBuf && e.LateHead?) ==> s.mem.rx.skipped)
  }

  ghost predicate Inv(s: State) {
    s.mem.park && BuffersOK(s) && W.WakeInv(Virtual(s))
  }

  lemma InvInit(s: State)
    requires Init(s)
    ensures Inv(s)
  {
    assert Prods(s.mem.prods, s.bufs) == s.mem.prods;
    assert Virtual(s) == s.mem;
    W.WakeInit(s.mem);
  }

  // ---------- the virtual threads ----------

  lemma ProdsSet(prods: map<Tid, M.Producer>, bufs: map<Tid, seq<TxStore>>, t: Tid, p: M.Producer, b: seq<TxStore>)
    ensures Prods(prods[t := p], bufs[t := b]) == Prods(prods, bufs)[t := M.Producer(Behind(p.pc, b), p.token)]
  {
  }

  lemma ProdsMove(prods: map<Tid, M.Producer>, bufs: map<Tid, seq<TxStore>>, t: Tid, p: M.Producer)
    ensures Prods(prods[t := p], bufs) == Prods(prods, bufs)[t := M.Producer(Behind(p.pc, BufOf(bufs, t)), p.token)]
  {
  }

  lemma ProdsFlush(prods: map<Tid, M.Producer>, bufs: map<Tid, seq<TxStore>>, t: Tid, b: seq<TxStore>)
    requires t in prods
    ensures Prods(prods, bufs[t := b]) == Prods(prods, bufs)[t := M.Producer(Behind(prods[t].pc, b), prods[t].token)]
  {
  }

  // ---------- stores of a sending thread ----------

  /** The part of `BuffersOK` about the threads that send. */
  ghost predicate TxBuffersOK(prods: map<Tid, M.Producer>, bufs: map<Tid, seq<TxStore>>) {
    forall t :: t in bufs && bufs[t] != [] ==> t in prods && TxShape(prods[t].pc, bufs[t])
  }

  lemma ShapeOf(prods: map<Tid, M.Producer>, bufs: map<Tid, seq<TxStore>>, t: Tid)
    requires TxBuffersOK(prods, bufs) && t in prods
    ensures TxShape(prods[t].pc, BufOf(bufs, t))
  {
  }

  lemma IssueShape(pc: M.ProdPC, b: seq<TxStore>)
    requires IsStore(pc) && TxShape(pc, b)
    ensures TxShape(AfterStore(pc), b + [StoreOf(pc)]) && Behind(AfterStore(pc), b + [StoreOf(pc)]) == Behind(pc, b)
  {
  }

  lemma TxBuffersSet(prods: map<Tid, M.Producer>, bufs: map<Tid, seq<TxStore>>, t: Tid, p: M.Producer, b: seq<TxStore>)
    requires TxBuffersOK(prods, bufs) && TxShape(p.pc, b)
    ensures TxBuffersOK(prods[t := p], bufs[t := b])
  {
    hide TxShape;
  }

  /** A store that enters a buffer changes nothing yet. */
  lemma KeepIssueTx(s: State, t: Tid, s': State)
    requires Inv(s) && t in s.mem.prods && IsStore(s.mem.prods[t].pc) && s' == IssueTx(s, t)
    ensures Inv(s') && Virtual(s') == Virtual(s)
  {
    hide W.WakeInv, HeadsRise, HeadAfter, RxShape, TxShape, StoreOf, AfterStore, Behind, Prods, TxBuffersOK;
    var pc, b := s.mem.prods[t].pc, BufOf(s.bufs, t);
    var p' := M.Producer(AfterStore(pc), s.mem.prods[t].token);
    ShapeOf(s.mem.prods, s.bufs, t);
    IssueShape(pc, b);
    TxBuffersSet(s.mem.prods, s.bufs, t, p', b + [StoreOf(pc)]);
    ProdsSet(s.mem.prods, s.bufs, t, p', b + [StoreOf(pc)]);
    var r := Prods(s.mem.prods, s.bufs);
    assert r[t := r[t]] == r;
    assert Virtual(s') == Virtual(s);
  }

  lemma FlushShape(pc: M.ProdPC, b: seq<TxStore>)
    requires TxShape(pc, b) && b != []
    ensures TxShape(pc, b[1..])
  {
  }

  /** A store that reaches memory is the move of its thread. */
  lemma LandIsStep(m: M.State, v: M.State, t: Tid, pc: M.ProdPC, b: seq<TxStore>, prods: map<Tid, M.Producer>, rb: seq<RxStore>, v': M.State)
    requires TxShape(pc, b) && b != [] && 0 < m.cap == |m.ring.slots| && m.park
    requires v == View(m, prods, rb) && t in prods && prods[t].pc == Behind(pc, b)
    requires M.WellShaped(v) && M.InOp(prods[t].pc) ==> prods[t].pc.op.v < |v.hist.fate|
    requires v' == View(Land(m, b[0]), prods[t := M.Producer(Behind(pc, b[1..]), prods[t].token)], rb)
    ensures M.ProdEnabled(v, t, false) && (M.WellShaped(v) ==> v' == M.ProdStep(v, t, false))
  {
    hide HeadAfter, RxBehind, SlotOf, Tag, M.WellShaped;
    match b[0]
    case Cell(op, q) => assert v' == M.StepWrite(v, t, op, q);
    case Round(op, q) => assert v' == M.StepPublish(v, t, q);
    case Waiting(op) =>
    case LowerFlag =>
  }

  /** What the invariant gives for a thread of the interleaving. */
  lemma VirtualThread(s: State, t: Tid)
    requires Inv(s) && t in s.mem.prods
    ensures var v := Virtual(s);
      && M.WellShaped(v) && R.Inv(v) && t in v.prods && v.prods[t] == M.Producer(Behind(s.mem.prods[t].pc, BufOf(s.bufs, t)), s.mem.prods[t].token)
      && (M.InOp(v.prods[t].pc) ==> v.prods[t].pc.op.v < |v.hist.fate|)
  {
    var v := Virtual(s);
    R.InvIsWellShaped(v);
    assert t in v.prods && R.ThreadOK(v, t);
    hide R.Inv, W.WakeInv;
  }

  lemma KeepFlushTx(s: State, t: Tid, s': State)
    requires Inv(s) && Enabled(s, FlushTx(t)) && s' == Apply(s, FlushTx(t))
    ensures Inv(s') && M.Enabled(Virtual(s), M.StepProd(t, false)) && Virtual(s') == M.Apply(Virtual(s), M.StepProd(t, false))
  {
    hide W.WakeInv, R.Inv, HeadsRise, HeadAfter, RxShape, TxShape, TxBuffersOK, Behind, Prods, M.WellShaped, M.ProdStep, Land, View;
    assert t in s.mem.prods && s.bufs[t] == BufOf(s.bufs, t) by { TxThread(s.mem.prods, s.bufs, t); }
    var pc, b := s.mem.prods[t].pc, s.bufs[t];
    ShapeOf(s.mem.prods, s.bufs, t);
    FlushShape(pc, b);
    VirtualThread(s, t);
    ProdsFlush(s.mem.prods, s.bufs, t, b[1..]);
    TxBuffersSet(s.mem.prods, s.bufs, t, s.mem.prods[t], b[1..]);
    assert s.mem.prods[t := s.mem.prods[t]] == s.mem.prods;
    LandKeeps(s.mem, b[0]);
    LandIsStep(s.mem, Virtual(s), t, pc, b, Prods(s.mem.prods, s.bufs), s.rxBuf, Virtual(s'));
    W.WakeStep(Virtual(s), M.StepProd(t, false));
  }

  lemma TxThread(prods: map<Tid, M.Producer>, bufs: map<Tid, seq<TxStore>>, t: Tid)
    requires TxBuffersOK(prods, bufs) && BufOf(bufs, t) != []
    ensures t in prods
  {
  }

  lemma LandKeeps(m: M.State, e: TxStore)
    requires 0 < m.cap == |m.ring.slots|
    ensures var m' := Land(m, e);
      m'.prods == m.prods && m'.rx == m.rx && m'.ring.head == m.ring.head && m'.park == m.park
  {
  }

  // ---------- loads that may be behind ----------

  /** The step can be made. */
  predicate CanStep(m: M.State, t: Tid, q: bool) {
    M.WellShaped(m) && M.ProdEnabled(m, t, q) && (M.InOp(m.prods[t].pc) ==> m.prods[t].pc.op.v < |m.hist.fate|)
  }

  /** The interleaving with the head and the consumer's flag as a load finds them in memory. */
  function Seen(v: M.State, head: nat, parked: bool): M.State {
    v.(ring := v.ring.(head := head), wait := v.wait.(parked := parked))
  }

  /** What memory may be behind by: a head that an unwound drain has stored, and a flag withdrawn. */
  predicate Stale(v: M.State, head: nat, parked: bool) {
    head <= v.ring.head && (head < v.ring.head ==> v.rx.skipped) && (v.wait.parked ==> parked)
  }

  predicate Loads(pc: M.ProdPC) {
    pc.WakeLoad? || pc.LoadHead? || pc.ReloadHead? || pc.ReloadRx? || pc.Park?
  }

  /** The other steps do not depend on either. */
  lemma SameWhenSeen(v: M.State, head: nat, parked: bool, t: Tid, q: bool)
    requires CanStep(v, t, q) && !IsStore(v.prods[t].pc) && !Loads(v.prods[t].pc)
    ensures SeenStep(v, t, q, head, parked) == M.ProdStep(v, t, q)
  {
    hide SeenStep, M.ProdStep;
    if v.prods[t].pc.Cas? {
      SeenCas(v, head, parked, t, q);
    } else if v.prods[t].pc.CheckRx? || v.prods[t].pc.LoadClaim? {
      SeenTry(v, head, parked, t, q);
    } else {
      SeenOther(v, head, parked, t, q);
    }
  }

  lemma SeenCas(v: M.State, head: nat, parked: bool, t: Tid, q: bool)
    requires CanStep(v, t, q) && v.prods[t].pc.Cas?
    ensures SeenStep(v, t, q, head, parked) == M.ProdStep(v, t, q)
  {
    hide SlotOf, Tag, M.StepTake, M.StepUnpark, M.StepLoadHead, M.StepWrite, M.StepPublish;
  }

  lemma SeenTry(v: M.State, head: nat, parked: bool, t: Tid, q: bool)
    requires CanStep(v, t, q) && (v.prods[t].pc.CheckRx? || v.prods[t].pc.LoadClaim?)
    ensures SeenStep(v, t, q, head, parked) == M.ProdStep(v, t, q)
  {
    hide SlotOf, Tag, M.StepCas, M.StepTake, M.StepUnpark, M.StepLoadHead, M.StepWrite, M.StepPublish;
  }

  lemma SeenOther(v: M.State, head: nat, parked: bool, t: Tid, q: bool)
    requires CanStep(v, t, q)
    requires var pc := v.prods[t].pc; pc.PushList? || pc.ReloadClaim? || pc.WakeTake? || pc.WakeUnpark?
    ensures SeenStep(v, t, q, head, parked) == M.ProdStep(v, t, q)
  {
    hide SlotOf, Tag, M.StepCas, M.StepLoadHead, M.StepWrite, M.StepPublish, M.WellShaped;
  }

  /** The head at which a call is said to begin is bookkeeping, and any earlier one will do. */
  lemma KeepLowerStart(v: M.State, t: Tid, op: M.Op, start: nat)
    requires W.WakeInv(v) && t in v.prods && v.prods[t].pc == M.CheckRx(op) && start <= op.start
    ensures W.WakeInv(M.SetPC(v, t, M.CheckRx(op.(start := start))))
  {
    var v' := M.SetPC(v, t, M.CheckRx(op.(start := start)));
    R.CallFacts(v, t);
    R.KeepLocal(v, v', t);
    hide R.Inv;
    W.SetPCFrame(v, v', t, M.CheckRx(op.(start := start)));
    W.RxWakeProd(v, v', t);
    W.TxUnlisted(v, v', t);
  }

  /** A waker that finds the flag still up only does more than it has to. */
  lemma KeepOldFlag(v: M.State, t: Tid)
    requires W.WakeInv(v) && t in v.prods && v.prods[t].pc == M.WakeLoad
    ensures W.WakeInv(M.SetPC(v, t, M.WakeClear))
  {
    var v' := M.SetPC(v, t, M.WakeClear);
    R.CallFacts(v, t);
    R.KeepLocal(v, v', t);
    OldFlagRx(v, t);
    hide R.Inv, W.RxWake;
    W.AllTxFrame(v, v', t);
  }

  lemma OldFlagRx(v: M.State, t: Tid)
    requires 0 < v.cap == |v.ring.slots| && W.RxWake(v) && t in v.prods && v.prods[t].pc == M.WakeLoad
    ensures W.RxWake(M.SetPC(v, t, M.WakeClear))
  {
    var v' := M.SetPC(v, t, M.WakeClear);
    assert forall u, w :: W.At(v, u, M.WakeUnpark(w)) ==> W.At(v', u, M.WakeUnpark(w));
    assert forall u :: W.At(v, u, M.WakeTake) ==> W.At(v', u, M.WakeTake);
    assert W.Waking(v'.prods[t].pc);
  }

  /** A sender that finds an older head may only refuse or wait although there is room. */
  function WithOldHead(v: M.State, t: Tid, op: M.Op, q: nat, head: nat): M.State
    requires t in v.prods && op.v < |v.hist.fate|
  {
    var v1 := v.(ends := v.ends.(handles := v.ends.handles[op.h := head]));
    if q >= M.Limit(head, v.cap) then M.OnFull(v1, t, op) else M.SetPC(v1, t, M.Cas(op, q))
  }

  lemma KeepOldHead(v: M.State, t: Tid, op: M.Op, q: nat, head: nat)
    requires W.WakeInv(v) && v.park && t in v.prods && v.prods[t].pc == M.LoadHead(op, q) && head <= v.ring.head
    ensures op.v < |v.hist.fate| && W.WakeInv(WithOldHead(v, t, op, q, head))
  {
    R.CallFacts(v, t);
    var v1 := R.RefreshCache(v, t, head);
    R.CallFacts(v1, t);
    var v' := WithOldHead(v, t, op, q, head);
    if q < M.Limit(head, v.cap) {
      R.KeepLocal(v1, v', t);
    } else {
      R.KeepOnFull(v1, t, op, q);
    }
    hide R.Inv;
    OldHeadFrame(v, t, op, q, head);
    W.RxWakeProd(v, v', t);
    W.TxUnlisted(v, v', t);
  }

  lemma OldHeadFrame(v: M.State, t: Tid, op: M.Op, q: nat, head: nat)
    requires 0 < v.cap == |v.ring.slots| && v.park && t in v.prods && v.prods[t].pc == M.LoadHead(op, q) && op.v < |v.hist.fate|
    ensures var v' := WithOldHead(v, t, op, q, head);
      W.CallFrame(v, v', t) && v'.wait == v.wait && v'.ring == v.ring && !W.Listed(v'.prods[t].pc)
  {
    if q < M.Limit(head, v.cap) {} else if !op.blocking {} else {}
  }

  /** A sender that re-checks against an older head may go on to park: then no wake was to follow that head. */
  lemma KeepOldRecheck(v: M.State, t: Tid, op: M.Op, seen: nat)
    requires W.WakeInv(v) && t in v.prods && v.prods[t].pc == M.ReloadHead(op, seen) && v.rx.skipped
    ensures W.WakeInv(M.SetPC(v, t, M.ReloadRx(op)))
  {
    var v' := M.SetPC(v, t, M.ReloadRx(op));
    R.CallFacts(v, t);
    R.KeepLocal(v, v', t);
    hide R.Inv;
    W.SetPCFrame(v, v', t, M.ReloadRx(op));
    W.RxWakeProd(v, v', t);
    hide W.RxWake;
    W.AllTxFrame(v, v', t);
  }

  /** The step of a thread as memory makes it, seen from the interleaving. */
  function SeenStep(v: M.State, t: Tid, q: bool, head: nat, parked: bool): M.State
    requires CanStep(v, t, q)
  {
    SeenWellShaped(v, t, q, head, parked);
    Seen(M.ProdStep(Seen(v, head, parked), t, q), v.ring.head, v.wait.parked)
  }

  lemma SeenWellShaped(v: M.State, t: Tid, q: bool, head: nat, parked: bool)
    requires M.WellShaped(v) && M.ProdEnabled(v, t, q)
    ensures M.WellShaped(Seen(v, head, parked)) && M.ProdEnabled(Seen(v, head, parked), t, q)
  {
  }

  /** What the loads come to. */
  lemma SeenLoads(v: M.State, t: Tid, q: bool, head: nat, parked: bool)
    requires CanStep(v, t, q)
    requires Loads(v.prods[t].pc) && v.park
    ensures SeenStep(v, t, q, head, parked) == (
      match v.prods[t].pc
      case WakeLoad => M.SetPC(v, t, if parked then M.WakeClear else M.Idle)
      case LoadHead(op, n) => WithOldHead(v, t, op, n, head)
      case ReloadHead(op, seen) =>
        M.SetPC(v, t, if seen < M.Limit(head, v.cap) then M.CheckRx(op.(start := head, fails := 0)) else M.ReloadRx(op))
      case ReloadRx(op) => M.SetPC(v, t, if v.ends.rxDropped then M.CheckRx(op.(start := head, fails := 0)) else M.Park(op))
      case Park(op) => v.(prods := v.prods[t := M.Producer(M.CheckRx(op.(start := head, fails := 0)), false)])
      case _ => v)
  {
  }

  lemma LimitRises(a: nat, b: nat, cap: nat)
    requires a <= b
    ensures M.Limit(a, cap) <= M.Limit(b, cap)
  {
  }

  /** The call starts over. */
  predicate Restarts(v: M.State, pc: M.ProdPC, head: nat) {
    match pc
    case ReloadHead(_, seen) => seen < M.Limit(head, v.cap)
    case ReloadRx(_) => v.ends.rxDropped
    case Park(_) => true
    case _ => false
  }

  lemma RestartIs(v: M.State, t: Tid, q: bool, head: nat, parked: bool)
    requires CanStep(v, t, q) && v.park && head <= v.ring.head && Restarts(v, v.prods[t].pc, head)
    ensures var op, v1 := v.prods[t].pc.op, M.ProdStep(v, t, q);
      && t in v1.prods && v1.prods[t].pc == M.CheckRx(op.(start := v.ring.head, fails := 0))
      && SeenStep(v, t, q, head, parked) == M.SetPC(v1, t, M.CheckRx(op.(start := head, fails := 0)))
  {
    LimitRises(head, v.ring.head, v.cap);
    SeenLoads(v, t, q, head, parked);
    hide SeenStep, M.Limit, SlotOf, Tag, M.StepCas, M.StepLoadHead, M.StepWrite, M.StepPublish, M.StepTake, M.StepUnpark, M.WellShaped;
  }

  /** The step as an interleaving makes it, but with an older start. */
  lemma KeepRestart(v: M.State, t: Tid, q: bool, head: nat, parked: bool)
    requires W.WakeInv(v) && v.park && M.Enabled(v, M.StepProd(t, q)) && head <= v.ring.head && Restarts(v, v.prods[t].pc, head)
    ensures W.WakeInv(SeenStep(v, t, q, head, parked))
  {
    hide W.WakeInv, SeenStep, M.ProdStep;
    W.WakeStep(v, M.StepProd(t, q));
    RestartIs(v, t, q, head, parked);
    var v1 := M.ProdStep(v, t, q);
    KeepLowerStart(v1, t, v1.prods[t].pc.op, head);
  }

  lemma KeepSeenReload(v: M.State, t: Tid, q: bool, head: nat, parked: bool)
    requires W.WakeInv(v) && v.park && M.Enabled(v, M.StepProd(t, q)) && Stale(v, head, parked)
    requires v.prods[t].pc.ReloadHead? || v.prods[t].pc.ReloadRx? || v.prods[t].pc.Park?
    ensures W.WakeInv(SeenStep(v, t, q, head, parked))
  {
    hide W.WakeInv;
    var pc := v.prods[t].pc;
    if pc.ReloadHead? && pc.seen >= M.Limit(head, v.cap) {
      SeenLoads(v, t, q, head, parked);
      if head < v.ring.head { KeepOldRecheck(v, t, pc.op, pc.seen); } else { W.WakeStep(v, M.StepProd(t, q)); }
    } else if pc.ReloadRx? && !v.ends.rxDropped {
      SeenLoads(v, t, q, head, parked);
      W.WakeStep(v, M.StepProd(t, q));
    } else {
      KeepRestart(v, t, q, head, parked);
    }
  }

  /** Whatever old values its loads return, a step of a sender keeps both invariants. */
  lemma KeepSeen(v: M.State, t: Tid, q: bool, head: nat, parked: bool)
    requires W.WakeInv(v) && v.park && M.Enabled(v, M.StepProd(t, q)) && !IsStore(v.prods[t].pc) && Stale(v, head, parked)
    ensures W.WakeInv(SeenStep(v, t, q, head, parked))
  {
    hide W.WakeInv;
    var pc := v.prods[t].pc;
    if !Loads(pc) {
      SameWhenSeen(v, head, parked, t, q);
      W.WakeStep(v, M.StepProd(t, q));
    } else if pc.WakeLoad? {
      SeenLoads(v, t, q, head, parked);
      if parked && !v.wait.parked { KeepOldFlag(v, t); } else { W.WakeStep(v, M.StepProd(t, q)); }
    } else if pc.LoadHead? {
      SeenLoads(v, t, q, head, parked);
      KeepOldHead(v, t, pc.op, pc.seqNo, head);
    } else {
      KeepSeenReload(v, t, q, head, parked);
    }
  }

  // ---------- the step of one thread does not depend on where the others are ----------

  /** The same memory with other threads elsewhere. */
  function Elsewhere(m: M.State, prods: map<Tid, M.Producer>, pc: M.ConsPC): M.State {
    m.(prods := prods, rx := m.rx.(pc := pc))
  }

  ghost predicate Lifts(m: M.State, t: Tid, q: bool, prods: map<Tid, M.Producer>, pc: M.ConsPC) {
    var u := Elsewhere(m, prods, pc);
    && CanStep(m, t, q) && CanStep(u, t, q)
    && var m' := M.ProdStep(m, t, q);
    && t in m'.prods && M.ProdStep(u, t, q) == Elsewhere(m', prods[t := m'.prods[t]], pc)
    && m'.prods == m.prods[t := m'.prods[t]] && m'.rx == m.rx.(token := m'.rx.token)
    && m'.ring.head == m.ring.head && m'.wait.parked == m.wait.parked && m'.park == m.park
  }

  /** For a step that depends on neither. */
  ghost predicate LiftsFrom(m: M.State, t: Tid, q: bool, prods: map<Tid, M.Producer>, pc: M.ConsPC) {
    CanStep(m, t, q) && !IsStore(m.prods[t].pc) && t in prods && prods[t] == m.prods[t] && CanStep(Elsewhere(m, prods, pc), t, q)
  }

  lemma TryLifts(m: M.State, t: Tid, q: bool, prods: map<Tid, M.Producer>, pc: M.ConsPC)
    requires LiftsFrom(m, t, q, prods, pc) && (m.prods[t].pc.CheckRx? || m.prods[t].pc.LoadClaim?)
    ensures Lifts(m, t, q, prods, pc)
  {
    hide SlotOf, Tag, M.ConsStep, M.StepTake, M.StepUnpark, M.StepCas, M.StepLoadHead, M.StepWrite, M.StepPublish;
  }

  lemma HeadLifts(m: M.State, t: Tid, q: bool, prods: map<Tid, M.Producer>, pc: M.ConsPC)
    requires LiftsFrom(m, t, q, prods, pc) && m.prods[t].pc.LoadHead?
    ensures Lifts(m, t, q, prods, pc)
  {
    hide SlotOf, Tag, M.ConsStep, M.StepTake, M.StepUnpark, M.StepCas, M.StepWrite, M.StepPublish;
  }

  lemma CasLifts(m: M.State, t: Tid, q: bool, prods: map<Tid, M.Producer>, pc: M.ConsPC)
    requires LiftsFrom(m, t, q, prods, pc) && m.prods[t].pc.Cas?
    ensures Lifts(m, t, q, prods, pc)
  {
    hide SlotOf, Tag, M.ConsStep, M.StepTake, M.StepUnpark, M.StepLoadHead, M.StepWrite, M.StepPublish;
  }

  lemma WaitLifts(m: M.State, t: Tid, q: bool, prods: map<Tid, M.Producer>, pc: M.ConsPC)
    requires LiftsFrom(m, t, q, prods, pc) && (m.prods[t].pc.PushList? || m.prods[t].pc.ReloadClaim? || m.prods[t].pc.ReloadHead?)
    ensures Lifts(m, t, q, prods, pc)
  {
    hide SlotOf, Tag, M.ConsStep, M.StepTake, M.StepUnpark, M.StepCas, M.StepLoadHead, M.StepWrite, M.StepPublish, M.WellShaped;
  }

  lemma ParkLifts(m: M.State, t: Tid, q: bool, prods: map<Tid, M.Producer>, pc: M.ConsPC)
    requires LiftsFrom(m, t, q, prods, pc) && (m.prods[t].pc.ReloadRx? || m.prods[t].pc.Park?)
    ensures Lifts(m, t, q, prods, pc)
  {
    hide SlotOf, Tag, M.ConsStep, M.StepTake, M.StepUnpark, M.StepCas, M.StepLoadHead, M.StepWrite, M.StepPublish, M.WellShaped;
  }

  lemma WakeLifts(m: M.State, t: Tid, q: bool, prods: map<Tid, M.Producer>, pc: M.ConsPC)
    requires LiftsFrom(m, t, q, prods, pc) && W.Waking(m.prods[t].pc)
    ensures Lifts(m, t, q, prods, pc)
  {
    hide SlotOf, Tag, M.ConsStep, M.StepCas, M.StepLoadHead, M.StepWrite, M.StepPublish, M.WellShaped;
  }

  lemma StepLifts(m: M.State, t: Tid, q: bool, prods: map<Tid, M.Producer>, pc: M.ConsPC)
    requires LiftsFrom(m, t, q, prods, pc)
    ensures Lifts(m, t, q, prods, pc)
  {
    hide Lifts;
    var p := m.prods[t].pc;
    if p.CheckRx? || p.LoadClaim? { TryLifts(m, t, q, prods, pc); }
    else if p.LoadHead? { HeadLifts(m, t, q, prods, pc); }
    else if p.Cas? { CasLifts(m, t, q, prods, pc); }
    else if p.PushList? || p.ReloadClaim? || p.ReloadHead? { WaitLifts(m, t, q, prods, pc); }
    else if p.ReloadRx? || p.Park? { ParkLifts(m, t, q, prods, pc); }
    else { WakeLifts(m, t, q, prods, pc); }
  }

  // ---------- steps of a sending thread that store nothing ----------

  lemma NothingPending(pc: M.ProdPC, b: seq<TxStore>)
    requires TxShape(pc, b) && !IsStore(pc) && (Waits(pc) ==> b == [])
    ensures b == []
  {
  }

  lemma {:induction false} HeadBounds(b: seq<RxStore>, h: nat)
    requires HeadsRise(b, h)
    ensures h <= HeadAfter(b, h)
    ensures HeadAfter(b, h) != h ==> exists e :: e in b && e.LateHead?
  {
    if b != [] {
      HeadBounds(b[1..], if b[0].LateHead? then b[0].n else h);
      if b[0].LateHead? {
        assert b[0] in b;
      } else if HeadAfter(b[1..], h) != h {
        var e :| e in b[1..] && e.LateHead?;
        assert e in b;
      }
    }
  }

  /** Memory is at most as far behind the interleaving as `Stale` says. */
  lemma MemoryIsStale(s: State)
    requires Inv(s)
    ensures Stale(Virtual(s), s.mem.ring.head, s.mem.wait.parked)
  {
    HeadBounds(s.rxBuf, s.mem.ring.head);
    hide W.WakeInv, Prods;
  }

  lemma SeenIsElsewhere(s: State)
    ensures Seen(Virtual(s), s.mem.ring.head, s.mem.wait.parked)
         == Elsewhere(s.mem, Prods(s.mem.prods, s.bufs), RxBehind(s.mem.rx.pc, s.rxBuf))
  {
    hide Prods, HeadAfter, RxBehind;
  }

  lemma TxEnabled(s: State, t: Tid, q: bool)
    requires Inv(s) && Enabled(s, Do(M.StepProd(t, q))) && !IsStore(s.mem.prods[t].pc)
    ensures BufOf(s.bufs, t) == [] && t in Virtual(s).prods && Virtual(s).prods[t] == s.mem.prods[t]
    ensures CanStep(s.mem, t, q) && CanStep(Virtual(s), t, q) && M.Enabled(Virtual(s), M.StepProd(t, q))
  {
    ShapeOf(s.mem.prods, s.bufs, t);
    NothingPending(s.mem.prods[t].pc, BufOf(s.bufs, t));
    VirtualThread(s, t);
    hide W.WakeInv, R.Inv, M.WellShaped, Prods, HeadAfter, HeadsRise, TxShape, TxBuffersOK;
  }

  lemma KeepLoadTx(s: State, t: Tid, q: bool, s': State)
    requires Inv(s) && Enabled(s, Do(M.StepProd(t, q))) && !IsStore(s.mem.prods[t].pc) && s' == Apply(s, Do(M.StepProd(t, q)))
    ensures Inv(s') && CanStep(Virtual(s), t, q) && Virtual(s') == SeenStep(Virtual(s), t, q, s.mem.ring.head, s.mem.wait.parked)
  {
    var v, h, f := Virtual(s), s.mem.ring.head, s.mem.wait.parked;
    var prods, pc := Prods(s.mem.prods, s.bufs), RxBehind(s.mem.rx.pc, s.rxBuf);
    TxEnabled(s, t, q);
    SeenIsElsewhere(s);
    SeenWellShaped(v, t, q, h, f);
    MemoryIsStale(s);
    StepLifts(s.mem, t, q, prods, pc);
    KeepSeen(v, t, q, h, f);
    var m' := M.ProdStep(s.mem, t, q);
    assert s' == s.(mem := m');
    hide W.WakeInv, M.WellShaped, M.ProdStep, Enabled, Apply, Prods, HeadAfter, HeadsRise, RxBehind, RxShape, TxShape;
    ProdsMove(s.mem.prods, s.bufs, t, m'.prods[t]);
    assert Virtual(s') == SeenStep(v, t, q, h, f);
    TxBuffersMove(s.mem.prods, s.bufs, t, m'.prods[t]);
    RxShapeMove(s.mem.rx, m'.rx, s.rxBuf);
  }

  lemma TxBuffersMove(prods: map<Tid, M.Producer>, bufs: map<Tid, seq<TxStore>>, t: Tid, p: M.Producer)
    requires TxBuffersOK(prods, bufs) && (BufOf(bufs, t) == [] || (t in prods && p.pc == prods[t].pc))
    ensures TxBuffersOK(prods[t := p], bufs)
  {
    hide TxShape;
  }

  lemma RxShapeMove(rx: M.Consumer, rx': M.Consumer, b: seq<RxStore>)
    requires RxShape(rx, b) && rx'.pc == rx.pc && rx'.head == rx.head
    ensures RxShape(rx', b)
  {
  }

  // ---------- stores of the receiver ----------

  lemma {:induction false} HeadAppend(b: seq<RxStore>, h: nat, e: RxStore)
    requires HeadsRise(b, h) && (e.LateHead? ==> HeadAfter(b, h) <= e.n)
    ensures HeadsRise(b + [e], h) && HeadAfter(b + [e], h) == if e.LateHead? then e.n else HeadAfter(b, h)
  {
    if b == [] {
      assert HeadsRise([], h) && (e.LateHead? ==> HeadsRise([], e.n));
    } else {
      assert (b + [e])[0] == b[0] && (b + [e])[1..] == b[1..] + [e];
      HeadAppend(b[1..], if b[0].LateHead? then b[0].n else h, e);
    }
  }

  /** A store of the receiver, but for the two late ones, changes nothing until it lands. */
  predicate LateStore(pc: M.ConsPC) {
    pc.Cancel? || pc.ClearFlag? || (pc.DrainStore? && pc.unwinding)
  }

  lemma StoringShape(rx: M.Consumer, b: seq<RxStore>)
    requires RxShape(rx, b) && (IsRxStore(rx.pc) || rx.pc.Resting?)
    ensures (forall e :: e in b ==> IsLate(e)) && RxBehind(rx.pc, b) == rx.pc && (rx.pc.PrepFlag? ==> b == [])
  {
  }

  lemma RxIssueShape(rx: M.Consumer, b: seq<RxStore>)
    requires RxShape(rx, b) && IsRxStore(rx.pc)
    ensures RxShape(AfterRxStore(rx), b + [RxStoreOf(rx)])
    ensures RxBehind(rx.pc, b) == rx.pc
    ensures RxBehind(AfterRxStore(rx).pc, b + [RxStoreOf(rx)]) == if LateStore(rx.pc) then AfterRxStore(rx).pc else rx.pc
    ensures LateStore(rx.pc) <==> IsLate(RxStoreOf(rx))
  {
    StoringShape(rx, b);
  }

  lemma BuffersIssueRx(s: State)
    requires BuffersOK(s) && IsRxStore(s.mem.rx.pc) && HeadAfter(s.rxBuf, s.mem.ring.head) <= s.mem.rx.head
    ensures BuffersOK(IssueRx(s))
    ensures var e := RxStoreOf(s.mem.rx);
      HeadAfter(s.rxBuf + [e], s.mem.ring.head) == if e.LateHead? then s.mem.rx.head else HeadAfter(s.rxBuf, s.mem.ring.head)
  {
    RxIssueShape(s.mem.rx, s.rxBuf);
    HeadAppend(s.rxBuf, s.mem.ring.head, RxStoreOf(s.mem.rx));
    hide RxShape, HeadAfter, HeadsRise, TxBuffersOK, RxStoreOf, AfterRxStore, RxBehind, IsRxStore;
  }

  lemma RxHeadBound(s: State)
    requires Inv(s)
    ensures Virtual(s).ring.head <= s.mem.rx.head
  {
    hide W.RxWake, W.AllTxWake, HeadAfter, Prods;
  }

  lemma RxEnabled(s: State, q: bool)
    requires Inv(s) && M.ConsEnabled(Virtual(s), q)
    ensures M.Enabled(Virtual(s), M.StepCons(q))
  {
    R.InvIsWellShaped(Virtual(s));
  }

  lemma KeepIssueRx(s: State, s': State)
    requires Inv(s) && IsRxStore(s.mem.rx.pc) && !LateStore(s.mem.rx.pc) && s' == IssueRx(s)
    ensures Inv(s') && Virtual(s') == Virtual(s)
  {
    hide W.WakeInv, HeadAfter, HeadsRise, Prods, TxBuffersOK, RxShape, BuffersOK, RxBehind;
    RxHeadBound(s);
    BuffersIssueRx(s);
    assert RxShape(s.mem.rx, s.rxBuf) by { ShapeOfRx(s); }
    RxIssueShape(s.mem.rx, s.rxBuf);
    assert Virtual(s') == Virtual(s);
  }

  lemma ShapeOfRx(s: State)
    requires BuffersOK(s)
    ensures RxShape(s.mem.rx, s.rxBuf)
  {
  }

  /** What the receiver's late stores do in the interleaving. */
  lemma LateIsStep(m: M.State, q: bool)
    requires M.WellShaped(m) && IsRxStore(m.rx.pc) && LateStore(m.rx.pc)
    ensures M.ConsEnabled(m, q)
    ensures M.ConsStep(m, q) == m.(rx := AfterRxStore(m.rx), ring := m.ring.(head := if m.rx.pc.DrainStore? then m.rx.head else m.ring.head),
                                   wait := m.wait.(parked := m.wait.parked && m.rx.pc.DrainStore?))
  {
    hide M.WellShaped;
  }

  lemma ConsApply(v: M.State, q: bool)
    requires M.Enabled(v, M.StepCons(q))
    ensures M.Apply(v, M.StepCons(q)) == M.ConsStep(v, q)
  {
    hide M.ConsStep;
  }

  lemma VirtualShaped(s: State)
    requires Inv(s)
    ensures M.WellShaped(Virtual(s)) && R.Inv(Virtual(s))
  {
    R.InvIsWellShaped(Virtual(s));
  }

  /** The late store counts as made. */
  lemma LateView(s: State)
    requires IsRxStore(s.mem.rx.pc) && LateStore(s.mem.rx.pc)
    requires var e, b := RxStoreOf(s.mem.rx), s.rxBuf;
      && RxBehind(s.mem.rx.pc, b) == s.mem.rx.pc && RxBehind(AfterRxStore(s.mem.rx).pc, b + [e]) == AfterRxStore(s.mem.rx).pc
      && HeadAfter(b + [e], s.mem.ring.head) == if e.LateHead? then s.mem.rx.head else HeadAfter(b, s.mem.ring.head)
    ensures var v := Virtual(s);
      Virtual(IssueRx(s)) == v.(rx := AfterRxStore(v.rx), ring := v.ring.(head := if v.rx.pc.DrainStore? then v.rx.head else v.ring.head),
                                wait := v.wait.(parked := v.wait.parked && v.rx.pc.DrainStore?))
  {
    hide HeadAfter, Prods, RxBehind;
  }

  lemma KeepIssueLate(s: State, q: bool, s': State)
    requires Inv(s) && IsRxStore(s.mem.rx.pc) && LateStore(s.mem.rx.pc) && s' == IssueRx(s)
    ensures Inv(s') && M.Enabled(Virtual(s), M.StepCons(q)) && Virtual(s') == M.Apply(Virtual(s), M.StepCons(q))
  {
    hide W.WakeInv, M.WellShaped, M.ConsStep, HeadAfter, HeadsRise, Prods, TxBuffersOK, RxShape, BuffersOK, RxBehind;
    hide IsRxStore, LateStore, RxStoreOf, AfterRxStore, M.Apply;
    VirtualShaped(s);
    var v := Virtual(s);
    RxHeadBound(s);
    BuffersIssueRx(s);
    assert RxShape(s.mem.rx, s.rxBuf) by { ShapeOfRx(s); }
    RxIssueShape(s.mem.rx, s.rxBuf);
    LateIsStep(v, q);
    W.WakeStep(v, M.StepCons(q));
    LateView(s);
    assert M.Apply(v, M.StepCons(q)) == M.ConsStep(v, q) by { ConsApply(v, q); }
  }

  // ---------- stores of the receiver reach memory ----------

  lemma RxFlushShape(rx: M.Consumer, b: seq<RxStore>)
    requires RxShape(rx, b) && b != []
    ensures IsLate(b[0]) ==> RxShape(rx, b[1..]) && RxBehind(rx.pc, b[1..]) == RxBehind(rx.pc, b)
    ensures !IsLate(b[0]) ==> b == [b[0]]
  {
  }

  lemma HeadsFlush(b: seq<RxStore>, h: nat)
    requires b != [] && HeadsRise(b, h)
    ensures var h' := if b[0].LateHead? then b[0].n else h;
      HeadsRise(b[1..], h') && HeadAfter(b[1..], h') == HeadAfter(b, h)
  {
  }

  /** A late store counts already. */
  lemma KeepFlushLate(s: State, s': State)
    requires Inv(s) && s.rxBuf != [] && IsLate(s.rxBuf[0]) && s' == Apply(s, FlushRx)
    ensures Inv(s') && Virtual(s') == Virtual(s)
  {
    var b := s.rxBuf;
    RxFlushShape(s.mem.rx, b);
    HeadsFlush(b, s.mem.ring.head);
    assert forall e :: e in b <==> e == b[0] || e in b[1..];
    hide W.WakeInv, HeadAfter, HeadsRise, Prods, TxBuffersOK, RxShape, RxBehind;
    assert s'.mem.rx == s.mem.rx && s'.mem.prods == s.mem.prods;
    assert Virtual(s') == Virtual(s);
  }

  /** The other stores of the receiver are its steps. */
  lemma RxLandIsStep(m: M.State, rx: M.Consumer, e: RxStore)
    requires M.WellShaped(m) && m.park && RxShape(rx, [e]) && !IsLate(e) && m.rx == rx.(pc := RxBehind(rx.pc, [e]))
    ensures M.ConsEnabled(m, false) && M.ConsStep(m, false) == RxLand(m, e).(rx := RxLand(m, e).rx.(pc := rx.pc))
  {
    hide M.WellShaped;
  }

  lemma LandView(m: M.State, prods: map<Tid, M.Producer>, e: RxStore)
    requires !IsLate(e)
    ensures var v := View(m, prods, [e]);
      View(RxLand(m, e), prods, []) == RxLand(v, e).(rx := RxLand(v, e).rx.(pc := m.rx.pc))
  {
    hide RxBehind;
    assert HeadAfter([e], m.ring.head) == m.ring.head;
    assert forall pc :: RxBehind(pc, []) == pc by { NoneBehind(); }
  }

  lemma NoneBehind()
    ensures forall pc :: RxBehind(pc, []) == pc
  {
  }

  lemma KeepFlushStep(s: State, s': State)
    requires Inv(s) && s.rxBuf != [] && !IsLate(s.rxBuf[0]) && s' == Apply(s, FlushRx)
    ensures Inv(s') && M.Enabled(Virtual(s), M.StepCons(false)) && Virtual(s') == M.Apply(Virtual(s), M.StepCons(false))
  {
    hide W.WakeInv, M.WellShaped, M.ConsStep, HeadAfter, HeadsRise, Prods, TxBuffersOK, RxShape, RxBehind, View, RxLand;
    var v, e := Virtual(s), s.rxBuf[0];
    assert RxShape(s.mem.rx, s.rxBuf) by { ShapeOfRx(s); }
    RxFlushShape(s.mem.rx, s.rxBuf);
    VirtualShaped(s);
    ViewFields(s);
    RxLandIsStep(v, s.mem.rx, e);
    W.WakeStep(v, M.StepCons(false));
    ConsApply(v, false);
    LandView(s.mem, Prods(s.mem.prods, s.bufs), e);
    LandFields(s.mem, e);
    EmptyShapes(s'.mem.rx, s'.mem.ring.head);
  }

  lemma ViewFields(s: State)
    ensures var v := Virtual(s); v.park == s.mem.park && v.rx == s.mem.rx.(pc := RxBehind(s.mem.rx.pc, s.rxBuf))
  {
    hide Prods, HeadAfter, RxBehind;
  }

  lemma LandFields(m: M.State, e: RxStore)
    ensures var m' := RxLand(m, e); m'.prods == m.prods && m'.park == m.park
  {
  }

  lemma EmptyShapes(rx: M.Consumer, h: nat)
    ensures RxShape(rx, []) && HeadsRise([], h)
  {
  }

  lemma KeepFlushRx(s: State, s': State)
    requires Inv(s) && Enabled(s, FlushRx) && s' == Apply(s, FlushRx)
    ensures Inv(s')
  {
    hide Inv, Apply;
    if IsLate(s.rxBuf[0]) { KeepFlushLate(s, s'); } else { KeepFlushStep(s, s'); }
  }

  // ---------- steps of the receiver that store nothing ----------

  /** What such a step leaves alone, and where it can lead. */
  ghost predicate RxStepOK(m: M.State, m': M.State) {
    && m'.rx.skipped == m.rx.skipped && m'.ring.head == m.ring.head && m'.wait.parked == m.wait.parked && m'.park == m.park
    && (Drained(m'.rx.pc) ==> Drained(m.rx.pc) || RxWaits(m.rx.pc))
    && m'.prods.Keys == m.prods.Keys && (forall t :: t in m.prods ==> m'.prods[t].pc == m.prods[t].pc)
  }

  /** The step moves tokens of producers at most, and depends on their places not at all. */
  ghost predicate RxLifts(m: M.State, q: bool, u: M.State, prods: map<Tid, M.Producer>) {
    && M.ConsEnabled(u, q) && M.WellShaped(u) && M.WellShaped(m) && M.ConsEnabled(m, q)
    && var m', u' := M.ConsStep(m, q), M.ConsStep(u, q);
    && RxStepOK(m, m')
    && u' == m'.(prods := u'.prods, ring := m'.ring.(head := u.ring.head), wait := m'.wait.(parked := u.wait.parked))
    && ((m'.prods == m.prods && u'.prods == prods)
        || exists t :: t in m.prods && t in prods && m'.prods == m.prods[t := m.prods[t].(token := true)]
                       && u'.prods == prods[t := prods[t].(token := true)])
  }

  /** The interleaving as far as the receiver's own step is concerned. */
  function Beside(m: M.State, prods: map<Tid, M.Producer>, head: nat, parked: bool): M.State {
    m.(prods := prods, ring := m.ring.(head := head), wait := m.wait.(parked := parked))
  }

  ghost predicate RxLiftsFrom(m: M.State, q: bool, prods: map<Tid, M.Producer>, head: nat, parked: bool) {
    && M.WellShaped(m) && M.ConsEnabled(m, q) && !IsRxStore(m.rx.pc) && prods.Keys == m.prods.Keys
    && M.WellShaped(Beside(m, prods, head, parked))
  }

  lemma PublishedBeside(m: M.State, prods: map<Tid, M.Producer>, head: nat, parked: bool)
    requires 0 < m.cap == |m.ring.slots|
    ensures M.Published(Beside(m, prods, head, parked), m.rx.head) <==> M.Published(m, m.rx.head)
  {
  }

  /** The step changes the receiver's own place and flags only. */
  lemma OwnLifts(m: M.State, q: bool, prods: map<Tid, M.Producer>, head: nat, parked: bool, rx: M.Consumer)
    requires RxLiftsFrom(m, q, prods, head, parked)
    requires var u := Beside(m, prods, head, parked);
      M.ConsEnabled(u, q) && M.ConsStep(m, q) == m.(rx := rx) && M.ConsStep(u, q) == u.(rx := rx)
    requires rx.skipped == m.rx.skipped && (Drained(rx.pc) ==> Drained(m.rx.pc) || RxWaits(m.rx.pc))
    ensures RxLifts(m, q, Beside(m, prods, head, parked), prods)
  {
    hide M.ConsStep, M.WellShaped;
  }

  lemma ProbeLifts(m: M.State, q: bool, prods: map<Tid, M.Producer>, head: nat, parked: bool)
    requires RxLiftsFrom(m, q, prods, head, parked)
    requires var pc := m.rx.pc; pc.Probe? || pc.ProbeAgain? || pc.Spin? || pc.RecheckRound? || pc.DrainLoad?
    ensures RxLifts(m, q, Beside(m, prods, head, parked), prods)
  {
    assert 0 < m.cap == |m.ring.slots|;
    PublishedBeside(m, prods, head, parked);
    hide RxLifts, M.Published, M.MoveOut, M.StepStoreHead, M.StepDrainStore, M.StepUnparkAll, M.StepProbeSenders, M.WellShaped;
    var p := M.Published(m, m.rx.head);
    var rx := match m.rx.pc
      case Probe(b) => m.rx.(pc := if p then M.Take else M.ProbeSenders(b))
      case ProbeAgain(_) => if p then m.rx.(pc := M.Take) else m.rx.(pc := M.Resting, closed := true)
      case Spin(left) => m.rx.(pc := if p then M.Probe(true) else if left <= 1 then M.PrepSlot else M.Spin(left - 1))
      case RecheckRound => m.rx.(pc := if p then M.Cancel else M.RecheckSenders)
      case DrainLoad(c, max) => m.rx.(pc := if p then M.DrainTake(c, max) else M.DrainStore(c, false))
      case _ => m.rx;
    OwnLifts(m, q, prods, head, parked, rx);
  }

  lemma SendersLift(m: M.State, q: bool, prods: map<Tid, M.Producer>, head: nat, parked: bool)
    requires RxLiftsFrom(m, q, prods, head, parked)
    requires var pc := m.rx.pc; pc.ProbeSenders? || pc.RecheckSenders? || pc.Callback? || (pc.DrainStore? && pc.count == 0)
    ensures RxLifts(m, q, Beside(m, prods, head, parked), prods)
  {
    hide SlotOf, Tag, M.MoveOut, M.StepStoreHead, M.StepUnparkAll, M.StepProbeAgain, M.Published, M.WellShaped;
  }

  /** What moving a payload out comes to. */
  function MovedOut(m: M.State, pc: M.ConsPC, i: nat, v: Ticket): M.State
    requires i < |m.ring.slots|
  {
    m.(ring := m.ring.(slots := m.ring.slots[i := m.ring.slots[i].(cell := None)]),
       hist := m.hist.(delivered := m.hist.delivered + [v], fault := m.hist.fault || m.rx.head + 1 > USIZE_MAX),
       rx := m.rx.(pc := pc, head := m.rx.head + 1))
  }

  lemma MoveOutIs(m: M.State, pc: M.ConsPC)
    requires 0 < m.cap == |m.ring.slots|
    ensures var i := SlotOf(m.rx.head, m.cap);
      M.MoveOut(m, pc) == match m.ring.slots[i].cell
        case None => m.(hist := m.hist.(fault := true), rx := m.rx.(pc := pc))
        case Some(v) => MovedOut(m, pc, i, v)
  {
    hide SlotOf;
  }

  lemma MoveOutKeeps(m: M.State, pc: M.ConsPC)
    requires 0 < m.cap == |m.ring.slots|
    ensures var m' := M.MoveOut(m, pc);
      && m'.rx.pc == pc && m'.prods == m.prods && m'.rx.skipped == m.rx.skipped && m'.ring.head == m.ring.head && m'.wait == m.wait && m'.park == m.park
  {
    MoveOutIs(m, pc);
    hide SlotOf, M.MoveOut;
  }

  lemma MovedOutLifts(m: M.State, pc: M.ConsPC, i: nat, v: Ticket, prods: map<Tid, M.Producer>, head: nat, parked: bool)
    requires i < |m.ring.slots|
    ensures MovedOut(Beside(m, prods, head, parked), pc, i, v) == Beside(MovedOut(m, pc, i, v), prods, head, parked)
  {
  }

  lemma MoveOutLifts(m: M.State, pc: M.ConsPC, prods: map<Tid, M.Producer>, head: nat, parked: bool)
    requires 0 < m.cap == |m.ring.slots|
    ensures M.MoveOut(Beside(m, prods, head, parked), pc) == Beside(M.MoveOut(m, pc), prods, head, parked)
  {
    MoveOutIs(m, pc);
    MoveOutIs(Beside(m, prods, head, parked), pc);
    hide SlotOf, M.MoveOut, MovedOut;
    match m.ring.slots[SlotOf(m.rx.head, m.cap)].cell
    case None =>
    case Some(v) => MovedOutLifts(m, pc, SlotOf(m.rx.head, m.cap), v, prods, head, parked);
  }

  lemma MoveLifts(m: M.State, q: bool, prods: map<Tid, M.Producer>, head: nat, parked: bool)
    requires RxLiftsFrom(m, q, prods, head, parked) && (m.rx.pc.Take? || m.rx.pc.DrainTake?)
    ensures RxLifts(m, q, Beside(m, prods, head, parked), prods)
  {
    var pc := if m.rx.pc.Take? then M.StoreHead else M.Callback(m.rx.pc.count + 1, m.rx.pc.max);
    MoveOutLifts(m, pc, prods, head, parked);
    MoveOutKeeps(m, pc);
    assert M.ConsStep(m, q) == M.MoveOut(m, pc);
    assert M.ConsStep(Beside(m, prods, head, parked), q) == M.MoveOut(Beside(m, prods, head, parked), pc);
    hide M.MoveOut, M.ConsStep, M.WellShaped;
  }

  lemma LockLifts(m: M.State, q: bool, prods: map<Tid, M.Producer>, head: nat, parked: bool)
    requires RxLiftsFrom(m, q, prods, head, parked)
    requires var pc := m.rx.pc; pc.PrepSlot? || pc.Parked? || pc.SwapWaiting? || pc.LockList?
    ensures RxLifts(m, q, Beside(m, prods, head, parked), prods)
  {
    hide SlotOf, Tag, M.MoveOut, M.StepStoreHead, M.StepDrainStore, M.StepUnparkAll, M.StepProbeAgain, M.StepProbeSenders, M.Published, M.WellShaped;
  }

  lemma UnparkNoneLifts(m: M.State, q: bool, prods: map<Tid, M.Producer>, head: nat, parked: bool)
    requires RxLiftsFrom(m, q, prods, head, parked) && m.rx.pc.UnparkAll? && (m.rx.pc.rest == [] || m.rx.pc.rest[0] !in m.prods)
    ensures RxLifts(m, q, Beside(m, prods, head, parked), prods)
  {
    hide SlotOf, M.WellShaped;
  }

  lemma UnparkOneLifts(m: M.State, q: bool, prods: map<Tid, M.Producer>, head: nat, parked: bool)
    requires RxLiftsFrom(m, q, prods, head, parked) && m.rx.pc.UnparkAll? && m.rx.pc.rest != [] && m.rx.pc.rest[0] in m.prods
    ensures RxLifts(m, q, Beside(m, prods, head, parked), prods)
  {
    hide SlotOf, M.WellShaped;
    var u, t := Beside(m, prods, head, parked), m.rx.pc.rest[0];
    assert M.ConsStep(m, q) == m.(prods := m.prods[t := m.prods[t].(token := true)], rx := m.rx.(pc := M.UnparkAll(m.rx.pc.rest[1..], m.rx.pc.last)));
    assert M.ConsStep(u, q) == u.(prods := prods[t := prods[t].(token := true)], rx := m.rx.(pc := M.UnparkAll(m.rx.pc.rest[1..], m.rx.pc.last)));
    hide M.ConsStep;
  }

  lemma RxStepLifts(m: M.State, q: bool, prods: map<Tid, M.Producer>, head: nat, parked: bool)
    requires RxLiftsFrom(m, q, prods, head, parked)
    ensures RxLifts(m, q, Beside(m, prods, head, parked), prods)
  {
    var pc := m.rx.pc;
    assert M.ConsEnabled(m, q) && !IsRxStore(pc);
    hide RxLifts, RxLiftsFrom;
    if pc.Probe? || pc.ProbeAgain? || pc.Spin? || pc.RecheckRound? || pc.DrainLoad? { ProbeLifts(m, q, prods, head, parked); }
    else if pc.ProbeSenders? || pc.RecheckSenders? || pc.Callback? || pc.DrainStore? { SendersLift(m, q, prods, head, parked); }
    else if pc.Take? || pc.DrainTake? { MoveLifts(m, q, prods, head, parked); }
    else if pc.UnparkAll? && (pc.rest == [] || pc.rest[0] !in m.prods) { UnparkNoneLifts(m, q, prods, head, parked); }
    else if pc.UnparkAll? { UnparkOneLifts(m, q, prods, head, parked); }
    else { LockLifts(m, q, prods, head, parked); }
  }

  /** Only late stores can be pending when the receiver makes a step that stores nothing. */
  lemma OnlyLatePending(rx: M.Consumer, b: seq<RxStore>)
    requires RxShape(rx, b) && !IsRxStore(rx.pc) && (RxWaits(rx.pc) ==> b == [])
    ensures (forall e :: e in b ==> IsLate(e)) && RxBehind(rx.pc, b) == rx.pc
    ensures Drained(rx.pc) ==> b == []
  {
  }

  lemma LateShape(rx: M.Consumer, b: seq<RxStore>)
    requires (forall e :: e in b ==> IsLate(e)) && (Drained(rx.pc) ==> b == [])
    ensures RxShape(rx, b) && RxBehind(rx.pc, b) == rx.pc
  {
    assert forall i :: 0 <= i < |b| ==> b[i] in b;
    if b != [] { assert IsLate(b[|b| - 1]); }
  }

  lemma VirtualIsBeside(s: State)
    requires RxBehind(s.mem.rx.pc, s.rxBuf) == s.mem.rx.pc
    ensures var v := Virtual(s); v == Beside(s.mem, Prods(s.mem.prods, s.bufs), v.ring.head, v.wait.parked)
    ensures var v := Virtual(s); v.ring.head == HeadAfter(s.rxBuf, s.mem.ring.head) && v.wait.parked == (s.mem.wait.parked && Withdraw !in s.rxBuf)
  {
    hide Prods, HeadAfter, RxBehind;
  }

  /** A step that moves a token at most moves the same one in the interleaving. */
  lemma TokensLift(s: State, m': M.State, prods': map<Tid, M.Producer>)
    requires TxBuffersOK(s.mem.prods, s.bufs)
    requires var prods := Prods(s.mem.prods, s.bufs);
      || (m'.prods == s.mem.prods && prods' == prods)
      || exists t :: t in s.mem.prods && t in prods && m'.prods == s.mem.prods[t := s.mem.prods[t].(token := true)]
                     && prods' == prods[t := prods[t].(token := true)]
    ensures Prods(m'.prods, s.bufs) == prods' && TxBuffersOK(m'.prods, s.bufs)
  {
    var prods := Prods(s.mem.prods, s.bufs);
    if m'.prods != s.mem.prods || prods' != prods {
      var t :| t in s.mem.prods && t in prods && m'.prods == s.mem.prods[t := s.mem.prods[t].(token := true)]
               && prods' == prods[t := prods[t].(token := true)];
      ProdsMove(s.mem.prods, s.bufs, t, s.mem.prods[t].(token := true));
      TxBuffersMove(s.mem.prods, s.bufs, t, s.mem.prods[t].(token := true));
    }
  }

  lemma KeepStepRx(s: State, q: bool, s': State)
    requires Inv(s) && Enabled(s, Do(M.StepCons(q))) && !IsRxStore(s.mem.rx.pc) && s' == Apply(s, Do(M.StepCons(q)))
    ensures Inv(s') && M.Enabled(Virtual(s), M.StepCons(q)) && Virtual(s') == M.Apply(Virtual(s), M.StepCons(q))
  {
    var v := Virtual(s);
    var m' := M.ConsStep(s.mem, q);
    assert s' == s.(mem := m') && M.ConsEnabled(s.mem, q) && M.WellShaped(s.mem) && (RxWaits(s.mem.rx.pc) ==> s.rxBuf == []);
    hide W.WakeInv, Enabled, Apply, M.WellShaped, M.ConsStep, M.ConsEnabled, HeadAfter, HeadsRise, Prods, TxBuffersOK, RxShape, RxBehind, View, Drained, RxWaits;
    OnlyLatePending(s.mem.rx, s.rxBuf);
    VirtualIsBeside(s);
    VirtualShaped(s);
    RxStepLifts(s.mem, q, Prods(s.mem.prods, s.bufs), v.ring.head, v.wait.parked);
    LiftedStep(s, m', q);
  }

  lemma LiftedStep(s: State, m': M.State, q: bool)
    requires Inv(s) && M.WellShaped(s.mem) && M.ConsEnabled(s.mem, q) && m' == M.ConsStep(s.mem, q)
    requires (forall e :: e in s.rxBuf ==> IsLate(e)) && (Drained(s.mem.rx.pc) || RxWaits(s.mem.rx.pc) ==> s.rxBuf == [])
    requires RxLifts(s.mem, q, Virtual(s), Prods(s.mem.prods, s.bufs))
    requires RxBehind(s.mem.rx.pc, s.rxBuf) == s.mem.rx.pc
    ensures M.Enabled(Virtual(s), M.StepCons(q))
    ensures Inv(s.(mem := m')) && Virtual(s.(mem := m')) == M.Apply(Virtual(s), M.StepCons(q))
  {
    hide W.WakeInv, M.WellShaped, M.ConsStep, M.ConsEnabled, HeadAfter, HeadsRise, Prods, TxBuffersOK, RxShape, RxBehind, Drained, RxWaits;
    var v, s' := Virtual(s), s.(mem := m');
    VirtualIsBeside(s);
    RxEnabled(s, q);
    ConsApply(v, q);
    W.WakeStep(v, M.StepCons(q));
    var v' := M.ConsStep(v, q);
    TokensLift(s, m', v'.prods);
    LateShape(m'.rx, s.rxBuf);
    VirtualIsBeside(s');
    assert Virtual(s') == v';
  }

  // ---------- the remaining moves ----------

  lemma BehindInOp(pc: M.ProdPC, b: seq<TxStore>)
    requires TxShape(pc, b) && M.InOp(Behind(pc, b))
    ensures (M.InOp(pc) && pc.op == Behind(pc, b).op) || exists e :: e in b && e.Round? && e.op == Behind(pc, b).op
  {
    if b != [] && !M.InOp(pc) {
      assert b[|b| - 1] in b && b[|b| - 1].Round?;
    }
  }

  lemma ReturnedFrom(s: State, t: Tid, h: M.Hid)
    requires Returned(s, h)
    ensures forall e :: e in BufOf(s.bufs, t) && e.Round? ==> e.op.h != h
  {
  }

  lemma HandleIsFree(s: State, h: M.Hid)
    requires Inv(s) && M.HandleFree(s.mem, h) && Returned(s, h)
    ensures M.HandleFree(Virtual(s), h)
  {
    hide W.WakeInv, TxShape, Behind, HeadAfter, RxBehind, RxShape, HeadsRise, Returned;
    var v := Virtual(s);
    forall t | t in v.prods && M.InOp(v.prods[t].pc) ensures v.prods[t].pc.op.h != h {
      ShapeOf(s.mem.prods, s.bufs, t);
      BehindInOp(s.mem.prods[t].pc, BufOf(s.bufs, t));
      ReturnedFrom(s, t, h);
    }
  }

  lemma IdleHasNone(s: State, t: Tid)
    requires Inv(s) && t in s.mem.prods && s.mem.prods[t].pc == M.Idle
    ensures BufOf(s.bufs, t) == [] && t in Virtual(s).prods && Virtual(s).prods[t] == s.mem.prods[t]
  {
    ShapeOf(s.mem.prods, s.bufs, t);
    hide W.WakeInv, HeadAfter, RxBehind, RxShape, HeadsRise;
  }

  /** A call begins, with an older head as its start. */
  lemma StartVirtual(v: M.State, t: Tid, h: M.Hid, b: bool, head: nat)
    requires W.WakeInv(v) && M.Enabled(v, M.StartSend(t, h, b)) && head <= v.ring.head
    ensures t in v.prods
    ensures W.WakeInv(M.SetPC(v.(hist := v.hist.(fate := v.hist.fate + [M.Held(t)])), t, M.CheckRx(M.Op(h, |v.hist.fate|, b, head, 0))))
  {
    W.WakeStep(v, M.StartSend(t, h, b));
    hide W.WakeInv, M.WellShaped, M.HandleFree;
    var v1 := M.Apply(v, M.StartSend(t, h, b));
    var op := M.Op(h, |v.hist.fate|, b, v.ring.head, 0);
    KeepLowerStart(v1, t, op, head);
    assert M.SetPC(v1, t, M.CheckRx(op.(start := head)))
        == M.SetPC(v.(hist := v.hist.(fate := v.hist.fate + [M.Held(t)])), t, M.CheckRx(op.(start := head)));
  }

  lemma KeepStartSend(s: State, t: Tid, h: M.Hid, b: bool, s': State)
    requires Inv(s) && Enabled(s, Do(M.StartSend(t, h, b))) && s' == Apply(s, Do(M.StartSend(t, h, b)))
    ensures var v, head := Virtual(s), s.mem.ring.head;
      && Inv(s') && M.Enabled(v, M.StartSend(t, h, b)) && head <= v.ring.head
      && Virtual(s') == M.SetPC(v.(hist := v.hist.(fate := v.hist.fate + [M.Held(t)])), t, M.CheckRx(M.Op(h, |v.hist.fate|, b, head, 0)))
  {
    hide W.WakeInv, M.WellShaped, HeadAfter, HeadsRise, RxShape, RxBehind, TxShape, TxBuffersOK, Behind, Prods, M.HandleFree, Returned;
    var v, head, n := Virtual(s), s.mem.ring.head, |s.mem.hist.fate|;
    IdleHasNone(s, t);
    HandleIsFree(s, h);
    VirtualShaped(s);
    MemoryIsStale(s);
    ViewParts(s);
    var m := M.StartSend(t, h, b);
    var p' := M.Producer(M.CheckRx(M.Op(h, n, b, head, 0)), s.mem.prods[t].token);
    assert s' == s.(mem := s.mem.(hist := s.mem.hist.(fate := s.mem.hist.fate + [M.Held(t)]), prods := s.mem.prods[t := p']));
    assert M.Enabled(v, m);
    hide Enabled, Apply, M.Enabled;
    StartVirtual(v, t, h, b, head);
    hide M.Apply;
    ProdsMove(s.mem.prods, s.bufs, t, p');
    NoneBehindTx(p'.pc);
    TxBuffersMove(s.mem.prods, s.bufs, t, p');
    assert Virtual(s') == M.SetPC(v.(hist := v.hist.(fate := v.hist.fate + [M.Held(t)])), t, p'.pc);
  }

  lemma NoneBehindTx(pc: M.ProdPC)
    ensures Behind(pc, []) == pc
  {
  }

  lemma ViewParts(s: State)
    ensures var v := Virtual(s);
      && v.hist == s.mem.hist && v.ends == s.mem.ends && v.cap == s.mem.cap && v.park == s.mem.park
      && v.prods == Prods(s.mem.prods, s.bufs) && v.rx == s.mem.rx.(pc := RxBehind(s.mem.rx.pc, s.rxBuf))
  {
    hide Prods, HeadAfter, RxBehind;
  }

  /** Handles are cloned and dropped, tokens come and go. */
  lemma KeepHandles(s: State, c: M.Move, s': State)
    requires Inv(s) && Enabled(s, Do(c)) && s' == Apply(s, Do(c)) && (c.CloneSender? || c.DropSender? || c.ProdNoise?)
    ensures Inv(s') && M.Enabled(Virtual(s), c) && Virtual(s') == M.Apply(Virtual(s), c)
  {
    hide W.WakeInv, M.WellShaped, HeadAfter, HeadsRise, RxShape, RxBehind, TxShape, TxBuffersOK, Behind, Prods, M.HandleFree, Returned;
    var v := Virtual(s);
    VirtualShaped(s);
    ViewParts(s);
    if c.CloneSender? {
      HandleIsFree(s, c.h);
      W.WakeStep(v, c);
    } else {
      if s.mem.prods[c.t].pc == M.Idle { IdleHasNone(s, c.t); }
      if c.DropSender? { HandleIsFree(s, c.h); }
      NoiseVirtual(s, c.t);
      W.WakeStep(v, c);
      var p' := s'.mem.prods[c.t];
      assert s'.mem.prods == s.mem.prods[c.t := p'];
      NoneBehindTx(p'.pc);
      ProdsMove(s.mem.prods, s.bufs, c.t, p');
      TxBuffersMove(s.mem.prods, s.bufs, c.t, p');
    }
    assert Virtual(s') == M.Apply(v, c);
  }

  lemma NoiseVirtual(s: State, t: Tid)
    requires t in s.mem.prods
    ensures t in Virtual(s).prods && Virtual(s).prods[t] == M.Producer(Behind(s.mem.prods[t].pc, BufOf(s.bufs, t)), s.mem.prods[t].token)
  {
    hide HeadAfter, RxBehind;
  }

  /** Calls of the receiver begin, and its thread or token changes. */
  lemma KeepRxStarts(s: State, c: M.Move, s': State)
    requires Inv(s) && Enabled(s, Do(c)) && s' == Apply(s, Do(c))
    requires c.StartRecv? || c.StartDrain? || c.StartDropRx?
    ensures Inv(s') && M.Enabled(Virtual(s), c) && Virtual(s') == M.Apply(Virtual(s), c)
  {
    hide W.WakeInv, M.WellShaped, HeadAfter, HeadsRise, RxShape, RxBehind, TxBuffersOK, Prods, IsRxStore;
    assert s.mem.rx.pc == M.Resting && s' == s.(mem := M.SetRx(s.mem, s'.mem.rx.pc));
    assert RxShape(s.mem.rx, s.rxBuf) by { ShapeOfRx(s); }
    StoringShape(s.mem.rx, s.rxBuf);
    LateShape(s'.mem.rx, s.rxBuf);
    var v := Virtual(s);
    VirtualShaped(s);
    assert M.Enabled(v, c) && M.Apply(v, c) == M.SetRx(v, s'.mem.rx.pc);
    W.WakeStep(v, c);
    hide M.Apply, M.Enabled, Enabled, Apply;
    assert Virtual(s') == M.SetRx(v, s'.mem.rx.pc);
  }

  lemma KeepConsNoise(s: State, tid: Tid, token: bool, s': State)
    requires Inv(s) && Enabled(s, Do(M.ConsNoise(tid, token))) && s' == Apply(s, Do(M.ConsNoise(tid, token)))
    ensures Inv(s') && M.Enabled(Virtual(s), M.ConsNoise(tid, token)) && Virtual(s') == M.Apply(Virtual(s), M.ConsNoise(tid, token))
  {
    assert RxShape(s.mem.rx, s.rxBuf) by { ShapeOfRx(s); }
    RestingBehind(s.mem.rx, s.rxBuf);
    RxShapeMove(s.mem.rx, s'.mem.rx, s.rxBuf);
    hide W.WakeInv, M.WellShaped, HeadAfter, HeadsRise, RxShape, RxBehind, TxBuffersOK, Prods;
    var v := Virtual(s);
    VirtualShaped(s);
    W.WakeStep(v, M.ConsNoise(tid, token));
    assert Virtual(s') == M.Apply(v, M.ConsNoise(tid, token));
  }

  lemma RestingBehind(rx: M.Consumer, b: seq<RxStore>)
    requires RxShape(rx, b)
    ensures rx.pc.Resting? || rx.pc.Callback? || rx.pc.Gone? ==> RxBehind(rx.pc, b) == rx.pc
    ensures rx.pc.Gone? ==> b == []
  {
  }

  lemma NothingLate(s: State)
    requires s.rxBuf == []
    ensures Virtual(s).ring == s.mem.ring && Virtual(s).wait == s.mem.wait
  {
    hide Prods, RxBehind;
  }

  /** Everything is in memory when the channel goes away. */
  lemma KeepReap(s: State, s': State)
    requires Inv(s) && Enabled(s, Do(M.Reap)) && s' == Apply(s, Do(M.Reap))
    ensures Inv(s') && M.Enabled(Virtual(s), M.Reap) && Virtual(s') == M.Apply(Virtual(s), M.Reap)
  {
    hide W.WakeInv, M.WellShaped, HeadAfter, HeadsRise, RxShape, RxBehind, TxBuffersOK, Prods, M.Walk, M.CellsOf, M.Payloads, SlotOf, Tag;
    assert RxShape(s.mem.rx, s.rxBuf) by { ShapeOfRx(s); }
    RestingBehind(s.mem.rx, s.rxBuf);
    NothingLate(s);
    var v := Virtual(s);
    ViewParts(s);
    VirtualShaped(s);
    forall t | t in v.prods ensures v.prods[t].pc == M.Idle {
      IdleHasNone(s, t);
    }
    W.WakeStep(v, M.Reap);
    hide Inv;
    assert Virtual(s') == M.Apply(v, M.Reap);
  }

  /** Every move keeps the invariant. */
  lemma InvStep(s: State, m: Move, s': State)
    requires Inv(s) && Enabled(s, m) && s' == Apply(s, m)
    ensures Inv(s')
  {
    hide Inv, W.WakeInv, Virtual, IssueTx, IssueRx;
    match m
    case FlushTx(t) => KeepFlushTx(s, t, s');
    case FlushRx => KeepFlushRx(s, s');
    case Do(c) =>
      match c
      case StepProd(t, q) => if IsStore(s.mem.prods[t].pc) { KeepIssueTx(s, t, s'); } else { KeepLoadTx(s, t, q, s'); }
      case StepCons(q) =>
        if !IsRxStore(s.mem.rx.pc) { KeepStepRx(s, q, s'); }
        else if LateStore(s.mem.rx.pc) { KeepIssueLate(s, false, s'); }
        else { KeepIssueRx(s, s'); }
      case StartSend(t, h, b) => KeepStartSend(s, t, h, b, s');
      case CloneSender(_, _) => KeepHandles(s, c, s');
      case DropSender(_, _) => KeepHandles(s, c, s');
      case ProdNoise(_, _) => KeepHandles(s, c, s');
      case ConsNoise(tid, token) => KeepConsNoise(s, tid, token, s');
      case Reap => KeepReap(s, s');
      case _ => KeepRxStarts(s, c, s');
  }
}

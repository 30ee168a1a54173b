/**
 The MPSC ring as code. `Channel` holds the shared variables, and each of its atomic methods makes one
 access to them; the operations are written with these methods and with the loops of the original.
 Between any two accesses of an operation the other threads run: `Pause` executes the next slice of
 a schedule of their moves. The schedule is any finite sequence of slices, so what is proved of an
 operation holds for every interleaving, and each access extends `run`, the history of the channel.
 */
module Mpsc {
  import opened Arith
  import opened Common
  import opened MpscMachine
  import opened MpscInvariant
  import opened MpscWake
  import opened MpscTheorems
  import opened MpscThreads

  /** What happens before one access: moves of other threads, and whether the access misbehaves as it
      may (a compare-exchange that fails spuriously, a park that returns without a token). */
  datatype Slice = Slice(moves: seq<Move>, quirk: bool)

  /** The slices that have run. */
  class Schedule {
    var used: seq<Slice>

    constructor ()
      ensures used == []
    {
      used := [];
    }
  }

  class Channel {
    const park: bool
    const cap: nat
    const mask: nat
    const shift: nat
    const slots: array<Slot>
    const clock: Schedule
    // Shared
    var claim: nat
    var head: nat
    var senders: nat
    var rxDropped: bool
    // Parker
    var parked: bool
    var registered: Option<Tid>
    var slotLock: Option<Tid>
    // WaiterList
    var waiting: bool
    var list: seq<Tid>
    // the handles' own fields: cached_head of every Sender, head of the Receiver
    var handles: map<Hid, nat>
    var rx: Consumer
    // where the threads are, and what has become of the payloads
    var prods: map<Tid, Producer>
    var hist: History
    ghost var run: seq<State>

    function Abs(): State
      reads this, slots
    {
      State(cap, park, Ring(slots[..], claim, head), Ends(handles, senders, rxDropped),
            Parking(parked, registered, slotLock, waiting, list), prods, rx, hist)
    }

    /** The history is a run of the machine from an initial state. */
    ghost predicate Logged()
      reads this`run
      ensures Logged() ==> |run| > 0
    {
      && cap == Pow2(shift) && mask == cap - 1 && slots.Length == cap
      && IsRun(run) && Init(run[0])
    }

    /** ... and it has led to the present state. */
    ghost predicate Valid()
      reads this, slots
    {
      Logged() && run[|run| - 1] == Abs()
    }

    /** The state is valid, and `past` is a beginning of its history. */
    ghost predicate Since(past: seq<State>)
      reads this, slots
      ensures Since(past) ==> Valid() && 0 < |past| <= |run|
    {
      |past| > 0 && Valid() && past <= run && Grows(past[|past| - 1], Abs())
    }

    /** Between two points of one history the histories only grow. */
    lemma SinceThen(past: seq<State>, middle: seq<State>)
      requires Since(middle) && |past| > 0 && past <= middle && Grows(past[|past| - 1], middle[|middle| - 1])
      ensures Since(past)
    {
      hide Valid, Grows;
      GrowsTwice(past[|past| - 1], middle[|middle| - 1], Abs());
    }

    lemma SinceNow()
      requires Valid()
      ensures Since(run)
    {
    }

    lemma Pin(past: seq<State>)
      requires Since(past)
      ensures Since(run) && past <= run && Grows(past[|past| - 1], run[|run| - 1])
    {
    }

    lemma Reached()
      requires Valid()
      ensures Reachable(Abs()) && slots.Length == cap
    {
    }

    constructor (shift: nat, park: bool, h: Hid, threads: map<Tid, Producer>, tid: Tid)
      requires Pow2(shift) <= USIZE_MAX && forall t :: t in threads ==> threads[t].pc == Idle
      ensures Valid() && fresh(slots) && fresh(clock) && run == [Abs()] && Init(Abs())
      ensures cap == Pow2(shift) && this.park == park && handles == map[h := 0] && prods == threads && rx.tid == tid
    {
      this.park, this.shift, this.cap, this.mask := park, shift, Pow2(shift), Pow2(shift) - 1;
      slots := new Slot[Pow2(shift)](_ => Slot(-1, None));
      clock := new Schedule();
      claim, head, senders, rxDropped := 0, 0, 1, false;
      parked, registered, slotLock, waiting, list := false, None, None, false, [];
      handles, rx, prods := map[h := 0], Consumer(Resting, 0, tid, false, false, false), threads;
      hist := History([], [], [], [], None, false);
      new;
      run := [Abs()];
    }

    // ---------- other threads ----------

    /** The move that has just been made joins the history. */
    ghost method Record(m: Move, past: seq<State>)
      requires Logged() && |past| > 0 && past <= run && Grows(past[|past| - 1], run[|run| - 1])
      requires Enabled(run[|run| - 1], m) && Abs() == Apply(run[|run| - 1], m) && Grows(run[|run| - 1], Abs())
      modifies this`run
      ensures Since(past) && run == old(run) + [Abs()]
    {
      hide Grows, Enabled, Apply, Init, IsRun, Next;
      ghost var s := Abs();
      GrowsTwice(past[|past| - 1], run[|run| - 1], s);
      RunAppend(run, m, s);
      run := run + [Abs()];
    }

    method StoreSlots(contents: seq<Slot>)
      requires |contents| == slots.Length
      modifies slots
      ensures slots[..] == contents
    {
      forall i | 0 <= i < slots.Length { slots[i] := contents[i]; }
    }

    method Store(s: State)
      requires s.cap == cap == |s.ring.slots| == slots.Length && s.park == park
      modifies this, slots
      ensures Abs() == s && run == old(run)
    {
      StoreSlots(s.ring.slots);
      claim, head := s.ring.claim, s.ring.head;
      handles, senders, rxDropped := s.ends.handles, s.ends.senders, s.ends.rxDropped;
      parked, registered, slotLock, waiting, list :=
        s.wait.parked, s.wait.registered, s.wait.slotLock, s.wait.waiting, s.wait.list;
      prods, rx, hist := s.prods, s.rx, s.hist;
    }

    /** Somebody else makes a move. */
    method Execute(m: Move, ghost past: seq<State>)
      requires Since(past) && Enabled(Abs(), m)
      modifies this, slots
      ensures Since(past) && Abs() == Apply(old(Abs()), m) && run == old(run) + [Abs()]
    {
      hide Enabled, Apply, Reachable, Logged, Grows;
      Reached();
      ApplyFits(Abs(), m);
      var s := Apply(Abs(), m);
      Store(s);
      Record(m, past);
    }

    /** The other threads run for a while. */
    method Pause(me: Actor, env: seq<Slice>, ghost past: seq<State>) returns (rest: seq<Slice>, quirk: bool)
      requires Since(past) && (me.Sending? ==> me.t in prods)
      modifies this, slots, clock
      ensures Since(past) && Undisturbed(me, old(Abs()), Abs())
      ensures rest == (if env == [] then [] else env[1..]) && quirk == (env != [] && env[0].quirk)
      ensures env == [] ==> Abs() == old(Abs()) && run == old(run)
      ensures old(run) <= run
      ensures clock.used + rest == old(clock.used) + env
    {
      hide Since, Valid, Enabled, Apply, Foreign, Reachable;
      Reached();
      StaysPut(me, Abs());
      rest, quirk := [], false;
      if env != [] {
        rest, quirk := env[1..], env[0].quirk;
        clock.used := clock.used + [env[0]];
        for i := 0 to |env[0].moves|
          invariant Since(past) && old(run) <= run && clock.used == old(clock.used) + [env[0]]
          invariant Undisturbed(me, old(Abs()), Abs()) && (me.Sending? ==> me.t in prods)
        {
          var m := env[0].moves[i];
          if Enabled(Abs(), m) && Foreign(me, Abs(), m) {
            Reached();
            ForeignMove(me, old(Abs()), Abs(), m);
            Execute(m, past);
          }
        }
      }
    }

    /** The other threads run, as a sender sees it: its call, its handle and its token are still there. */
    method Yield(t: Tid, env: seq<Slice>, ghost past: seq<State>) returns (rest: seq<Slice>, quirk: bool)
      requires Since(past) && t in prods
      modifies this, slots, clock
      ensures Since(past) && t in prods && prods[t].pc == old(prods[t].pc) && (old(prods[t].token) ==> prods[t].token)
      ensures InOp(prods[t].pc) ==> var h := prods[t].pc.op.h; h in handles && h in old(handles) && handles[h] == old(handles)[h]
      ensures env == [] ==> rest == [] && !quirk && Abs() == old(Abs()) && run == old(run)
      ensures env != [] ==> |rest| < |env|
      ensures (old(rxDropped) ==> rxDropped) && (old(senders) == 0 ==> senders == 0)
      ensures clock.used + rest == old(clock.used) + env
    {
      hide Since, Valid;
      rest, quirk := Pause(Sending(t), env, past);
    }

    // ---------- the producers' accesses ----------

    /** The thread's next access is the one that `pc` names. */
    ghost predicate At(t: Tid, pc: ProdPC)
      reads this
    {
      t in prods && prods[t].pc == pc
    }

    /** The payload went back to the caller. */
    ghost predicate Returned(t: Tid, v: Ticket)
      reads this
    {
      At(t, Idle) && v < |hist.fate| && hist.fate[v].HandedBack?
    }

    /** Where the claim loop stands with sequence `seqNo`, by its local test against the cached head. */
    ghost predicate Deciding(t: Tid, op: Op, seqNo: nat)
      reads this
    {
      op.h in handles && At(t, if seqNo >= Saturate(handles[op.h] + cap) then LoadHead(op, seqNo) else Cas(op, seqNo))
    }

    /** The counters, the flags, the log and the receiver's place are as in `s`. */
    ghost predicate CountersSame(s: State)
      reads this, slots
    {
      SameCounters(s, Abs())
    }

    /** So are the slots, the tokens and the lock of the handle slot: the thread has only looked. */
    ghost predicate RingSame(t: Tid, s: State)
      reads this, slots
    {
      OnlyLooked(t, s, Abs())
    }

    /** The receiver has changed nothing since `s` but where it stands, its registration and its token. */
    ghost predicate RxLooked(s: State)
      reads this, slots
    {
      RxOnlyLooked(s, Abs())
    }

    /** How the claim loop is left with `Full`. */
    ghost predicate LeftFull(t: Tid, op: Op)
      reads this
    {
      if !op.blocking then Returned(t, op.v)
      else At(t, if park then PushList(op) else CheckRx(op.(start := head, fails := 0)))
    }

    /** Nobody else has run since `s`, and the thread has won the next sequence. */
    ghost predicate AloneWon(op: Op, t: Tid, s: State)
      reads this, slots
    {
      slotLock == s.wait.slotLock && CountersSame(Won(s, op, t))
    }

    method Goto(t: Tid, pc: ProdPC)
      requires t in prods
      modifies this`prods
      ensures prods == old(prods)[t := old(prods)[t].(pc := pc)]
    {
      prods := prods[t := prods[t].(pc := pc)];
    }

    /** An error takes the payload back to the caller. */
    method HandBack(t: Tid, v: Ticket)
      requires t in prods && v < |hist.fate|
      modifies this`prods, this`hist
      ensures prods == old(prods)[t := old(prods)[t].(pc := Idle)]
      ensures hist == old(hist).(returned := old(hist).returned + [v], fate := old(hist).fate[v := HandedBack(|old(hist).returned|)])
    {
      hist := hist.(returned := hist.returned + [v], fate := hist.fate[v := HandedBack(|hist.returned|)]);
      Goto(t, Idle);
    }

    method LoadRxDropped(t: Tid, op: Op, ghost past: seq<State>) returns (gone: bool)
      requires Since(past) && At(t, CheckRx(op))
      modifies this
      ensures Since(past) && run == old(run) + [Abs()]
      ensures gone == old(rxDropped)
      ensures At(t, if gone then Idle else LoadClaim(op))
      ensures gone ==> op.v < |hist.fate| && hist.fate[op.v].HandedBack?
      ensures RingSame(t, old(Abs()))
    {
      hide Grows, Reachable, Enabled, Apply, Logged;
      Reached();
      CheckRxMove(Abs(), t, op);
      gone := rxDropped;
      if gone {
        HandBack(t, op.v);
      } else {
        Goto(t, LoadClaim(op));
      }
      Record(StepProd(t, false), past);
    }

    method LoadClaimCounter(t: Tid, op: Op, ghost past: seq<State>) returns (seqNo: nat)
      requires Since(past) && At(t, LoadClaim(op))
      modifies this
      ensures Since(past) && run == old(run) + [Abs()]
      ensures seqNo == claim == old(claim) && Deciding(t, op, seqNo)
      ensures RingSame(t, old(Abs()))
    {
      hide Grows, Reachable, Enabled, Apply, Logged;
      Reached();
      LoadClaimMove(Abs(), t, op);
      seqNo := claim;
      Goto(t, if seqNo >= Saturate(handles[op.h] + cap) then LoadHead(op, seqNo) else Cas(op, seqNo));
      Record(StepProd(t, false), past);
    }

    /** The reload of the handle's cached head, and the test that follows it. */
    method RefreshCachedHead(t: Tid, op: Op, seqNo: nat, ghost past: seq<State>) returns (full: bool)
      requires Since(past) && At(t, LoadHead(op, seqNo))
      modifies this
      ensures Since(past) && run == old(run) + [Abs()]
      ensures op.h in handles && handles[op.h] == head == old(head) && claim == old(claim)
      ensures full == (seqNo >= Saturate(head + cap))
      ensures !full ==> At(t, Cas(op, seqNo))
      ensures full && op.blocking ==> At(t, if park then PushList(op) else CheckRx(op.(start := head, fails := 0)))
      ensures full && !op.blocking ==> At(t, Idle) && op.v < |hist.fate| && hist.fate[op.v].HandedBack?
      ensures RingSame(t, old(Abs()))
    {
      hide Grows, Reachable, Enabled, Apply, Logged;
      hide SameCounters, OnlyLooked, Won;
      ghost var s := Abs();
      Reached();
      LoadHeadMove(Abs(), t, op, seqNo);
      handles := handles[op.h := head];
      full := seqNo >= Saturate(head + cap);
      if !full {
        Goto(t, Cas(op, seqNo));
      } else if !op.blocking {
        HandBack(t, op.v);
      } else {
        Goto(t, if park then PushList(op) else CheckRx(op.(start := head, fails := 0)));
      }
      Record(StepProd(t, false), past);
      LoadHeadLaw(s, t, op, seqNo);
    }

    /** `compare_exchange_weak(seq, seq + 1)`; a failure returns the current value. `next` is the call
        with its count of lost exchanges. */
    method CompareExchangeWeak(t: Tid, op: Op, seqNo: nat, spurious: bool, ghost past: seq<State>) returns (won: bool, current: nat, next: Op)
      requires Since(past) && At(t, Cas(op, seqNo))
      modifies this
      ensures Since(past) && run == old(run) + [Abs()]
      ensures current == old(claim) && won == (current == seqNo && !spurious) && op.h in handles
      ensures won ==> claim == seqNo + 1 && next == op && At(t, Write(op, seqNo)) && hist.log == old(hist.log) + [Claim(op.v, t)]
      ensures !won ==> claim == current && next == op.(fails := next.fails)
      ensures !won ==> At(t, if current >= Saturate(handles[op.h] + cap) then LoadHead(next, current) else Cas(next, current))
      ensures if won then slotLock == old(slotLock) && CountersSame(Won(old(Abs()), op, t)) else RingSame(t, old(Abs()))
    {
      hide Since, Valid, SameCounters, OnlyLooked, Won, Saturate;
      current, next := claim, op;
      won := claim == seqNo && !spurious;
      if won {
        WinClaim(t, op, seqNo, past);
      } else {
        next := LoseClaim(t, op, seqNo, spurious, past);
      }
    }

    /** The exchange succeeds: the counter moves on and the log gains the claim. */
    method WinClaim(t: Tid, op: Op, seqNo: nat, ghost past: seq<State>)
      requires Since(past) && At(t, Cas(op, seqNo)) && claim == seqNo
      modifies this
      ensures Since(past) && run == old(run) + [Abs()] && op.h in handles
      ensures claim == seqNo + 1 && At(t, Write(op, seqNo)) && hist.log == old(hist.log) + [Claim(op.v, t)]
      ensures slotLock == old(slotLock) && CountersSame(Won(old(Abs()), op, t))
    {
      hide Grows, Reachable, Enabled, Apply, Logged, Saturate, SameCounters, OnlyLooked, Won;
      ghost var s := Abs();
      Reached();
      CasMove(s, t, op, seqNo, false);
      CasLaw(s, t, op, seqNo, false);
      claim := seqNo + 1;
      hist := hist.(log := hist.log + [Claim(op.v, t)], fate := hist.fate[op.v := Accepted(|hist.log|)],
                    fault := hist.fault || seqNo + 1 > USIZE_MAX);
      Goto(t, Write(op, seqNo));
      Record(StepProd(t, false), past);
    }

    /** It fails: the call goes on with the value it has found. */
    method LoseClaim(t: Tid, op: Op, seqNo: nat, spurious: bool, ghost past: seq<State>) returns (next: Op)
      requires Since(past) && At(t, Cas(op, seqNo)) && (claim != seqNo || spurious)
      modifies this
      ensures Since(past) && run == old(run) + [Abs()] && op.h in handles && claim == old(claim) && next == op.(fails := next.fails)
      ensures At(t, if claim >= Saturate(handles[op.h] + cap) then LoadHead(next, claim) else Cas(next, claim))
      ensures RingSame(t, old(Abs()))
    {
      hide Grows, Reachable, Enabled, Apply, Logged, Saturate, SameCounters, OnlyLooked, Won;
      ghost var s := Abs();
      Reached();
      CasMove(s, t, op, seqNo, spurious);
      CasLaw(s, t, op, seqNo, spurious);
      next := if claim == seqNo then op else op.(fails := op.fails + 1);
      Goto(t, if claim >= Saturate(handles[op.h] + cap) then LoadHead(next, claim) else Cas(next, claim));
      Record(StepProd(t, spurious), past);
    }

    /** Write the payload into slot `seq & mask`. */
    method WriteValue(t: Tid, op: Op, seqNo: nat, ghost past: seq<State>)
      requires Since(past) && At(t, Write(op, seqNo))
      modifies this, slots
      ensures Since(past) && run == old(run) + [Abs()]
      ensures At(t, Publish(op, seqNo))
      ensures CountersSame(old(Abs())) && slotLock == old(slotLock)
    {
      hide Grows, Reachable, Enabled, Apply, Logged, SlotOf, And;
      hide SameCounters, OnlyLooked, Won;
      ghost var s := Abs();
      Reached();
      WriteMove(Abs(), t, op, seqNo);
      IndexOf(seqNo);
      var i := And(seqNo, mask);
      hist := hist.(fault := hist.fault || slots[i].cell != None);
      slots[i] := slots[i].(cell := Some(op.v));
      Goto(t, Publish(op, seqNo));
      Record(StepProd(t, false), past);
      WriteLaw(s, t, op, seqNo);
    }

    /** Store `(seq >> shift) as i64` as the slot's round. */
    method StoreRound(t: Tid, op: Op, seqNo: nat, ghost past: seq<State>)
      requires Since(past) && At(t, Publish(op, seqNo))
      modifies this, slots
      ensures Since(past) && run == old(run) + [Abs()]
      ensures hist == old(hist) && At(t, if park then WakeLoad else Idle)
      ensures CountersSame(old(Abs())) && slotLock == old(slotLock)
    {
      hide Grows, Reachable, Enabled, Apply, Logged, SlotOf, And, Shr, AsI64, Tag;
      Reached();
      PublishMove(Abs(), t, op, seqNo);
      IndexOf(seqNo);
      var i := And(seqNo, mask);
      slots[i] := slots[i].(round := AsI64(Shr(seqNo, shift)));
      Goto(t, if park then WakeLoad else Idle);
      Record(StepProd(t, false), past);
    }

    // the Park arm of Sender::send, and WaiterList::prepare_wait

    method PushSelf(t: Tid, op: Op, ghost past: seq<State>)
      requires Since(past) && At(t, PushList(op)) && ListUnlocked(Abs())
      modifies this
      ensures Since(past) && run == old(run) + [Abs()]
      ensures At(t, SetWaiting(op))
      ensures RingSame(t, old(Abs()))
    {
      hide Grows, Reachable, Enabled, Apply, Logged;
      Reached();
      WaitMove(Abs(), t, false);
      list := list + [t];
      Goto(t, SetWaiting(op));
      Record(StepProd(t, false), past);
    }

    method StoreWaiting(t: Tid, op: Op, ghost past: seq<State>)
      requires Since(past) && At(t, SetWaiting(op))
      modifies this
      ensures Since(past) && run == old(run) + [Abs()]
      ensures At(t, ReloadClaim(op))
      ensures RingSame(t, old(Abs()))
    {
      hide Grows, Reachable, Enabled, Apply, Logged;
      Reached();
      WaitMove(Abs(), t, false);
      waiting := true;
      Goto(t, ReloadClaim(op));
      Record(StepProd(t, false), past);
    }

    method RecheckClaim(t: Tid, op: Op, ghost past: seq<State>) returns (seen: nat)
      requires Since(past) && At(t, ReloadClaim(op))
      modifies this
      ensures Since(past) && run == old(run) + [Abs()]
      ensures seen == old(claim) && At(t, ReloadHead(op, seen))
      ensures RingSame(t, old(Abs()))
    {
      hide Grows, Reachable, Enabled, Apply, Logged;
      Reached();
      WaitMove(Abs(), t, false);
      seen := claim;
      Goto(t, ReloadHead(op, seen));
      Record(StepProd(t, false), past);
    }

    /** Room, as of this load: the call starts over. */
    method RecheckHead(t: Tid, op: Op, seen: nat, ghost past: seq<State>) returns (room: bool)
      requires Since(past) && At(t, ReloadHead(op, seen))
      modifies this
      ensures Since(past) && run == old(run) + [Abs()]
      ensures room == (seen < Saturate(head + cap)) && head == old(head)
      ensures At(t, if room then CheckRx(op.(start := head, fails := 0)) else ReloadRx(op))
      ensures RingSame(t, old(Abs()))
    {
      hide Grows, Reachable, Enabled, Apply, Logged, Saturate;
      Reached();
      WaitMove(Abs(), t, false);
      room := seen < Saturate(head + cap);
      Goto(t, if room then CheckRx(op.(start := head, fails := 0)) else ReloadRx(op));
      Record(StepProd(t, false), past);
    }

    method RecheckRxDropped(t: Tid, op: Op, ghost past: seq<State>) returns (gone: bool)
      requires Since(past) && At(t, ReloadRx(op))
      modifies this
      ensures Since(past) && run == old(run) + [Abs()]
      ensures gone == old(rxDropped) && head == old(head)
      ensures At(t, if gone then CheckRx(op.(start := head, fails := 0)) else Park(op))
      ensures RingSame(t, old(Abs()))
    {
      hide Grows, Reachable, Enabled, Apply, Logged;
      Reached();
      WaitMove(Abs(), t, false);
      gone := rxDropped;
      Goto(t, if gone then CheckRx(op.(start := head, fails := 0)) else Park(op));
      Record(StepProd(t, false), past);
    }

    /** `thread::park` returns: with the token, or spuriously. */
    method ParkThread(t: Tid, op: Op, spurious: bool, ghost past: seq<State>)
      requires Since(past) && At(t, Park(op)) && (prods[t].token || spurious)
      modifies this
      ensures Since(past) && run == old(run) + [Abs()]
      ensures head == old(head) && At(t, CheckRx(op.(start := head, fails := 0)))
      ensures CountersSame(old(Abs())) && rx == old(rx) && slots[..] == old(slots[..]) && slotLock == old(slotLock) && !prods[t].token
    {
      hide Grows, Reachable, Enabled, Apply, Logged;
      Reached();
      WaitMove(Abs(), t, spurious);
      prods := prods[t := Producer(CheckRx(op.(start := head, fails := 0)), false)];
      Record(StepProd(t, spurious), past);
    }

    // Parker::wake

    method LoadParked(t: Tid, ghost past: seq<State>) returns (b: bool)
      requires Since(past) && At(t, WakeLoad)
      modifies this
      ensures Since(past) && run == old(run) + [Abs()]
      ensures b == old(parked) && At(t, if b then WakeClear else Idle) && senders == old(senders)
      ensures CountersSame(old(Abs())) && slotLock == old(slotLock)
    {
      hide Grows, Reachable, Enabled, Apply, Logged;
      Reached();
      WakeMove(Abs(), t);
      b := parked;
      Goto(t, if b then WakeClear else Idle);
      Record(StepProd(t, false), past);
    }

    method ClearParked(t: Tid, ghost past: seq<State>)
      requires Since(past) && At(t, WakeClear)
      modifies this
      ensures Since(past) && run == old(run) + [Abs()]
      ensures At(t, WakeTake) && senders == old(senders)
      ensures CountersSame(old(Abs())) && slotLock == old(slotLock)
    {
      hide Grows, Reachable, Enabled, Apply, Logged;
      Reached();
      WakeMove(Abs(), t);
      parked := false;
      Goto(t, WakeTake);
      Record(StepProd(t, false), past);
    }

    /** Lock the handle slot and take; the lock is kept only if there is somebody to unpark. */
    method TakeHandle(t: Tid, ghost past: seq<State>) returns (target: Option<Tid>)
      requires Since(past) && At(t, WakeTake) && slotLock == None
      modifies this
      ensures Since(past) && run == old(run) + [Abs()]
      ensures target == old(registered) && senders == old(senders)
      ensures At(t, match target case None => Idle case Some(u) => WakeUnpark(u))
      ensures CountersSame(old(Abs()))
    {
      hide Grows, Reachable, Enabled, Apply, Logged;
      hide SameCounters, OnlyLooked, Won;
      ghost var s := Abs();
      Reached();
      WakeMove(Abs(), t);
      target := registered;
      match target {
        case None =>
          Goto(t, Idle);
        case Some(u) =>
          registered, slotLock := None, Some(t);
          Goto(t, WakeUnpark(u));
      }
      Record(StepProd(t, false), past);
      TakeLaw(s, t);
    }

    method UnparkReceiver(t: Tid, u: Tid, ghost past: seq<State>)
      requires Since(past) && At(t, WakeUnpark(u))
      modifies this
      ensures Since(past) && run == old(run) + [Abs()]
      ensures At(t, Idle) && slotLock == None && (u == rx.tid ==> rx.token) && senders == old(senders)
      ensures CountersSame(old(Abs()))
    {
      hide Grows, Reachable, Enabled, Apply, Logged;
      Reached();
      WakeMove(Abs(), t);
      slotLock := None;
      if u == rx.tid { rx := rx.(token := true); }
      Goto(t, Idle);
      Record(StepProd(t, false), past);
    }

    // ---------- Sender ----------

    /** A call of `try_send` or `send` begins: the payload is moved in. */
    method BeginSend(t: Tid, h: Hid, blocking: bool, ghost past: seq<State>) returns (op: Op)
      requires Since(past) && At(t, Idle) && HandleFree(Abs(), h)
      modifies this
      ensures Since(past) && run == old(run) + [Abs()]
      ensures op.h == h && op.blocking == blocking && op.v == |old(hist.fate)| && op.v < |hist.fate| && At(t, CheckRx(op))
      ensures rxDropped == old(rxDropped)
      ensures hist.log == old(hist.log) && hist.delivered == old(hist.delivered) && |hist.fate| == |old(hist.fate)| + 1
      ensures RingSame(t, old(Abs()).(hist := hist))
    {
      hide Grows, Reachable, Enabled, Apply, Logged, HandleFree;
      Reached();
      StartMove(Abs(), t, h, blocking);
      op := Op(h, |hist.fate|, blocking, head, 0);
      hist := hist.(fate := hist.fate + [Held(t)]);
      Goto(t, CheckRx(op));
      Record(StartSend(t, h, blocking), past);
    }

    /** At this point of the history the claims were a full lap ahead of the head (or at `usize::MAX`). */
    ghost predicate FoundFull(moment: nat)
      reads this`run
    {
      moment < |run| && run[moment].ring.claim == Limit(run[moment].ring.head, cap)
    }

    /** At this point the receiver was gone. */
    ghost predicate FoundGone(moment: nat)
      reads this`run
    {
      moment < |run| && run[moment].ends.rxDropped
    }

    /** At this point the sequence was free and within the lap of the head; the claim moved past it. */
    ghost predicate FoundRoom(moment: nat, seqNo: nat)
      reads this`run
    {
      moment < |run| && run[moment].ring.claim == seqNo < run[moment].ring.head + cap
    }

    lemma FullMoment(t: Tid, op: Op, seqNo: nat)
      requires Valid() && At(t, LoadHead(op, seqNo))
      ensures seqNo >= Saturate(head + cap) ==> FoundFull(|run| - 1)
    {
      Reached();
      if seqNo >= Limit(head, cap) { FullIsExact(Abs(), t, op, seqNo); }
    }

    lemma WinningMoment(t: Tid, op: Op, seqNo: nat)
      requires Valid() && At(t, Cas(op, seqNo))
      ensures claim == seqNo ==> FoundRoom(|run| - 1, seqNo)
    {
      Reached();
      if claim == seqNo { WonClaimIsWithinTheLap(Abs(), t, op); }
    }

    /** A cached head is never ahead of the shared one. */
    lemma CachedBehind(t: Tid, op: Op)
      requires Valid() && t in prods && InOp(prods[t].pc) && prods[t].pc.op == op
      ensures op.h in handles && handles[op.h] <= head
    {
      Reached();
      CachedIsOld(Abs(), t);
    }

    /** The test against the cached head, which is refreshed when it looks a full lap behind. */
    method CheckRoom(t: Tid, op: Op, seqNo: nat, env: seq<Slice>, ghost past: seq<State>)
        returns (full: bool, rest: seq<Slice>, ghost moment: nat)
      requires Since(past) && Deciding(t, op, seqNo)
      modifies this, slots, clock
      ensures Since(past) && |past| <= moment + 1 && |rest| <= |env|
      ensures env == [] || |rest| == |env| ==> claim == old(claim)
      ensures full ==> FoundFull(moment) && LeftFull(t, op)
      ensures !full ==> At(t, Cas(op, seqNo))
      ensures env == [] ==> rest == [] && full == (seqNo >= Saturate(head + cap)) && RingSame(t, old(Abs()))
      ensures clock.used + rest == old(clock.used) + env
    {
      hide Since, Valid, Grows;
      full, rest, moment := false, env, |run| - 1;
      CachedBehind(t, op);
      if seqNo >= Saturate(handles[op.h] + cap) {
        var quirk;
        rest, quirk := Yield(t, env, past);
        FullMoment(t, op, seqNo);
        moment := |run| - 1;
        full := RefreshCachedHead(t, op, seqNo, past);
      }
    }

    /** One compare-exchange. A failure leaves the loop with the current claim counter, and means that
        some slice of the schedule has been used up. */
    method Exchange(t: Tid, op: Op, seqNo: nat, env: seq<Slice>, ghost past: seq<State>)
        returns (won: bool, next: Op, current: nat, rest: seq<Slice>, ghost moment: nat)
      requires Since(past) && At(t, Cas(op, seqNo))
      modifies this, slots, clock
      ensures Since(past) && |past| <= moment + 1 && |rest| <= |env| && SameCallAs(op, next)
      ensures won ==> next == op && current == seqNo && At(t, Write(next, seqNo)) && FoundRoom(moment, seqNo)
      ensures !won ==> Deciding(t, next, current) && claim == current
      ensures !won ==> |rest| < |env| || old(claim) != seqNo
      ensures env == [] && old(claim) == seqNo ==> won && rest == [] && AloneWon(op, t, old(Abs()))
      ensures clock.used + rest == old(clock.used) + env
    {
      hide Since, Valid, Grows;
      var quirk;
      rest, quirk := Yield(t, env, past);
      WinningMoment(t, op, seqNo);
      moment := |run| - 1;
      won, current, next := CompareExchangeWeak(t, op, seqNo, quirk, past);
    }

    /** The bounded compare-exchange loop. `Sent` means that `seqNo` has been claimed; `moment` is the
        index in the history of the state in which the outcome was decided. */
    method ClaimSequence(t: Tid, start: Op, env: seq<Slice>, ghost past: seq<State>)
        returns (full: bool, op: Op, seqNo: nat, rest: seq<Slice>, ghost moment: nat)
      requires Since(past) && At(t, LoadClaim(start))
      modifies this, slots, clock
      ensures Since(past) && |past| <= moment + 1 && |rest| <= |env| && SameCallAs(start, op)
      ensures full ==> FoundFull(moment) && LeftFull(t, op)
      ensures !full ==> FoundRoom(moment, seqNo) && At(t, Write(op, seqNo))
      ensures env == [] ==> rest == [] && full == (old(claim) >= Saturate(old(head) + cap))
      ensures env == [] ==> if full then RingSame(t, old(Abs())) else seqNo == old(claim) && AloneWon(op, t, old(Abs()))
      ensures clock.used + rest == old(clock.used) + env
    {
      hide Since, Valid, Deciding, FoundFull, FoundRoom, LeftFull, SameCounters, OnlyLooked, Won;
      var quirk;
      ghost var s := Abs();
      rest, quirk := Yield(t, env, past);
      seqNo := LoadClaimCounter(t, start, past);
      op, full, moment := start, false, |run| - 1;
      var won := false;
      while !won
        invariant clock.used + rest == old(clock.used) + env
        invariant Since(past) && |past| <= moment + 1 && |rest| <= |env| && SameCallAs(start, op) && !full
        invariant env == [] ==> rest == [] && if won then seqNo == old(claim) && old(claim) < Saturate(old(head) + cap) && AloneWon(op, t, old(Abs()))
                                              else RingSame(t, old(Abs()))
        invariant if won then FoundRoom(moment, seqNo) && At(t, Write(op, seqNo)) else Deciding(t, op, seqNo) && claim == seqNo
        decreases !won, |rest|
      {
        ghost var s1 := Abs();
        if env == [] { LookFields(t, s, s1); CounterFields(s, s1); }
        full, rest, moment := CheckRoom(t, op, seqNo, rest, past);
        ghost var s2 := Abs();
        LookLaws(t, op, s, s1, s2);
        if env == [] { LookFields(t, s, s2); CounterFields(s, s2); }
        if full {
          return;
        }
        won, op, seqNo, rest, moment := Exchange(t, op, seqNo, rest, past);
        LookLaws(t, op, s, s2, Abs());
      }
    }

    /** The payload has its place in the log and its round is stored (or the receiver has moved on). */
    ghost predicate InRing(t: Tid, v: Ticket, seqNo: nat)
      reads this, slots
    {
      && Recorded(Abs(), t, v, seqNo)
      && 0 < cap == slots.Length && (seqNo < rx.head || Published(Abs(), seqNo))
    }

    lemma PublishedIsInRing(past: seq<State>, t: Tid, op: Op, seqNo: nat)
      requires Since(past) && t in prods && !InFlight(prods[t].pc)
      requires Recorded(past[|past| - 1], t, op.v, seqNo)
      ensures InRing(t, op.v, seqNo)
    {
      Reached();
      AcceptedIsVisible(Abs(), t, seqNo);
    }

    /** The payload goes into the slot, and then the round that publishes it. */
    method PublishValue(t: Tid, op: Op, seqNo: nat, env: seq<Slice>, ghost past: seq<State>) returns (rest: seq<Slice>)
      requires Since(past) && At(t, Write(op, seqNo))
      modifies this, slots, clock
      ensures Since(past) && |rest| <= |env| && At(t, if park then WakeLoad else Idle)
      ensures Recorded(Abs(), t, op.v, seqNo)
      ensures env == [] ==> rest == [] && CountersSame(old(Abs())) && slotLock == old(slotLock)
      ensures clock.used + rest == old(clock.used) + env
    {
      hide Since, Valid, Grows;
      var quirk;
      rest, quirk := Yield(t, env, past);
      WriteValue(t, op, seqNo, past);
      rest, quirk := Yield(t, rest, past);
      FlightMoment(t, op, seqNo);
      StoreRound(t, op, seqNo, past);
    }

    lemma FlightMoment(t: Tid, op: Op, seqNo: nat)
      requires Valid() && At(t, Publish(op, seqNo))
      ensures Recorded(Abs(), t, op.v, seqNo)
    {
      Reached();
      FlightRecord(Abs(), t, op, seqNo);
    }

    /** `Parker::wake` of the consumer's parker. It can be held up only by the lock of the handle slot,
        and then the schedule has ended with the lock held. */
    method WakeConsumer(t: Tid, env: seq<Slice>, ghost past: seq<State>) returns (done: bool, rest: seq<Slice>)
      requires Since(past) && At(t, WakeLoad)
      modifies this, slots, clock
      ensures Since(past) && |rest| <= |env|
      ensures if done then At(t, Idle) else At(t, WakeTake) && slotLock != None && rest == []
      ensures (old(senders) == 0 ==> senders == 0) && ReceiverCovered()
      ensures env == [] ==> rest == [] && CountersSame(old(Abs())) && (done || old(slotLock) != None)
      ensures clock.used + rest == old(clock.used) + env
    {
      hide Since, Valid, Grows, ReceiverCovered;
      done := true;
      var quirk;
      rest, quirk := Yield(t, env, past);
      var isParked := LoadParked(t, past);
      if isParked {
        rest, quirk := Yield(t, rest, past);
        ClearParked(t, past);
        done, rest := LockAndUnpark(t, rest, past);
      }
      Covered();
    }

    /** If the receiver sleeps without a token although its slot is published or no sender is left, then a thread
        is still on its way to wake it: after a caller's wake is done, another one. */
    ghost predicate ReceiverCovered()
      reads this, slots
    {
      rx.pc == Parked && !rx.token && (senders == 0 || SlotPublished(rx.head)) ==> ReceiverWillBeWoken(Abs())
    }

    lemma Covered()
      requires Valid()
      ensures ReceiverCovered()
    {
      Reached();
      IndexOf(rx.head);
      if rx.pc == Parked && !rx.token && (senders == 0 || SlotPublished(rx.head)) {
        ConsumerWakeupIsNotLost(Abs());
      }
    }

    /** With the handle lock held: take the receiver's handle out of the slot, and unpark it if there was one. */
    method LockAndUnpark(t: Tid, env: seq<Slice>, ghost past: seq<State>) returns (done: bool, rest: seq<Slice>)
      requires Since(past) && At(t, WakeTake)
      modifies this, slots, clock
      ensures Since(past) && |rest| <= |env|
      ensures if done then At(t, Idle) else At(t, WakeTake) && slotLock != None && rest == []
      ensures old(senders) == 0 ==> senders == 0
      ensures env == [] ==> rest == [] && CountersSame(old(Abs())) && (done <==> old(slotLock) == None)
      ensures clock.used + rest == old(clock.used) + env
    {
      hide Since, Valid, Grows;
      var quirk;
      rest, quirk := Yield(t, env, past);
      while slotLock != None && rest != []
        invariant clock.used + rest == old(clock.used) + env
        invariant Since(past) && At(t, WakeTake) && |rest| <= |env| && (old(senders) == 0 ==> senders == 0)
        invariant env == [] ==> rest == [] && CountersSame(old(Abs())) && slotLock == old(slotLock)
        decreases |rest|
      {
        rest, quirk := Yield(t, rest, past);
      }
      done := slotLock == None;
      if done {
        var target := TakeHandle(t, past);
        match target {
          case None =>
          case Some(u) =>
            rest, quirk := Yield(t, rest, past);
            UnparkReceiver(t, u, past);
        }
      }
    }

    lemma RoomStays(middle: seq<State>, moment: nat, seqNo: nat)
      requires Since(middle) && moment < |middle| && middle[moment].ring.claim == seqNo < middle[moment].ring.head + cap
      ensures FoundRoom(moment, seqNo)
    {
    }

    /** What a call that has claimed `seqNo` does until it returns. */
    method PublishAndWake(t: Tid, op: Op, seqNo: nat, env: seq<Slice>, ghost past: seq<State>, ghost moment: nat)
        returns (done: bool, rest: seq<Slice>)
      requires Since(past) && At(t, Write(op, seqNo)) && FoundRoom(moment, seqNo)
      modifies this, slots, clock
      ensures Since(past) && |rest| <= |env| && FoundRoom(moment, seqNo) && InRing(t, op.v, seqNo)
      ensures if done then At(t, Idle) else HeldUp(t, rest)
      ensures env == [] ==> rest == [] && CountersSame(old(Abs())) && (done || old(slotLock) != None)
      ensures clock.used + rest == old(clock.used) + env
    {
      hide Since, Valid, Grows, InRing, Recorded;
      done := true;
      Pin(past);
      ghost var claimed := run;
      rest := PublishValue(t, op, seqNo, env, claimed);
      Pin(claimed);
      ghost var published := run;
      PublishedNow();
      if park {
        done, rest := WakeConsumer(t, rest, published);
      }
      PublishedIsInRing(published, t, op, seqNo);
      SinceThen(claimed, published);
      RoomStays(claimed, moment, seqNo);
      SinceThen(past, claimed);
    }

    lemma PublishedNow()
      requires Valid()
      ensures run[|run| - 1] == Abs()
    {
    }

    /** The call is over but for a wake that waits for the lock of the handle slot, and the schedule has ended. */
    ghost predicate HeldUp(t: Tid, rest: seq<Slice>)
      reads this
    {
      park && At(t, WakeTake) && slotLock != None && rest == []
    }

    /** One pass of `try_send` over a payload that the call already owns. */
    method Offer(t: Tid, start: Op, env: seq<Slice>, ghost past: seq<State>)
        returns (r: SendResult, done: bool, op: Op, seqNo: nat, rest: seq<Slice>, ghost moment: nat)
      requires Since(past) && At(t, CheckRx(start))
      modifies this, slots, clock
      ensures Since(past) && |past| <= moment + 1 && SameCallAs(start, op)
      ensures |rest| <= |env| && (env != [] ==> |rest| < |env|)
      ensures r == Sent ==> FoundRoom(moment, seqNo) && InRing(t, op.v, seqNo) && if done then At(t, Idle) else HeldUp(t, rest)
      ensures r == Full ==> FoundFull(moment) && LeftFull(t, op) && done
      ensures r == Disconnected ==> FoundGone(moment) && Returned(t, op.v) && done
      ensures old(rxDropped) ==> r == Disconnected
      ensures env == [] ==> rest == [] && match r
        case Disconnected => old(rxDropped) && RingSame(t, old(Abs()))
        case Full => !old(rxDropped) && old(claim) >= Saturate(old(head) + cap) && RingSame(t, old(Abs()))
        case Sent => !old(rxDropped) && old(claim) < Saturate(old(head) + cap) && (done || old(slotLock) != None)
                     && seqNo == old(claim) && CountersSame(Won(old(Abs()), op, t))
      ensures clock.used + rest == old(clock.used) + env
    {
      hide Since, Valid, Grows, InRing, FoundRoom, FoundFull, LeftFull, HeldUp, SameCounters, OnlyLooked, Won;
      var quirk;
      ghost var s0 := Abs();
      op, seqNo, done := start, 0, true;
      rest, quirk := Yield(t, env, past);
      PublishedNow();
      moment := |run| - 1;
      var gone := LoadRxDropped(t, op, past);
      if gone {
        return Disconnected, done, op, seqNo, rest, moment;
      }
      var full;
      ghost var s1 := Abs();
      if env == [] { LookFields(t, s0, s1); CounterFields(s0, s1); }
      full, op, seqNo, rest, moment := ClaimSequence(t, op, rest, past);
      ghost var s2 := Abs();
      LookLaws(t, op, s0, s1, s2);
      if full {
        return Full, done, op, seqNo, rest, moment;
      }
      done, rest := PublishAndWake(t, op, seqNo, rest, past, moment);
      LookLaws(t, op, s0, s2, Abs());
      r := Sent;
    }

    /** A call of thread `t` on payload `v` that began in state `s` has run with nobody else: its result follows from
        the flag and the counters as they were, and it has changed what it says and no more. */
    ghost predicate SentAlone(s: State, t: Tid, v: Ticket, r: Option<SendResult>, seqNo: nat)
      reads this
    {
      && |hist.fate| == |s.hist.fate| + 1 && hist.delivered == s.hist.delivered && rx == s.rx.(token := rx.token)
      && head == s.ring.head && senders == s.ends.senders && rxDropped == s.ends.rxDropped
      && if s.ends.rxDropped then r == Some(Disconnected) && claim == s.ring.claim && hist.log == s.hist.log
         else if s.ring.claim >= Saturate(s.ring.head + cap) then
           (r == Some(Full) || r == None) && claim == s.ring.claim && hist.log == s.hist.log
         else
           && (r == Some(Sent) || (r == None && s.wait.slotLock != None))
           && seqNo == s.ring.claim && claim == seqNo + 1 && hist.log == s.hist.log + [Claim(v, t)]
    }

    /** `Sender::try_send`. The outcome was decided at one state of the history, within the call:
        `Sent` on a sequence within the lap of the head, `Full` on claims a full lap ahead, `Disconnected`
        on a dropped receiver; an error returns the payload, which has claimed nothing. The call waits for
        nothing but, after its publish, the lock of the handle slot; `None` says that the schedule ended there. */
    method TrySend(t: Tid, h: Hid, env: seq<Slice>)
        returns (r: Option<SendResult>, seqNo: nat, rest: seq<Slice>, ghost v: Ticket, ghost moment: nat)
      requires Valid() && At(t, Idle) && HandleFree(Abs(), h)
      modifies this, slots, clock
      ensures Since(old(run)) && |old(run)| <= moment && v == |old(hist.fate)|
      ensures r == None ==> HeldUp(t, rest) && FoundRoom(moment, seqNo) && InRing(t, v, seqNo)
      ensures r == Some(Sent) ==> At(t, Idle) && FoundRoom(moment, seqNo) && InRing(t, v, seqNo) && ReceiverCovered()
      ensures r == Some(Full) ==> FoundFull(moment) && Returned(t, v)
      ensures r == Some(Disconnected) ==> FoundGone(moment) && Returned(t, v)
      ensures old(rxDropped) ==> r == Some(Disconnected)
      ensures env == [] ==> SentAlone(old(Abs()), t, v, r, seqNo)
      ensures env == [] && r == None ==> old(claim) < Saturate(old(head) + cap)
      ensures clock.used + rest == old(clock.used) + env
    {
      hide Since, Valid, Grows, InRing, FoundRoom, FoundFull, FoundGone, HeldUp, HandleFree, Returned, ReceiverCovered;
      SinceNow();
      ghost var before := run;
      var op := BeginSend(t, h, false, before);
      Pin(before);
      ghost var begun := run;
      v := op.v;
      var result, done;
      result, done, op, seqNo, rest, moment := Offer(t, op, env, begun);
      SinceThen(before, begun);
      Covered();
      r := if done then Some(result) else None;
    }

    /** The schedule has ended and the call, which holds no sequence, cannot go on: the ring is full now, or the list is
        locked by a receiver that is unparking, or the thread sleeps. */
    ghost predicate Stopped(t: Tid, v: Ticket)
      reads this, slots
    {
      t in prods && InOp(prods[t].pc) && !InFlight(prods[t].pc) && prods[t].pc.op.v == v
      && match prods[t].pc
         case CheckRx(_) => !park && Looks(full := true)
         case PushList(_) => park && rx.pc.UnparkAll?
         case Park(_) => park && !prods[t].token && SleeperCovered(t)
         case _ => false
    }

    /** The receiver is there, and the ring has no room, or has some. */
    ghost predicate Looks(full: bool)
      reads this
    {
      !rxDropped && (full <==> claim >= Saturate(head + cap))
    }

    /** If there is room after all, or nobody to wait for, the sleeper is about to be unparked, unless the latest head
        was stored by a drain that unwound. */
    ghost predicate SleeperCovered(t: Tid)
      reads this, slots
    {
      claim < Saturate(head + cap) || rxDropped ==> (WillBeUnparked(Abs(), t) <==> !rx.skipped)
    }

    lemma SleeperIsCovered(t: Tid)
      requires Valid() && t in prods && prods[t].pc.Park? && !prods[t].token
      ensures park && SleeperCovered(t)
    {
      Reached();
      SleeperParks(Abs(), t);
      if claim < Saturate(head + cap) || rxDropped { ProducerWakeupIsNotLost(Abs(), t); }
    }

    /** The Park arm of `send`: register, re-check, and sleep unless there is room or the receiver is gone. */
    method WaitForRoom(t: Tid, op: Op, env: seq<Slice>, ghost past: seq<State>) returns (done: bool, next: Op, rest: seq<Slice>)
      requires Since(past) && At(t, PushList(op))
      modifies this, slots, clock
      ensures Since(past) && |rest| <= |env| && SameCallAs(op, next)
      ensures if done then At(t, CheckRx(next)) else Stopped(t, op.v) && rest == []
      ensures env == [] && !old(rxDropped) && old(claim) >= Saturate(old(head) + cap) ==>
                rest == [] && CountersSame(old(Abs())) && slotLock == old(slotLock) && (done ==> old(prods[t].token) && !prods[t].token)
      ensures clock.used + rest == old(clock.used) + env
    {
      hide Since, Valid, Grows, Stopped, SameCounters, OnlyLooked;
      ghost var s := Abs();
      next := op;
      done, rest := Register(t, op, env, past);
      if env == [] { LookFields(t, s, Abs()); CounterFields(s, Abs()); }
      if done {
        var gone, room;
        ghost var s1 := Abs();
        room, gone, next, rest := RecheckRoom(t, op, rest, past);
        LookLaws(t, op, s, s1, Abs());
        if env == [] { LookFields(t, s, Abs()); }
        if !room && !gone {
          ghost var s2 := Abs();
          done, next, rest := Sleep(t, op, rest, past);
          LookLaws(t, op, s, s2, Abs());
        }
      }
    }

    /** The re-check after the registration: the claim counter, the head, and the receiver's flag. */
    method RecheckRoom(t: Tid, op: Op, env: seq<Slice>, ghost past: seq<State>) returns (room: bool, gone: bool, next: Op, rest: seq<Slice>)
      requires Since(past) && At(t, ReloadClaim(op))
      modifies this, slots, clock
      ensures Since(past) && |rest| <= |env| && SameCallAs(op, next)
      ensures At(t, if room || gone then CheckRx(next) else Park(op))
      ensures env == [] ==> rest == [] && RingSame(t, old(Abs())) && room == HasRoom(old(Abs())) && (!room ==> gone == old(rxDropped))
      ensures clock.used + rest == old(clock.used) + env
    {
      hide Since, Valid, Grows, SameCounters, OnlyLooked, Saturate;
      ghost var s := Abs();
      gone := false;
      room, next, rest := RecheckCounters(t, op, env, past);
      if env == [] { LookFields(t, s, Abs()); CounterFields(s, Abs()); }
      if !room {
        var quirk;
        rest, quirk := Yield(t, rest, past);
        ghost var s2 := Abs();
        gone := RecheckRxDropped(t, op, past);
        LookLaws(t, op, s, s2, Abs());
        next := op.(start := head, fails := 0);
      }
    }

    method RecheckCounters(t: Tid, op: Op, env: seq<Slice>, ghost past: seq<State>) returns (room: bool, next: Op, rest: seq<Slice>)
      requires Since(past) && At(t, ReloadClaim(op))
      modifies this, slots, clock
      ensures Since(past) && |rest| <= |env| && SameCallAs(op, next)
      ensures At(t, if room then CheckRx(next) else ReloadRx(op))
      ensures env == [] ==> rest == [] && RingSame(t, old(Abs())) && room == HasRoom(old(Abs()))
      ensures clock.used + rest == old(clock.used) + env
    {
      hide Since, Valid, Grows, SameCounters, OnlyLooked, Saturate;
      var quirk;
      ghost var s := Abs();
      rest, quirk := Yield(t, env, past);
      var seen := RecheckClaim(t, op, past);
      ghost var s1 := Abs();
      if env == [] { LookFields(t, s, s1); CounterFields(s, s1); }
      rest, quirk := Yield(t, rest, past);
      room := RecheckHead(t, op, seen, past);
      LookLaws(t, op, s, s1, Abs());
      next := op.(start := head, fails := 0);
    }

    /** `WaiterList::prepare_wait` */
    method Register(t: Tid, op: Op, env: seq<Slice>, ghost past: seq<State>) returns (done: bool, rest: seq<Slice>)
      requires Since(past) && At(t, PushList(op))
      modifies this, slots, clock
      ensures Since(past) && |rest| <= |env|
      ensures if done then At(t, ReloadClaim(op)) else Stopped(t, op.v) && rest == []
      ensures env == [] ==> rest == [] && RingSame(t, old(Abs()))
      ensures clock.used + rest == old(clock.used) + env
    {
      hide Since, Valid, Grows, SameCounters, OnlyLooked;
      var quirk;
      ghost var s := Abs();
      LookedNow(t, s);
      rest, quirk := Yield(t, env, past);
      while rx.pc.UnparkAll? && rest != []
        invariant clock.used + rest == old(clock.used) + env
        invariant Since(past) && At(t, PushList(op)) && |rest| <= |env|
        invariant env == [] ==> rest == [] && RingSame(t, old(Abs()))
        decreases |rest|
      {
        rest, quirk := Yield(t, rest, past);
      }
      done := !rx.pc.UnparkAll?;
      if done {
        ghost var s1 := Abs();
        PushSelf(t, op, past);
        ghost var s2 := Abs();
        LookLaws(t, op, s, s1, s2);
        rest, quirk := Yield(t, rest, past);
        StoreWaiting(t, op, past);
        LookLaws(t, op, s, s2, Abs());
      } else {
        PushesInPark(t);
      }
    }

    lemma LookedNow(t: Tid, s: State)
      requires s == Abs() && t in prods
      ensures RingSame(t, s)
    {
    }

    lemma PushesInPark(t: Tid)
      requires Valid() && t in prods && prods[t].pc.PushList?
      ensures park
    {
      Reached();
      PushParks(Abs(), t);
    }

    /** `thread::park`: until the token is there, or a spurious return. */
    method Sleep(t: Tid, op: Op, env: seq<Slice>, ghost past: seq<State>) returns (done: bool, next: Op, rest: seq<Slice>)
      requires Since(past) && At(t, Park(op))
      modifies this, slots, clock
      ensures Since(past) && |rest| <= |env| && SameCallAs(op, next)
      ensures if done then At(t, CheckRx(next)) else Stopped(t, op.v) && rest == []
      ensures env == [] ==> rest == [] && CountersSame(old(Abs())) && slotLock == old(slotLock) && (done ==> old(prods[t].token) && !prods[t].token)
      ensures clock.used + rest == old(clock.used) + env
    {
      hide Since, Valid, Grows;
      var quirk;
      next := op;
      rest, quirk := Yield(t, env, past);
      while !prods[t].token && !quirk && rest != []
        invariant clock.used + rest == old(clock.used) + env
        invariant Since(past) && At(t, Park(op)) && |rest| <= |env|
        invariant env == [] ==> rest == [] && !quirk && RingSame(t, old(Abs()))
        decreases |rest|
      {
        rest, quirk := Yield(t, rest, past);
      }
      done := prods[t].token || quirk;
      if done {
        ParkThread(t, op, quirk, past);
        next := op.(start := head, fails := 0);
      } else {
        SleeperIsCovered(t);
      }
    }

    lemma FullStays(middle: seq<State>, moment: nat)
      requires Since(middle) && moment < |middle| && middle[moment].ring.claim == Limit(middle[moment].ring.head, cap)
      ensures FoundFull(moment)
    {
    }

    lemma FullThere(moment: nat)
      ensures FoundFull(moment) ==> moment < |run| && run[moment].ring.claim == Limit(run[moment].ring.head, cap)
    {
    }

    lemma HeldUpAtEnd(t: Tid, rest: seq<Slice>)
      ensures HeldUp(t, rest) ==> rest == []
    {
    }

    /** One round of the loop in `send`: an attempt, and the Park arm if the ring is full. It comes back to try again
        only if others have run or it has been unparked. */
    method OfferOrWait(t: Tid, start: Op, env: seq<Slice>, ghost past: seq<State>)
        returns (result: SendResult, done: bool, op: Op, seqNo: nat, rest: seq<Slice>, ghost moment: nat)
      requires Since(past) && At(t, CheckRx(start)) && start.blocking
      modifies this, slots, clock
      ensures Since(past) && |past| <= moment + 1 && SameCallAs(start, op) && |rest| <= |env|
      ensures result == Sent ==> FoundRoom(moment, seqNo) && InRing(t, op.v, seqNo) && if done then At(t, Idle) else HeldUp(t, rest) && rest == []
      ensures result == Disconnected ==> FoundGone(moment) && Returned(t, op.v) && done
      ensures result == Full ==> FoundFull(moment) && if done then At(t, CheckRx(op)) else Stopped(t, op.v) && rest == []
      ensures result == Full && done ==> |rest| < |env| || (env == [] && old(prods[t].token) && !prods[t].token)
      ensures old(rxDropped) ==> result == Disconnected
      ensures env == [] ==> rest == [] && OfferedAlone(old(Abs()), Abs(), t, op, result, seqNo, done)
      ensures env == [] && result == Full ==> Looks(true)
      ensures clock.used + rest == old(clock.used) + env
    {
      hide Since, Valid, Grows, InRing, FoundRoom, FoundFull, FoundGone, Returned, HeldUp, SleeperCovered;
      result, done, op, seqNo, rest, moment := Offer(t, start, env, past);
      HeldUpAtEnd(t, rest);
      if result == Full {
        if park {
          Pin(past);
          ghost var offered := run;
          FullThere(moment);
          done, op, rest := WaitForRoom(t, op, rest, offered);
          FullStays(offered, moment);
          SinceThen(past, offered);
        } else {
          op := op.(start := head, fails := 0);
          done := env != [];
        }
      }
    }

    /** `Sender::send`. It never returns `Full`. `None` says that the schedule has ended and the call cannot go on: it
        waits for room, holding no sequence, after a last attempt that found the ring full, or for the lock
        after its publish. */
    method Send(t: Tid, h: Hid, env: seq<Slice>)
        returns (r: Option<SendResult>, seqNo: nat, rest: seq<Slice>, ghost v: Ticket, ghost moment: nat)
      requires Valid() && At(t, Idle) && HandleFree(Abs(), h)
      modifies this, slots, clock
      ensures Since(old(run)) && v == |old(hist.fate)| && |old(run)| <= moment
      ensures r == None ==> rest == [] && ((Stopped(t, v) && FoundFull(moment)) || (HeldUp(t, rest) && FoundRoom(moment, seqNo) && InRing(t, v, seqNo)))
      ensures r == Some(Sent) ==> At(t, Idle) && FoundRoom(moment, seqNo) && InRing(t, v, seqNo) && ReceiverCovered()
      ensures r == Some(Disconnected) ==> FoundGone(moment) && Returned(t, v)
      ensures r != Some(Full)
      ensures old(rxDropped) ==> r == Some(Disconnected)
      ensures env == [] ==> SentAlone(old(Abs()), t, v, r, seqNo)
      ensures clock.used + rest == old(clock.used) + env
    {
      hide Since, Valid, Grows, InRing, FoundRoom, FoundFull, FoundGone, HandleFree, Returned, HeldUp, Stopped, ReceiverCovered;
      SinceNow();
      ghost var before := run;
      var op := BeginSend(t, h, true, before);
      Pin(before);
      ghost var begun, start := run, Abs();
      v := op.v;
      var result, done := Full, true;
      rest, seqNo, moment := env, 0, |run|;
      while result == Full && done
        invariant clock.used + rest == old(clock.used) + env
        invariant Since(begun) && |begun| <= moment + 1 && op.blocking && op.v == v
        invariant old(rxDropped) ==> result == Disconnected || (result == Full && done && rxDropped)
        invariant result == Full ==> if done then At(t, CheckRx(op)) else Stopped(t, v) && FoundFull(moment) && rest == []
        invariant result == Sent ==> FoundRoom(moment, seqNo) && InRing(t, v, seqNo) && if done then At(t, Idle) else HeldUp(t, rest) && rest == []
        invariant result == Disconnected ==> FoundGone(moment) && Returned(t, v) && done
        invariant env == [] ==> rest == [] && OfferedAlone(start, Abs(), t, op, result, seqNo, done)
        decreases result == Full && done, |rest|, t in prods && prods[t].token
      {
        ghost var s1 := Abs();
        result, done, op, seqNo, rest, moment := OfferOrWait(t, op, rest, begun);
        if env == [] { OfferedTwice(start, s1, Abs(), t, op, result, seqNo, done); }
      }
      SinceThen(before, begun);
      Covered();
      r := if done then Some(result) else None;
    }

    // ---------- the receiver's accesses ----------

    /** The other threads run, as the receiver sees it: its head and its token are still there. */
    method YieldRx(env: seq<Slice>, ghost past: seq<State>) returns (rest: seq<Slice>, quirk: bool)
      requires Since(past)
      modifies this, slots, clock
      ensures Since(past) && rx == old(rx).(token := rx.token) && (old(rx.token) ==> rx.token)
      ensures head == old(head) && hist.delivered == old(hist.delivered)
      ensures env == [] ==> rest == [] && !quirk && Abs() == old(Abs()) && run == old(run)
      ensures env != [] ==> |rest| < |env|
      ensures (old(senders) == 0 ==> senders == 0) && (old(SlotPublished(rx.head)) ==> SlotPublished(rx.head))
      ensures old(run) <= run
      ensures clock.used + rest == old(clock.used) + env
    {
      hide Since, Valid;
      assert SlotPublished(rx.head) <==> Shown(Abs());
      rest, quirk := Pause(Receiving, env, past);
      assert SlotPublished(rx.head) <==> Shown(Abs());
    }

    /** The slot of `seqNo` holds the round of `seqNo`. */
    ghost predicate SlotPublished(seqNo: nat)
      reads this, slots
    {
      0 < cap == slots.Length && Published(Abs(), seqNo)
    }

    /** After `Disconnected` there is no sender, and nothing is ever published again. */
    lemma ClosedForGood()
      requires Valid() && rx.closed
      ensures senders == 0 && !SlotPublished(rx.head)
    {
      Reached();
      ClosedIsFinal(Abs());
    }

    /** At this point of the history there was a sender. */
    ghost predicate FoundOpen(moment: nat)
      reads this`run
    {
      moment < |run| && run[moment].ends.senders > 0
    }

    /** Receiver::slot_published on the private head, wherever it is called. */
    method LoadRound(ghost past: seq<State>) returns (p: bool)
      requires Since(past) && Probing(rx.pc)
      modifies this
      ensures Since(past) && run == old(run) + [Abs()]
      ensures p == SlotPublished(rx.head) && rx == old(rx).(pc := AfterProbe(old(rx.pc), p), closed := rx.closed)
      ensures rx.closed == (old(rx.closed) || (old(rx.pc).ProbeAgain? && !p))
      ensures head == old(head) && hist == old(hist) && claim == old(claim)
      ensures RxLooked(old(Abs()))
    {
      hide Grows, Reachable, Enabled, Apply, Logged, Tag, SlotOf, And, Shr, AsI64;
      Reached();
      ProbeMove(Abs());
      IndexOf(rx.head);
      p := slots[And(rx.head, mask)].round == AsI64(Shr(rx.head, shift));
      rx := rx.(pc := AfterProbe(rx.pc, p), closed := rx.closed || (rx.pc.ProbeAgain? && !p));
      Record(StepCons(false), past);
    }

    method LoadSenders(ghost past: seq<State>) returns (none: bool)
      requires Since(past) && (rx.pc.ProbeSenders? || rx.pc.RecheckSenders?)
      modifies this
      ensures Since(past) && run == old(run) + [Abs()]
      ensures none == (old(senders) == 0) && rx == old(rx).(pc := AfterSenders(old(rx.pc), none, park))
      ensures head == old(head) && hist == old(hist)
      ensures RxLooked(old(Abs()))
    {
      hide Grows, Reachable, Enabled, Apply, Logged;
      Reached();
      SendersMove(Abs());
      none := senders == 0;
      rx := rx.(pc := AfterSenders(rx.pc, none, park));
      Record(StepCons(false), past);
    }

    /** Move the payload out of slot `head & mask` and advance the private head. */
    method TakeValue(ghost past: seq<State>) returns (v: Ticket)
      requires Since(past) && (rx.pc.Take? || rx.pc.DrainTake?)
      modifies this, slots
      ensures Since(past) && run == old(run) + [Abs()]
      ensures rx == old(rx).(pc := AfterTake(old(rx.pc)), head := old(rx.head) + 1) && head == old(head)
      ensures hist.delivered == old(hist.delivered) + [v]
    {
      hide Grows, Reachable, Enabled, Apply, Logged, Tag, SlotOf, And;
      Reached();
      TakeMove(Abs());
      IndexOf(rx.head);
      var i := And(rx.head, mask);
      v := slots[i].cell.value;
      slots[i] := slots[i].(cell := None);
      hist := hist.(delivered := hist.delivered + [v], fault := hist.fault || rx.head + 1 > USIZE_MAX);
      rx := rx.(pc := AfterTake(rx.pc), head := rx.head + 1);
      Record(StepCons(false), past);
    }

    /** Store the private head as the shared one: in `try_recv`, and in PublishGuard::drop if a drain has
        moved anything. `wake_producers` follows, but not when the guard is dropped by an unwinding drain. */
    method StoreSharedHead(ghost past: seq<State>)
      requires Since(past) && (rx.pc.StoreHead? || rx.pc.DrainStore?)
      modifies this
      ensures Since(past) && run == old(run) + [Abs()]
      ensures hist == old(hist) && old(head) <= head
      ensures var moved := !(old(rx.pc).DrainStore? && old(rx.pc).count == 0);
        var woken := moved && !(old(rx.pc).DrainStore? && old(rx.pc).unwinding);
        && head == rx.head == old(rx.head) && rx.tid == old(rx.tid) && rx.closed == old(rx.closed)
        && rx.pc == (if woken && park then SwapWaiting(false) else Resting)
        && rx.skipped == (if woken && park then false else if moved && !woken then true else old(rx.skipped))
    {
      hide Grows, Reachable, Enabled, Apply, Logged;
      Reached();
      StoreMove(Abs());
      var moved := !(rx.pc.DrainStore? && rx.pc.count == 0);
      var woken := moved && !(rx.pc.DrainStore? && rx.pc.unwinding);
      if moved { head := rx.head; }
      if woken && park {
        rx := rx.(pc := SwapWaiting(false), skipped := false);
      } else if moved && !woken {
        rx := rx.(pc := Resting, skipped := true);
      } else {
        rx := rx.(pc := Resting);
      }
      Record(StepCons(false), past);
    }

    /** The callback of `drain` returns, or unwinds. */
    method ReturnFromCallback(unwinds: bool, ghost past: seq<State>)
      requires Since(past) && rx.pc.Callback?
      modifies this
      ensures Since(past) && run == old(run) + [Abs()]
      ensures head == old(head) && hist == old(hist)
      ensures rx == old(rx).(pc := AfterCallback(old(rx.pc), unwinds))
    {
      hide Grows, Reachable, Enabled, Apply, Logged;
      Reached();
      CallbackMove(Abs(), unwinds);
      rx := rx.(pc := AfterCallback(rx.pc, unwinds));
      Record(StepCons(unwinds), past);
    }

    // Parker::prepare_park, cancel and park

    method RegisterHandle(ghost past: seq<State>)
      requires Since(past) && rx.pc.PrepSlot? && slotLock == None
      modifies this
      ensures Since(past) && run == old(run) + [Abs()]
      ensures head == old(head) && hist == old(hist) && rx == old(rx).(pc := PrepFlag)
      ensures RxLooked(old(Abs()))
    {
      hide Grows, Reachable, Enabled, Apply, Logged;
      Reached();
      RxParkMove(Abs(), false);
      registered := Some(rx.tid);
      rx := rx.(pc := PrepFlag);
      Record(StepCons(false), past);
    }

    method RaiseParked(ghost past: seq<State>)
      requires Since(past) && rx.pc.PrepFlag?
      modifies this
      ensures Since(past) && run == old(run) + [Abs()]
      ensures head == old(head) && hist == old(hist) && rx == old(rx).(pc := RecheckRound)
      ensures RxLooked(old(Abs()))
    {
      hide Grows, Reachable, Enabled, Apply, Logged;
      Reached();
      RxParkMove(Abs(), false);
      parked := true;
      rx := rx.(pc := RecheckRound);
      Record(StepCons(false), past);
    }

    method LowerParked(ghost past: seq<State>)
      requires Since(past) && (rx.pc.Cancel? || rx.pc.ClearFlag?)
      modifies this
      ensures Since(past) && run == old(run) + [Abs()]
      ensures head == old(head) && hist == old(hist) && rx == old(rx).(pc := Probe(true))
      ensures RxLooked(old(Abs()))
    {
      hide Grows, Reachable, Enabled, Apply, Logged;
      Reached();
      RxParkMove(Abs(), false);
      parked := false;
      rx := rx.(pc := Probe(true));
      Record(StepCons(false), past);
    }

    method ParkReceiver(spurious: bool, ghost past: seq<State>)
      requires Since(past) && rx.pc.Parked? && (rx.token || spurious)
      modifies this
      ensures Since(past) && run == old(run) + [Abs()]
      ensures head == old(head) && hist == old(hist) && rx == old(rx).(pc := ClearFlag, token := false)
      ensures RxLooked(old(Abs()))
    {
      hide Grows, Reachable, Enabled, Apply, Logged;
      Reached();
      RxParkMove(Abs(), spurious);
      rx := rx.(pc := ClearFlag, token := false);
      Record(StepCons(spurious), past);
    }

    // WaiterList::wake_all

    method TakeWaiting(last: bool, ghost past: seq<State>) returns (b: bool)
      requires Since(past) && rx.pc == SwapWaiting(last)
      modifies this
      ensures Since(past) && run == old(run) + [Abs()]
      ensures head == old(head) && hist == old(hist) && b == old(waiting)
      ensures rx == old(rx).(pc := if b then LockList(last) else AfterWake(last))
    {
      hide Grows, Reachable, Enabled, Apply, Logged;
      Reached();
      WakeAllMove(Abs());
      b := waiting;
      waiting := false;
      rx := rx.(pc := if b then LockList(last) else AfterWake(last));
      Record(StepCons(false), past);
    }

    method TakeList(last: bool, ghost past: seq<State>) returns (all: seq<Tid>)
      requires Since(past) && rx.pc == LockList(last)
      modifies this
      ensures Since(past) && run == old(run) + [Abs()]
      ensures head == old(head) && hist == old(hist) && all == old(list) && list == []
      ensures rx == old(rx).(pc := UnparkAll(all, last))
    {
      hide Grows, Reachable, Enabled, Apply, Logged;
      Reached();
      WakeAllMove(Abs());
      all := list;
      list := [];
      rx := rx.(pc := UnparkAll(all, last));
      Record(StepCons(false), past);
    }

    /** Unpark the next thread of the list, or release the lock after the last one. */
    method UnparkNext(all: seq<Tid>, last: bool, ghost past: seq<State>)
      requires Since(past) && rx.pc == UnparkAll(all, last)
      modifies this
      ensures Since(past) && run == old(run) + [Abs()]
      ensures head == old(head) && hist == old(hist)
      ensures rx == old(rx).(pc := if all == [] then AfterWake(last) else UnparkAll(all[1..], last))
      ensures all != [] && all[0] in prods ==> prods[all[0]].token
    {
      hide Grows, Reachable, Enabled, Apply, Logged;
      Reached();
      WakeAllMove(Abs());
      if all == [] {
        rx := rx.(pc := AfterWake(last));
      } else {
        if all[0] in prods { prods := prods[all[0] := prods[all[0]].(token := true)]; }
        rx := rx.(pc := UnparkAll(all[1..], last));
      }
      Record(StepCons(false), past);
    }

    method StoreRxDropped(ghost past: seq<State>)
      requires Since(past) && rx.pc.SetRxDropped?
      modifies this
      ensures Since(past) && run == old(run) + [Abs()]
      ensures head == old(head) && hist == old(hist) && rxDropped
      ensures rx == old(rx).(pc := SwapWaiting(true), skipped := false)
    {
      hide Grows, Reachable, Enabled, Apply, Logged;
      Reached();
      DropRxMove(Abs());
      rxDropped := true;
      rx := rx.(pc := SwapWaiting(true), skipped := false);
      Record(StepCons(false), past);
    }

    // ---------- Receiver ----------

    /** At this point of the history the receiver's queue was empty, or its oldest claim still in a
        producer's hands. */
    ghost predicate FoundEmpty(moment: nat)
      reads this`run
    {
      moment < |run| && NothingReady(run[moment])
    }

    lemma EmptyMoment()
      requires Valid()
      ensures SlotPublished(rx.head) || NothingReady(Abs())
      ensures run[|run| - 1] == Abs()
    {
      Reached();
      EmptyIsExact(Abs());
    }

    lemma EmptyStays(middle: seq<State>, moment: nat)
      requires Since(middle) && moment < |middle| && NothingReady(middle[moment])
      ensures FoundEmpty(moment) && moment < |run| && run[moment] == middle[moment]
    {
    }

    lemma OpenStays(middle: seq<State>, moment: nat)
      requires Since(middle) && moment < |middle|
      ensures FoundOpen(moment) <==> middle[moment].ends.senders > 0
    {
    }

    /** What has been delivered is the log up to the private head. */
    lemma InOrder()
      requires Valid()
      ensures |hist.delivered| == rx.head <= |hist.log|
      ensures forall i :: 0 <= i < rx.head ==> hist.delivered[i] == hist.log[i].ticket
    {
      Reached();
      DeliveredIsPrefixOfLog(Abs());
    }

    method StartRx(m: Move, pc: ConsPC, ghost past: seq<State>)
      requires Since(past) && rx.pc == Resting
      requires (m.StartRecv? && pc == Probe(m.blocking)) || (m.StartDropRx? && pc == SetRxDropped)
        || (m.StartDrain? && pc == if m.max > 0 then DrainLoad(0, m.max) else Resting)
      modifies this
      ensures Since(past) && run == old(run) + [Abs()]
      ensures rx == old(rx).(pc := pc) && head == old(head) && hist == old(hist)
      ensures RxLooked(old(Abs()))
    {
      hide Grows, Reachable, Enabled, Apply, Logged;
      Reached();
      StartRxMove(Abs(), m);
      rx := rx.(pc := pc);
      Record(m, past);
    }

    /** `wake_producers`, and `wake_all` in the receiver's drop: unpark everybody in the list. */
    method WakeProducers(last: bool, env: seq<Slice>, ghost past: seq<State>) returns (rest: seq<Slice>)
      requires Since(past) && rx.pc == SwapWaiting(last)
      modifies this, slots, clock
      ensures Since(past) && |rest| <= |env|
      ensures rx == old(rx).(pc := AfterWake(last), token := rx.token) && head == old(head) && hist.delivered == old(hist.delivered)
      ensures ProducersWoken()
      ensures clock.used + rest == old(clock.used) + env
    {
      hide Since, Valid, Grows, ProducersWoken;
      NotSkipped();
      rest := WakeListed(last, env, past);
      AllWoken();
    }

    /** `WaiterList::wake_all` */
    method WakeListed(last: bool, env: seq<Slice>, ghost past: seq<State>) returns (rest: seq<Slice>)
      requires Since(past) && rx.pc == SwapWaiting(last)
      modifies this, slots, clock
      ensures Since(past) && |rest| <= |env|
      ensures rx == old(rx).(pc := AfterWake(last), token := rx.token) && head == old(head) && hist.delivered == old(hist.delivered)
      ensures clock.used + rest == old(clock.used) + env
    {
      hide Since, Valid, Grows;
      var quirk;
      rest, quirk := YieldRx(env, past);
      var some := TakeWaiting(last, past);
      if some {
        rest, quirk := YieldRx(rest, past);
        var all := TakeList(last, past);
        rest := UnparkEach(all, last, rest, past);
      }
    }

    /** Unpark every thread of the list that was taken, in order. */
    method UnparkEach(list: seq<Tid>, last: bool, env: seq<Slice>, ghost past: seq<State>) returns (rest: seq<Slice>)
      requires Since(past) && rx.pc == UnparkAll(list, last)
      modifies this, slots, clock
      ensures Since(past) && |rest| <= |env|
      ensures rx == old(rx).(pc := AfterWake(last), token := rx.token) && head == old(head) && hist.delivered == old(hist.delivered)
      ensures clock.used + rest == old(clock.used) + env
    {
      hide Since, Valid, Grows;
      var all, quirk := list, false;
      rest := env;
      while all != []
        invariant clock.used + rest == old(clock.used) + env
        invariant Since(past) && |rest| <= |env| && rx == old(rx).(pc := UnparkAll(all, last), token := rx.token)
        invariant head == old(head) && hist.delivered == old(hist.delivered)
        decreases |all|
      {
        rest, quirk := YieldRx(rest, past);
        UnparkNext(all, last, past);
        all := all[1..];
      }
      rest, quirk := YieldRx(rest, past);
      UnparkNext(all, last, past);
    }

    /** Every producer that sleeps although it could proceed has its token. */
    ghost predicate ProducersWoken()
      reads this
    {
      forall t :: t in prods && prods[t].pc.Park? && (claim < Saturate(head + cap) || rxDropped) ==> prods[t].token
    }

    lemma NotSkipped()
      requires Valid() && (WakingAll(rx.pc) || rxDropped)
      ensures !rx.skipped
    {
      Reached();
      WakingMeansNotSkipped(Abs());
    }

    lemma AllWoken()
      requires Valid() && !WakingAll(rx.pc) && (rx.skipped ==> !park)
      ensures ProducersWoken()
    {
      Reached();
      NobodyLeftAsleep(Abs());
    }

    /** The payload at the head is published: take it, store the head, wake the producers. */
    method Receive(env: seq<Slice>, ghost past: seq<State>) returns (v: Ticket, rest: seq<Slice>)
      requires Since(past) && rx.pc.Take?
      modifies this, slots, clock
      ensures Since(past) && |rest| <= |env| && rx.pc == Resting
      ensures rx.head == head == old(rx.head) + 1 && hist.delivered == old(hist.delivered) + [v]
      ensures rx.closed == old(rx.closed)
      ensures ProducersWoken()
      ensures clock.used + rest == old(clock.used) + env
    {
      hide Since, Valid, Grows, ProducersWoken;
      var quirk;
      rest, quirk := YieldRx(env, past);
      v := TakeValue(past);
      rest, quirk := YieldRx(rest, past);
      StoreSharedHead(past);
      if park {
        rest := WakeProducers(false, rest, past);
      } else {
        AllWoken();
      }
    }

    /** The slot was not published: `senders`, and the slot once more if nobody is left. */
    method ProbeSendersAndAgain(env: seq<Slice>, ghost past: seq<State>) returns (r: RecvResult, rest: seq<Slice>)
      requires Since(past) && rx.pc.ProbeSenders?
      modifies this, slots, clock
      ensures Since(past) && |rest| <= |env| && rx.head == old(rx.head) && head == old(head) && hist.delivered == old(hist.delivered)
      ensures match r
        case Received(_) => rx.pc == Take
        case Empty => rx.pc == AfterSenders(old(rx.pc), false, park)
        case Closed => rx.pc == Resting && rx.closed
      ensures rx.closed == (old(rx.closed) || r.Closed?) && (r.Empty? ==> old(senders) > 0)
      ensures old(rx.closed) ==> r.Closed?
      ensures env == [] ==> rest == [] && RxLooked(old(Abs())) && rx.token == old(rx.token)
      ensures env == [] ==> r == if old(senders) > 0 then Empty else if old(SlotPublished(rx.head)) then Received(0) else Closed
      ensures clock.used + rest == old(clock.used) + env
    {
      hide Since, Valid, Grows;
      var quirk;
      rest, quirk := YieldRx(env, past);
      if rx.closed { ClosedForGood(); }
      var none := LoadSenders(past);
      r := Empty;
      if none {
        rest, quirk := YieldRx(rest, past);
        if rx.closed { ClosedForGood(); }
        var published := LoadRound(past);
        r := if published then Received(0) else Closed;
      }
    }

    /** The first probe, and the moment it was made. */
    method FirstProbe(env: seq<Slice>, ghost past: seq<State>) returns (published: bool, rest: seq<Slice>, ghost moment: nat)
      requires Since(past) && rx.pc.Probe?
      modifies this, slots, clock
      ensures Since(past) && |past| <= moment + 1 && |rest| <= |env| && (env != [] ==> |rest| < |env|)
      ensures rx == old(rx).(pc := AfterProbe(old(rx.pc), published), token := rx.token)
      ensures head == old(head) && hist.delivered == old(hist.delivered)
      ensures !published ==> moment + 1 < |run| && NothingReady(run[moment])
      ensures (old(SlotPublished(rx.head)) ==> published) && (old(rx.closed) ==> !published)
      ensures (old(senders) == 0 ==> senders == 0) && (!published ==> run[moment].ends.senders == senders)
      ensures env == [] ==> rest == [] && published == old(SlotPublished(rx.head)) && RxLooked(old(Abs())) && rx.token == old(rx.token)
      ensures clock.used + rest == old(clock.used) + env
    {
      hide Since, Valid, Grows, NothingReady;
      var quirk;
      rest, quirk := YieldRx(env, past);
      EmptyMoment();
      moment := |run| - 1;
      if rx.closed { ClosedForGood(); }
      published := LoadRound(past);
    }

    /** The probes of `try_recv`, and the receipt. */
    method Poll(env: seq<Slice>, ghost past: seq<State>) returns (r: RecvResult, rest: seq<Slice>, ghost moment: nat)
      requires Since(past) && rx.pc.Probe?
      modifies this, slots, clock
      ensures Since(past) && |past| <= moment + 1 && |rest| <= |env| && (env != [] ==> |rest| < |env|)
      ensures match r
        case Received(v) => rx.pc == Resting && rx.head == head == old(rx.head) + 1 && hist.delivered == old(hist.delivered) + [v]
        case Empty => rx.pc == AfterSenders(ProbeSenders(old(rx.pc.blocking)), false, park) && rx.head == old(rx.head)
          && hist.delivered == old(hist.delivered) && FoundEmpty(moment)
        case Closed => rx.pc == Resting && rx.head == old(rx.head) && hist.delivered == old(hist.delivered) && rx.closed
      ensures r.Received? ==> ProducersWoken()
      ensures rx.closed == (old(rx.closed) || r.Closed?) && (old(rx.closed) ==> r.Closed?)
      ensures r.Empty? ==> old(senders) > 0 && FoundOpen(moment)
      ensures old(SlotPublished(rx.head)) ==> r.Received?
      ensures env == [] ==> rest == [] && if old(SlotPublished(rx.head)) then r.Received? else r == (if old(senders) > 0 then Empty else Closed)
      ensures env == [] && !r.Received? ==> RxLooked(old(Abs())) && rx.token == old(rx.token)
      ensures clock.used + rest == old(clock.used) + env
    {
      hide Since, Valid, Grows, NothingReady, FoundEmpty, ProducersWoken;
      var published;
      published, rest, moment := FirstProbe(env, past);
      r := Received(0);
      if !published {
        Pin(past);
        ghost var probed := run;
        r, rest := ProbeSendersAndAgain(rest, probed);
        EmptyStays(probed, moment);
        OpenStays(probed, moment);
        SinceThen(past, probed);
      }
      if r.Received? {
        var v;
        v, rest := Receive(rest, past);
        r := Received(v);
      }
    }

    /** `Receiver::try_recv`. A payload is the oldest accepted one not yet delivered; `Empty` was true at one
        state of the call in the sense of `NothingReady`; `Disconnected` (here `Closed`) means that no sender is left
        and everything accepted has been delivered. */
    method TryRecv(env: seq<Slice>) returns (r: RecvResult, rest: seq<Slice>, ghost moment: nat)
      requires Valid() && rx.pc == Resting
      modifies this, slots, clock
      ensures Since(old(run)) && rx.pc == Resting
      ensures match r
        case Received(v) => rx.head == head == old(rx.head) + 1 && hist.delivered == old(hist.delivered) + [v]
          && old(rx.head) < |hist.log| && v == hist.log[old(rx.head)].ticket
        case Empty => rx.head == old(rx.head) && hist.delivered == old(hist.delivered) && FoundEmpty(moment) && |old(run)| <= moment
        case Closed => rx.closed && handles == map[] && hist.delivered == old(hist.delivered) && |hist.delivered| == |hist.log|
      ensures r.Received? ==> ProducersWoken()
      ensures rx.closed == (old(rx.closed) || r.Closed?) && (old(rx.closed) ==> r.Closed?)
      ensures r.Empty? ==> old(senders) > 0 && FoundOpen(moment)
      ensures old(SlotPublished(rx.head)) ==> r.Received?
      ensures env == [] ==> if old(SlotPublished(rx.head)) then r.Received? else r == (if old(senders) > 0 then Empty else Closed)
      ensures clock.used + rest == old(clock.used) + env
    {
      hide Since, Valid, Grows, FoundEmpty, Logged, ProducersWoken;
      SinceNow();
      ghost var before := run;
      InOrder();
      StartRx(StartRecv(false), Probe(false), before);
      Pin(before);
      ghost var begun := run;
      r, rest, moment := Poll(env, begun);
      SinceThen(before, begun);
      InOrder();
      if r.Closed? { AllDelivered(); }
    }

    lemma AllDelivered()
      requires Valid() && rx.closed
      ensures handles == map[] && |hist.delivered| == |hist.log|
    {
      Reached();
      DisconnectedIsLossless(Abs());
    }

    /** The schedule has ended and the receiver cannot go on: there is nothing to receive now and somebody may still
        send, or the handle slot is locked, or it sleeps. */
    ghost predicate RxStopped()
      reads this, slots
    {
      || (rx.pc == Probe(true) && !park && !SlotPublished(rx.head) && senders > 0)
      || (rx.pc.PrepSlot? && slotLock != None)
      || (rx.pc.Parked? && !rx.token && ReceiverCovered())
    }

    lemma LookedAt(s: State)
      requires RxLooked(s)
      ensures 0 < cap == slots.Length ==> (SlotPublished(rx.head) <==> Published(s, s.rx.head))
      ensures senders == s.ends.senders && slotLock == s.wait.slotLock
    {
    }

    /** The re-checks before a park: 16 loads of the round. */
    method SpinBeforePark(env: seq<Slice>, ghost past: seq<State>) returns (spun: bool, rest: seq<Slice>)
      requires Since(past) && rx.pc == Spin(PARK_SPINS)
      modifies this, slots, clock
      ensures Since(past) && |rest| <= |env|
      ensures rx == old(rx).(pc := if spun then Probe(true) else PrepSlot, token := rx.token)
      ensures head == old(head) && hist.delivered == old(hist.delivered)
      ensures !spun ==> |run| >= |old(run)| + 16
      ensures env == [] ==> rest == [] && RxLooked(old(Abs())) && rx.token == old(rx.token) && spun == old(SlotPublished(rx.head))
      ensures env == [] && !spun ==> |run| == |old(run)| + 16
      ensures clock.used + rest == old(clock.used) + env
    {
      hide Since, Valid, Grows;
      var left: nat := PARK_SPINS;
      var quirk;
      spun, rest := false, env;
      while left > 0 && !spun
        invariant clock.used + rest == old(clock.used) + env
        invariant Since(past) && |rest| <= |env| && left <= PARK_SPINS
        invariant rx == old(rx).(pc := if spun then Probe(true) else if left == 0 then PrepSlot else Spin(left), token := rx.token)
        invariant head == old(head) && hist.delivered == old(hist.delivered)
        invariant |run| >= |old(run)| + PARK_SPINS - left
        invariant env == [] ==> rest == [] && RxLooked(old(Abs())) && rx.token == old(rx.token)
        invariant env == [] ==> (spun ==> old(SlotPublished(rx.head))) && (left < PARK_SPINS && !spun ==> !old(SlotPublished(rx.head)))
        invariant env == [] && !spun ==> |run| == |old(run)| + PARK_SPINS - left
        decreases left, !spun
      {
        rest, quirk := YieldRx(rest, past);
        spun := LoadRound(past);
        if !spun { left := left - 1; }
      }
    }

    /** The Park arm of `recv`: register, re-check, and sleep unless a payload is there or no sender is left. */
    method WaitForPayload(env: seq<Slice>, ghost past: seq<State>) returns (done: bool, rest: seq<Slice>)
      requires Since(past) && rx.pc.PrepSlot?
      modifies this, slots, clock
      ensures Since(past) && |rest| <= |env|
      ensures rx.head == old(rx.head) && head == old(head) && hist.delivered == old(hist.delivered) && rx.closed == old(rx.closed)
      ensures if done then rx.pc == Probe(true) else RxStopped() && rest == []
      ensures env == [] && !old(SlotPublished(rx.head)) && old(senders) > 0 ==>
                rest == [] && RxLooked(old(Abs())) && (done ==> old(rx.token) && !rx.token)
      ensures clock.used + rest == old(clock.used) + env
    {
      hide Since, Valid, Grows;
      done, rest := RegisterReceiver(env, past);
      if done {
        var skip;
        skip, rest := Recheck(rest, past);
        if !skip {
          done, rest := SleepRx(rest, past);
        }
        if done {
          var quirk;
          rest, quirk := YieldRx(rest, past);
          LowerParked(past);
        }
      }
    }

    /** The re-check after the registration. */
    method Recheck(env: seq<Slice>, ghost past: seq<State>) returns (skip: bool, rest: seq<Slice>)
      requires Since(past) && rx.pc.RecheckRound?
      modifies this, slots, clock
      ensures Since(past) && |rest| <= |env|
      ensures rx == old(rx).(pc := if skip then Cancel else Parked, token := rx.token)
      ensures head == old(head) && hist.delivered == old(hist.delivered)
      ensures env == [] ==> rest == [] && RxLooked(old(Abs())) && rx.token == old(rx.token) && skip == (old(SlotPublished(rx.head)) || old(senders) == 0)
      ensures clock.used + rest == old(clock.used) + env
    {
      hide Since, Valid, Grows;
      var quirk;
      rest, quirk := YieldRx(env, past);
      skip := LoadRound(past);
      if !skip {
        rest, quirk := YieldRx(rest, past);
        skip := LoadSenders(past);
      }
    }

    /** `Parker::prepare_park` */
    method RegisterReceiver(env: seq<Slice>, ghost past: seq<State>) returns (done: bool, rest: seq<Slice>)
      requires Since(past) && rx.pc.PrepSlot?
      modifies this, slots, clock
      ensures Since(past) && |rest| <= |env|
      ensures rx.head == old(rx.head) && head == old(head) && hist.delivered == old(hist.delivered) && rx.closed == old(rx.closed)
      ensures if done then rx.pc == RecheckRound else RxStopped() && rest == []
      ensures env == [] ==> rest == [] && RxLooked(old(Abs())) && rx.token == old(rx.token)
      ensures clock.used + rest == old(clock.used) + env
    {
      hide Since, Valid, Grows;
      var quirk;
      rest, quirk := YieldRx(env, past);
      while slotLock != None && rest != []
        invariant clock.used + rest == old(clock.used) + env
        invariant Since(past) && |rest| <= |env| && rx == old(rx).(token := rx.token)
        invariant head == old(head) && hist.delivered == old(hist.delivered)
        invariant env == [] ==> rest == [] && RxLooked(old(Abs())) && rx.token == old(rx.token)
        decreases |rest|
      {
        rest, quirk := YieldRx(rest, past);
      }
      done := slotLock == None;
      if done {
        RegisterHandle(past);
        rest, quirk := YieldRx(rest, past);
        RaiseParked(past);
      }
    }

    method SleepRx(env: seq<Slice>, ghost past: seq<State>) returns (done: bool, rest: seq<Slice>)
      requires Since(past) && rx.pc.Parked?
      modifies this, slots, clock
      ensures Since(past) && |rest| <= |env|
      ensures rx.head == old(rx.head) && head == old(head) && hist.delivered == old(hist.delivered) && rx.closed == old(rx.closed)
      ensures if done then rx.pc == ClearFlag else RxStopped() && rest == []
      ensures env == [] ==> rest == [] && RxLooked(old(Abs())) && (done ==> old(rx.token) && !rx.token)
      ensures clock.used + rest == old(clock.used) + env
    {
      hide Since, Valid, Grows;
      var quirk;
      rest, quirk := YieldRx(env, past);
      while !rx.token && !quirk && rest != []
        invariant clock.used + rest == old(clock.used) + env
        invariant Since(past) && |rest| <= |env| && rx == old(rx).(token := rx.token)
        invariant head == old(head) && hist.delivered == old(hist.delivered)
        invariant env == [] ==> rest == [] && !quirk && RxLooked(old(Abs())) && rx.token == old(rx.token)
        decreases |rest|
      {
        rest, quirk := YieldRx(rest, past);
      }
      done := rx.token || quirk;
      if done {
        ParkReceiver(quirk, past);
      } else {
        Covered();
      }
    }

    /** One round of the loop in `recv`: an attempt, and the Park arm if nothing is there. It comes back to try again
        only if others have run or it has been unparked. */
    method PollOrWait(env: seq<Slice>, ghost past: seq<State>) returns (r: RecvResult, done: bool, rest: seq<Slice>, ghost moment: nat)
      requires Since(past) && rx.pc == Probe(true)
      modifies this, slots, clock
      ensures Since(past) && |past| <= moment + 1 && |rest| <= |env|
      ensures match r
        case Received(v) => done && rx.pc == Resting && rx.head == head == old(rx.head) + 1 && hist.delivered == old(hist.delivered) + [v]
        case Empty => rx.head == old(rx.head) && hist.delivered == old(hist.delivered) && FoundEmpty(moment) && FoundOpen(moment)
          && if done then rx.pc == Probe(true) else RxStopped() && rest == []
        case Closed => done && rx.pc == Resting && rx.head == old(rx.head) && hist.delivered == old(hist.delivered) && rx.closed
      ensures r.Empty? && done ==> |rest| < |env| || (env == [] && old(rx.token) && !rx.token)
      ensures r.Received? ==> ProducersWoken()
      ensures rx.closed == (old(rx.closed) || r.Closed?) && (old(rx.closed) ==> r.Closed?)
      ensures (r.Empty? ==> old(senders) > 0) && (old(SlotPublished(rx.head)) ==> r.Received?)
      ensures env == [] ==> rest == [] && if old(SlotPublished(rx.head)) then r.Received? else r == (if old(senders) > 0 then Empty else Closed)
      ensures env == [] && r.Empty? ==> RxLooked(old(Abs()))
      ensures clock.used + rest == old(clock.used) + env
    {
      hide Since, Valid, Grows, FoundEmpty, FoundOpen, ProducersWoken, ReceiverCovered;
      done := true;
      r, rest, moment := Poll(env, past);
      if r.Empty? {
        Pin(past);
        ghost var polled := run;
        MomentThere(moment);
        if park {
          done, rest := WaitInPark(rest, polled);
        } else {
          done := env != [];
        }
        EmptyStays(polled, moment);
        OpenStays(polled, moment);
        SinceThen(past, polled);
      }
    }

    lemma MomentThere(moment: nat)
      ensures FoundEmpty(moment) ==> moment < |run| && NothingReady(run[moment])
      ensures FoundOpen(moment) ==> moment < |run| && run[moment].ends.senders > 0
    {
    }

    /** The Park arm of `recv` with its re-checks. */
    method WaitInPark(env: seq<Slice>, ghost past: seq<State>) returns (done: bool, rest: seq<Slice>)
      requires Since(past) && rx.pc == Spin(PARK_SPINS)
      modifies this, slots, clock
      ensures Since(past) && |rest| <= |env|
      ensures rx.head == old(rx.head) && head == old(head) && hist.delivered == old(hist.delivered) && rx.closed == old(rx.closed)
      ensures if done then rx.pc == Probe(true) else RxStopped() && rest == []
      ensures env == [] && !old(SlotPublished(rx.head)) && old(senders) > 0 ==>
                rest == [] && RxLooked(old(Abs())) && (done ==> old(rx.token) && !rx.token)
      ensures clock.used + rest == old(clock.used) + env
    {
      hide Since, Valid, Grows, ReceiverCovered;
      done, rest := SpinBeforePark(env, past);
      if !done { done, rest := WaitForPayload(rest, past); }
    }

    /** `Receiver::recv`. It never returns `Empty`; `None` says that the schedule has ended and the call cannot go on,
        after a last attempt that found nothing and a sender. */
    method Recv(env: seq<Slice>) returns (r: Option<RecvResult>, rest: seq<Slice>, ghost moment: nat)
      requires Valid() && rx.pc == Resting
      modifies this, slots, clock
      ensures Since(old(run))
      ensures match r
        case None => RxStopped() && rest == [] && rx.head == old(rx.head) && hist.delivered == old(hist.delivered)
          && FoundEmpty(moment) && FoundOpen(moment) && |old(run)| <= moment
        case Some(Received(v)) => rx.pc == Resting && rx.head == head == old(rx.head) + 1 && ProducersWoken()
          && hist.delivered == old(hist.delivered) + [v] && old(rx.head) < |hist.log| && v == hist.log[old(rx.head)].ticket
        case Some(Closed) => rx.pc == Resting && rx.closed && handles == map[] && hist.delivered == old(hist.delivered)
          && |hist.delivered| == |hist.log|
        case Some(Empty) => false
      ensures rx.closed == (old(rx.closed) || r == Some(Closed)) && (old(rx.closed) ==> r == Some(Closed))
      ensures old(SlotPublished(rx.head)) ==> r.Some? && r.value.Received?
      ensures old(senders) == 0 ==> r.Some?
      ensures env == [] && !old(SlotPublished(rx.head)) ==> r == if old(senders) > 0 then None else Some(Closed)
      ensures clock.used + rest == old(clock.used) + env
    {
      hide Since, Valid, Grows, FoundEmpty, FoundOpen, Logged, ProducersWoken, RxStopped;
      SinceNow();
      ghost var before := run;
      InOrder();
      StartRx(StartRecv(true), Probe(true), before);
      Pin(before);
      ghost var begun, start := run, Abs();
      LookedAt(old(Abs()));
      rest, moment := env, |run|;
      var result, done := Empty, true;
      while result == Empty && done
        invariant clock.used + rest == old(clock.used) + env
        invariant Since(begun) && |begun| <= moment + 1
        invariant result.Empty? ==> rx.head == old(rx.head) && hist.delivered == old(hist.delivered) && |hist.delivered| == rx.head
        invariant result.Empty? ==> if done then rx.pc == Probe(true) else RxStopped() && rest == [] && FoundEmpty(moment) && FoundOpen(moment)
        invariant result.Received? ==> done && rx.pc == Resting && rx.head == head == old(rx.head) + 1
                                       && hist.delivered == old(hist.delivered) + [result.value] && ProducersWoken()
        invariant result.Closed? ==> done && rx.pc == Resting && rx.head == old(rx.head) && hist.delivered == old(hist.delivered) && rx.closed
        invariant rx.closed == (old(rx.closed) || result.Closed?) && (old(rx.closed) && !done ==> result.Closed?)
        invariant result.Received? ==> !old(rx.closed)
        invariant result.Empty? && (old(SlotPublished(rx.head)) || old(senders) == 0) ==> done && SlotPublished(rx.head) == old(SlotPublished(rx.head)) && senders == old(senders)
        invariant result.Closed? ==> !old(SlotPublished(rx.head))
        invariant env == [] ==> rest == [] && (result.Empty? ==> RxLooked(start))
        invariant env == [] && !old(SlotPublished(rx.head)) ==> !result.Received? && (result.Closed? <==> old(senders) == 0 && !result.Empty?)
        decreases result == Empty && done, |rest|, rx.token
      {
        if env == [] { LookedAt(start); }
        result, done, rest, moment := PollOrWait(rest, begun);
      }
      SinceThen(before, begun);
      InOrder();
      if result == Closed { AllDelivered(); }
      r := if done then Some(result) else None;
    }

    /** One item of a drain: probe, take, and hand it to the callback, which unwinds if `unwinds` says so of its
        `count`-th call. */
    method DrainOne(count: nat, max: nat, unwinds: nat -> bool, env: seq<Slice>, ghost past: seq<State>)
        returns (got: Option<Ticket>, unwound: bool, rest: seq<Slice>, ghost moment: nat)
      requires Since(past) && rx.pc == DrainLoad(count, max)
      modifies this, slots, clock
      ensures Since(past) && |past| <= moment + 1 && |rest| <= |env| && head == old(head)
      ensures match got
        case None => (
          && rx == old(rx).(pc := DrainStore(count, false), token := rx.token) && !unwound
          && hist.delivered == old(hist.delivered) && FoundEmpty(moment))
        case Some(v) => (
          && rx == old(rx).(pc := AfterCallback(Callback(count + 1, max), unwound), head := old(rx.head) + 1, token := rx.token)
          && hist.delivered == old(hist.delivered) + [v] && count < cap && unwound == unwinds(count))
      ensures got == None ==> run[moment].rx.head == rx.head
      ensures old(SlotPublished(rx.head)) ==> got.Some?
      ensures env == [] ==> rest == [] && (got.Some? <==> old(SlotPublished(rx.head)))
      ensures clock.used + rest == old(clock.used) + env
    {
      hide Since, Valid, Grows, NothingReady;
      var quirk;
      got, unwound := None, false;
      rest, quirk := YieldRx(env, past);
      EmptyMoment();
      moment := |run| - 1;
      var published := LoadRound(past);
      if published {
        var v;
        v, unwound, rest := DrainTakeOne(count, max, unwinds, rest, past);
        got := Some(v);
      }
    }

    method DrainTakeOne(count: nat, max: nat, unwinds: nat -> bool, env: seq<Slice>, ghost past: seq<State>)
        returns (v: Ticket, unwound: bool, rest: seq<Slice>)
      requires Since(past) && rx.pc == DrainTake(count, max)
      modifies this, slots, clock
      ensures Since(past) && |rest| <= |env| && head == old(head) && count < cap
      ensures rx == old(rx).(pc := AfterCallback(Callback(count + 1, max), unwound), head := old(rx.head) + 1, token := rx.token)
      ensures hist.delivered == old(hist.delivered) + [v] && unwound == unwinds(count)
      ensures env == [] ==> rest == []
      ensures clock.used + rest == old(clock.used) + env
    {
      hide Since, Valid, Grows;
      var quirk;
      rest, quirk := YieldRx(env, past);
      v := TakeValue(past);
      DrainMoment();
      rest, quirk := YieldRx(rest, past);
      unwound := unwinds(count);
      ReturnFromCallback(unwound, past);
    }

    /** A drain has never taken more than the capacity. */
    lemma DrainMoment()
      requires Valid() && rx.pc.Callback?
      ensures rx.pc.count <= cap
    {
      Reached();
      DrainIsBounded(Abs());
    }

    /** `Receiver::drain` with a callback that unwinds on those of its calls of which `unwinds` says so. The loop ends
        after at most `cap` items, even while the producers refill: that is its variant. The items are the next
        ones of the log, and the drain ends where the callback unwinds first; if it does not, fewer than `max`
        items mean that nothing more was ready. The shared head is published in every case; the wake is
        skipped when the callback unwound. */
    method Drain(max: nat, unwinds: nat -> bool, env: seq<Slice>)
        returns (count: nat, items: seq<Ticket>, unwound: bool, rest: seq<Slice>, ghost moment: nat)
      requires Valid() && rx.pc == Resting
      modifies this, slots, clock
      ensures Since(old(run)) && rx.pc == Resting
      ensures count == |items| <= max && count <= cap
      ensures rx.head == head == old(rx.head) + count && hist.delivered == old(hist.delivered) + items
      ensures rx.head <= |hist.log| && forall k :: 0 <= k < count ==> items[k] == hist.log[old(rx.head) + k].ticket
      ensures unwound <==> count > 0 && unwinds(count - 1)
      ensures forall k :: 0 <= k < count - 1 ==> !unwinds(k)
      ensures unwound ==> rx.skipped
      ensures !unwound && count < max ==> FoundEmpty(moment) && |old(run)| <= moment < |run| && run[moment].rx.head == rx.head
      ensures !unwound && count > 0 ==> ProducersWoken()
      ensures max > 0 && old(SlotPublished(rx.head)) ==> count > 0
      ensures clock.used + rest == old(clock.used) + env
    {
      hide Since, Valid, Grows, NothingReady, Logged, ProducersWoken;
      SinceNow();
      ghost var before := run;
      InOrder();
      AtRest();
      StartRx(StartDrain(max), if max > 0 then DrainLoad(0, max) else Resting, before);
      count, items, unwound, rest, moment := 0, [], false, env, 0;
      if max > 0 {
        Pin(before);
        ghost var begun := run;
        count, items, unwound, rest, moment := DrainLoop(max, unwinds, env, begun);
        Pin(begun);
        ghost var looped := run;
        rest := DrainEnd(count, unwound, rest, looped);
        if !unwound && count < max { EmptyStays(looped, moment); }
        SinceThen(begun, looped);
        SinceThen(before, begun);
      }
      InOrder();
      DrainedItems(old(hist.delivered), items);
    }

    /** Between its operations the receiver has published its head. */
    lemma AtRest()
      requires Valid() && rx.pc == Resting
      ensures head == rx.head
    {
      Reached();
      RestingHead(Abs());
    }

    lemma DrainedItems(before: seq<Ticket>, items: seq<Ticket>)
      requires hist.delivered == before + items && |hist.delivered| == rx.head <= |hist.log|
      requires forall i :: 0 <= i < rx.head ==> hist.delivered[i] == hist.log[i].ticket
      ensures forall k :: 0 <= k < |items| ==> items[k] == hist.log[|before| + k].ticket
    {
      forall k | 0 <= k < |items| ensures items[k] == hist.log[|before| + k].ticket {
        assert hist.delivered[|before| + k] == items[k];
      }
    }

    method DrainLoop(max: nat, unwinds: nat -> bool, env: seq<Slice>, ghost past: seq<State>)
        returns (count: nat, items: seq<Ticket>, unwound: bool, rest: seq<Slice>, ghost moment: nat)
      requires Since(past) && rx.pc == DrainLoad(0, max) && max > 0
      modifies this, slots, clock
      ensures Since(past) && |past| <= moment + 1 && count == |items| <= max && count <= cap && head == old(head)
      ensures rx == old(rx).(pc := DrainStore(count, unwound), head := old(rx.head) + count, token := rx.token)
      ensures hist.delivered == old(hist.delivered) + items
      ensures unwound <==> count > 0 && unwinds(count - 1)
      ensures forall k :: 0 <= k < count - 1 ==> !unwinds(k)
      ensures !unwound && count < max ==> FoundEmpty(moment) && run[moment].rx.head == rx.head
      ensures old(SlotPublished(rx.head)) ==> count > 0
      ensures clock.used + rest == old(clock.used) + env
    {
      hide Since, Valid, Grows, FoundEmpty;
      count, items, unwound, rest, moment := 0, [], false, env, |run| - 1;
      while count < max && !unwound
        invariant clock.used + rest == old(clock.used) + env
        invariant (unwound <==> count > 0 && unwinds(count - 1)) && forall k :: 0 <= k < count - 1 ==> !unwinds(k)
        invariant count == 0 ==> SlotPublished(rx.head) == old(SlotPublished(rx.head))
        invariant Since(past) && |past| <= moment + 1 && count == |items| <= max && count <= cap && head == old(head)
        invariant rx == old(rx).(pc := if unwound then DrainStore(count, true) else if count < max then DrainLoad(count, max)
                                       else DrainStore(count, false), head := old(rx.head) + count, token := rx.token)
        invariant hist.delivered == old(hist.delivered) + items && (unwound ==> count > 0)
        decreases cap - count
      {
        var got;
        got, unwound, rest, moment := DrainOne(count, max, unwinds, rest, past);
        match got {
          case None => return;
          case Some(v) => count, items := count + 1, items + [v];
        }
      }
    }

    /** PublishGuard::drop, and the wake on the normal path. */
    method DrainEnd(count: nat, unwound: bool, env: seq<Slice>, ghost past: seq<State>) returns (rest: seq<Slice>)
      requires Since(past) && rx.pc == DrainStore(count, unwound) && (unwound ==> count > 0)
      modifies this, slots, clock
      ensures Since(past) && rx.pc == Resting && head == rx.head == old(rx.head) && hist.delivered == old(hist.delivered)
      ensures unwound ==> rx.skipped
      ensures !unwound && count > 0 ==> ProducersWoken()
      ensures clock.used + rest == old(clock.used) + env
    {
      hide Since, Valid, Grows, ProducersWoken;
      var quirk;
      rest, quirk := YieldRx(env, past);
      StoreSharedHead(past);
      if count > 0 && park && !unwound {
        rest := WakeProducers(false, rest, past);
      } else if count > 0 && !unwound {
        AllWoken();
      }
    }

    /** Dropping the receiver. */
    method DropReceiver(env: seq<Slice>) returns (rest: seq<Slice>)
      requires Valid() && rx.pc == Resting
      modifies this, slots, clock
      ensures Since(old(run)) && rx.pc == Gone && rx.head == old(rx.head) && hist.delivered == old(hist.delivered)
      ensures rxDropped && forall t :: t in prods && prods[t].pc.Park? ==> prods[t].token
      ensures clock.used + rest == old(clock.used) + env
    {
      hide Since, Valid, Grows;
      SinceNow();
      ghost var before := run;
      StartRx(StartDropRx, SetRxDropped, before);
      var quirk;
      rest, quirk := YieldRx(env, before);
      StoreRxDropped(before);
      rest := WakeProducers(true, rest, before);
      GoneMeansDropped();
    }

    lemma GoneMeansDropped()
      requires Valid() && rx.pc == Gone
      ensures rxDropped
    {
      Reached();
      GoneIsDropped(Abs());
    }

    // ---------- handles ----------

    /** `Sender::clone`: fetch_add. */
    method CloneHandle(h: Hid, h': Hid)
      requires Valid() && HandleFree(Abs(), h) && h' !in handles
      modifies this
      ensures Since(old(run)) && run == old(run) + [Abs()]
      ensures handles == old(handles)[h' := 0] && senders == old(senders) + 1 == |handles|
    {
      hide Grows, Reachable, Enabled, Apply, Logged, HandleFree;
      SinceNow();
      Reached();
      CloneMove(Abs(), h, h');
      ghost var before := run;
      handles := handles[h' := 0];
      senders := senders + 1;
      Record(CloneSender(h, h'), before);
      Counted();
    }

    lemma Counted()
      requires Valid()
      ensures senders == |handles|
    {
      Reached();
      SendersCountsHandles(Abs());
    }

    /** fetch_sub of `senders`. */
    method ReleaseHandle(t: Tid, h: Hid, ghost past: seq<State>) returns (last: bool)
      requires Since(past) && At(t, Idle) && HandleFree(Abs(), h)
      modifies this
      ensures Since(past) && run == old(run) + [Abs()]
      ensures handles == old(handles) - {h} && senders == old(senders) - 1 && last == (senders == 0)
      ensures At(t, if last then WakeLoad else Idle) && hist == old(hist) && slotLock == old(slotLock)
    {
      hide Grows, Reachable, Enabled, Apply, Logged, HandleFree;
      Reached();
      DropMove(Abs(), t, h);
      last := senders == 1;
      handles := handles - {h};
      senders := senders - 1;
      Goto(t, if last then WakeLoad else Idle);
      Record(MpscMachine.DropSender(t, h), past);
    }

    /** Dropping a sender: the last one wakes the receiver. */
    method DropSender(t: Tid, h: Hid, env: seq<Slice>) returns (last: bool, done: bool, rest: seq<Slice>)
      requires Valid() && At(t, Idle) && HandleFree(Abs(), h)
      modifies this, slots, clock
      ensures Since(old(run)) && last == (old(senders) == 1)
      ensures if done then At(t, Idle) else last && At(t, WakeTake) && slotLock != None && rest == []
      ensures if last then senders == 0 && handles == map[] && ReceiverCovered()
              else run == old(run) + [Abs()] && senders == old(senders) - 1 && handles == old(handles) - {h}
      ensures last && env == [] ==> done || old(slotLock) != None
      ensures clock.used + rest == old(clock.used) + env
    {
      hide Since, Valid, Grows, HandleFree, ReceiverCovered;
      SinceNow();
      ghost var before := run;
      last := ReleaseHandle(t, h, before);
      done, rest := true, env;
      if last {
        done, rest := WakeConsumer(t, env, before);
        Counted();
        assert |handles| == 0;
      }
    }

    // ---------- Shared::drop ----------

    /** The walk over the slots. It ends at the claim counter, on a full ring too. */
    method WalkSlots() returns (dropped: seq<Ticket>)
      requires Valid() && AllDone(Abs())
      ensures head <= claim <= |hist.log| && |dropped| == claim - head
      ensures forall k :: 0 <= k < |dropped| ==> dropped[k] == hist.log[head + k].ticket
    {
      hide Reachable, AllDone, Logged, SlotOf, Tag, And, Shr, AsI64;
      Reached();
      var seqNo := head;
      dropped := [];
      NoFault(Abs());
      DropMoment(seqNo);
      IndexOf(seqNo);
      while slots[And(seqNo, mask)].round == AsI64(Shr(seqNo, shift))
        invariant head <= seqNo <= claim <= |hist.log| && |dropped| == seqNo - head
        invariant forall k :: 0 <= k < |dropped| ==> dropped[k] == hist.log[head + k].ticket
        invariant And(seqNo, mask) < slots.Length
        decreases claim - seqNo
      {
        DropMoment(seqNo);
        IndexOf(seqNo);
        dropped := dropped + [slots[And(seqNo, mask)].cell.value];
        seqNo := seqNo + 1;
        IndexOf(seqNo);
      }
      DropMoment(seqNo);
      IndexOf(seqNo);
    }

    lemma DropMoment(seqNo: nat)
      requires Valid() && AllDone(Abs()) && head <= seqNo <= claim
      ensures claim == |hist.log|
      ensures SlotPublished(seqNo) <==> seqNo < claim
      ensures seqNo < claim ==> slots[SlotOf(seqNo, cap)].cell == Some(hist.log[seqNo].ticket)
    {
      Reached();
      DropFacts(Abs(), seqNo);
    }

    /** Shared::drop: every payload that was accepted and not delivered is dropped, once. */
    method DropShared() returns (dropped: seq<Ticket>)
      requires Valid() && AllDone(Abs()) && hist.dropped == None
      modifies this
      ensures Since(old(run)) && hist.dropped == Some(dropped) && run == old(run) + [Abs()]
      ensures |dropped| == claim - head && hist.delivered == old(hist.delivered)
      ensures forall v :: 0 <= v < |hist.fate| ==> v in hist.returned + hist.delivered + dropped
      ensures |hist.returned + hist.delivered + dropped| == |hist.fate|
    {
      hide Grows, Reachable, Enabled, Apply, Logged, AllDone;
      SinceNow();
      Reached();
      ghost var before := run;
      dropped := WalkSlots();
      DropSharedMove(Abs(), dropped);
      hist := hist.(dropped := Some(dropped));
      Record(Reap, before);
      Reached();
      EveryPayloadEndsOnce(Abs());
      assert Ended(Abs()) == hist.returned + hist.delivered + dropped;
    }

    /** The mask and the shift compute the slot and the round. */
    lemma IndexOf(seqNo: nat)
      requires Valid()
      ensures 0 < cap && And(seqNo, mask) == SlotOf(seqNo, cap) < slots.Length == cap
      ensures AsI64(Shr(seqNo, shift)) == Tag(seqNo, cap)
    {
      hide Init, IsRun, And, Shr, SlotOf, RoundOf, AsI64;
      MaskIsSlot(seqNo, shift);
      ShiftIsRound(seqNo, shift);
    }
  }

  /** Payload `v` of thread `t` has been accepted under sequence `q`, and the log says so. */
  predicate Recorded(s: State, t: Tid, v: Ticket, q: nat) {
    v < |s.hist.fate| && s.hist.fate[v] == Accepted(q) && q < |s.hist.log| && s.hist.log[q] == Claim(v, t)
  }

  /** There is nothing to receive: the queue is empty, or the thread that won its oldest claim has not
      published yet. */
  ghost predicate NothingReady(s: State) {
    s.rx.head == s.ring.claim || (s.rx.head < |s.hist.log| && HeldBy(s, s.hist.log[s.rx.head].who, s.rx.head))
  }

  /** The receiver is about to load the round of its next slot. */
  predicate Probing(pc: ConsPC) {
    pc.Probe? || pc.ProbeAgain? || pc.Spin? || pc.RecheckRound? || pc.DrainLoad?
  }

  function AfterProbe(pc: ConsPC, published: bool): ConsPC
    requires Probing(pc)
  {
    match pc
    case Probe(b) => if published then Take else ProbeSenders(b)
    case ProbeAgain(b) => if published then Take else Resting
    case Spin(left) => if published then Probe(true) else if left <= 1 then PrepSlot else Spin(left - 1)
    case RecheckRound => if published then Cancel else RecheckSenders
    case DrainLoad(c, m) => if published then DrainTake(c, m) else DrainStore(c, false)
  }

  function AfterSenders(pc: ConsPC, none: bool, park: bool): ConsPC
    requires pc.ProbeSenders? || pc.RecheckSenders?
  {
    match pc
    case ProbeSenders(b) =>
      if none then ProbeAgain(b) else if !b then Resting else if park then Spin(PARK_SPINS) else Probe(true)
    case RecheckSenders => if none then Cancel else Parked
  }

  function AfterTake(pc: ConsPC): ConsPC
    requires pc.Take? || pc.DrainTake?
  {
    if pc.Take? then StoreHead else Callback(pc.count + 1, pc.max)
  }

  function AfterCallback(pc: ConsPC, unwinds: bool): ConsPC
    requires pc.Callback?
  {
    if unwinds then DrainStore(pc.count, true)
    else if pc.count < pc.max then DrainLoad(pc.count, pc.max) else DrainStore(pc.count, false)
  }

  /** The counts of lost exchanges aside, it is the same call. */
  predicate SameCallAs(op: Op, op': Op) {
    op'.h == op.h && op'.v == op.v && op'.blocking == op.blocking
  }

  // ---------- what a thread changes when nobody else runs ----------

  /** The counters, the flags, the log and the receiver's place agree. */
  ghost predicate SameCounters(s: State, s': State) {
    && s'.ring.claim == s.ring.claim && s'.ring.head == s.ring.head
    && s'.ends.senders == s.ends.senders && s'.ends.rxDropped == s.ends.rxDropped
    && s'.hist.log == s.hist.log && s'.hist.delivered == s.hist.delivered && |s'.hist.fate| == |s.hist.fate|
    && s'.rx == s.rx.(token := s'.rx.token)
  }

  /** So do the slots, the tokens and the lock of the handle slot. */
  ghost predicate OnlyLooked(t: Tid, s: State, s': State) {
    && SameCounters(s, s') && s'.rx == s.rx && s'.ring.slots == s.ring.slots && s'.wait.slotLock == s.wait.slotLock
    && t in s'.prods && t in s.prods && s'.prods[t].token == s.prods[t].token
  }

  /** The receiver has only looked, or has registered or withdrawn. */
  ghost predicate RxOnlyLooked(s: State, s': State) {
    && s'.ring == s.ring && s'.ends == s.ends && s'.hist == s.hist && s'.prods == s.prods && s'.wait.slotLock == s.wait.slotLock
    && s'.rx.head == s.rx.head && s'.rx.tid == s.rx.tid && s'.park == s.park && s'.cap == s.cap
  }

  /** The counters of `s` after thread `t` has won the next sequence. */
  ghost function Won(s: State, op: Op, t: Tid): State {
    s.(ring := s.ring.(claim := s.ring.claim + 1), hist := s.hist.(log := s.hist.log + [Claim(op.v, t)]))
  }

  /** Nobody else has run since `s`, and the call has offered its payload, once or more often, with this result. */
  ghost predicate OfferedAlone(s: State, s': State, t: Tid, op: Op, result: SendResult, seqNo: nat, done: bool) {
    match result
    case Disconnected => s.ends.rxDropped && SameCounters(s, s')
    case Full => SameCounters(s, s') && s'.wait.slotLock == s.wait.slotLock
                 && (!done ==> !s.ends.rxDropped && s.ring.claim >= Saturate(s.ring.head + s.cap))
    case Sent => !s.ends.rxDropped && s.ring.claim < Saturate(s.ring.head + s.cap) && (done || s.wait.slotLock != None)
                 && seqNo == s.ring.claim && SameCounters(Won(s, op, t), s')
  }

  lemma OfferedTwice(s: State, s1: State, s2: State, t: Tid, op: Op, result: SendResult, seqNo: nat, done: bool)
    requires SameCounters(s, s1) && s1.wait.slotLock == s.wait.slotLock && s1.cap == s.cap
    ensures OfferedAlone(s1, s2, t, op, result, seqNo, done) ==> OfferedAlone(s, s2, t, op, result, seqNo, done)
  {
  }

  /** The claims have not reached the bound. */
  predicate HasRoom(s: State) {
    s.ring.claim < Saturate(s.ring.head + s.cap)
  }

  lemma LookFields(t: Tid, s: State, s': State)
    requires OnlyLooked(t, s, s')
    ensures SameCounters(s, s') && s'.wait.slotLock == s.wait.slotLock && s'.ring.slots == s.ring.slots
    ensures t in s.prods && t in s'.prods && s'.prods[t].token == s.prods[t].token
  {
  }

  lemma CounterFields(s: State, s': State)
    requires SameCounters(s, s')
    ensures s'.ring.claim == s.ring.claim && s'.ring.head == s.ring.head
    ensures s'.ends.rxDropped == s.ends.rxDropped && s'.ends.senders == s.ends.senders
  {
  }

  lemma LookLaws(t: Tid, op: Op, s: State, s1: State, s2: State)
    ensures SameCounters(s, s1) && SameCounters(s1, s2) ==> SameCounters(s, s2)
    ensures OnlyLooked(t, s, s1) && OnlyLooked(t, s1, s2) ==> OnlyLooked(t, s, s2)
    ensures OnlyLooked(t, s, s1) && SameCounters(Won(s1, op, t), s2) ==> SameCounters(Won(s, op, t), s2)
    ensures SameCounters(Won(s, op, t), s1) && SameCounters(s1, s2) ==> SameCounters(Won(s, op, t), s2)
  {
  }

  /** What the exchange changes. */
  lemma CasLaw(s: State, t: Tid, op: Op, q: nat, quirk: bool)
    requires t in s.prods && op.h in s.ends.handles && op.v < |s.hist.fate|
    ensures var s' := StepCas(s, t, op, q, quirk);
      if s.ring.claim == q && !quirk then SameCounters(Won(s, op, t), s') && s'.wait.slotLock == s.wait.slotLock else OnlyLooked(t, s, s')
  {
  }

  lemma LoadHeadLaw(s: State, t: Tid, op: Op, q: nat)
    requires t in s.prods && op.v < |s.hist.fate|
    ensures OnlyLooked(t, s, StepLoadHead(s, t, op, q))
  {
  }

  lemma WriteLaw(s: State, t: Tid, op: Op, q: nat)
    requires t in s.prods && 0 < s.cap == |s.ring.slots|
    ensures var s' := StepWrite(s, t, op, q); SameCounters(s, s') && s'.wait.slotLock == s.wait.slotLock
  {
    hide SlotOf;
  }

  lemma TakeLaw(s: State, t: Tid)
    requires t in s.prods
    ensures SameCounters(s, StepTake(s, t))
  {
  }

  // ---------- the machine's steps, one access at a time ----------

  /** A thread in the middle of something can make its step, and only adds to the histories. */
  lemma ProdMove(s: State, t: Tid, quirk: bool)
    requires Reachable(s) && t in s.prods && s.prods[t].pc != Idle && ProdEnabled(s, t, quirk)
    ensures Enabled(s, StepProd(t, quirk)) && Grows(s, ProdStep(s, t, quirk)) && WellShaped(s)
    ensures InOp(s.prods[t].pc) ==> s.prods[t].pc.op.v < |s.hist.fate| && s.prods[t].pc.op.h in s.ends.handles
  {
    hide Grows, Reachable, Inv, ProdStep, ProdEnabled;
    ReachesInv(s);
    CallFacts(s, t);
    ProdGrows(s, t, quirk);
  }

  lemma ReachesInv(s: State)
    requires Reachable(s)
    ensures Inv(s)
  {
    ReachableInv(s);
  }

  lemma SleeperParks(s: State, t: Tid)
    requires Reachable(s) && t in s.prods && s.prods[t].pc.Park?
    ensures s.park
  {
    ReachableInv(s);
    assert TxWake(s, t);
  }

  lemma PushParks(s: State, t: Tid)
    requires Reachable(s) && t in s.prods && s.prods[t].pc.PushList?
    ensures s.park
  {
    ReachableInv(s);
  }

  lemma ClosedIsFinal(s: State)
    requires Reachable(s) && s.rx.closed
    ensures s.ends.senders == 0 && (0 < s.cap == |s.ring.slots| ==> !Published(s, s.rx.head))
  {
    ReachesInv(s);
    ClosedRing(s);
  }

  lemma ClosedRing(s: State)
    requires Inv(s) && s.rx.closed
    ensures s.ends.senders == 0 && (0 < s.cap == |s.ring.slots| ==> !Published(s, s.rx.head))
  {
    assert SlotOK(s, s.rx.head);
    TagIsFresh(s.rx.head, s.cap);
  }

  lemma CachedIsOld(s: State, t: Tid)
    requires Reachable(s) && t in s.prods && InOp(s.prods[t].pc)
    ensures s.prods[t].pc.op.h in s.ends.handles && s.ends.handles[s.prods[t].pc.op.h] <= s.ring.head
  {
    ReachesInv(s);
    assert ThreadOK(s, t);
    CacheBound(s, t);
  }

  lemma CheckRxMove(s: State, t: Tid, op: Op)
    requires Reachable(s) && t in s.prods && s.prods[t].pc == CheckRx(op)
    ensures Enabled(s, StepProd(t, false)) && Grows(s, Apply(s, StepProd(t, false))) && op.v < |s.hist.fate| && op.h in s.ends.handles
    ensures Apply(s, StepProd(t, false)) == if s.ends.rxDropped then GiveBack(s, t, op) else SetPC(s, t, LoadClaim(op))
  {
    hide Grows, Reachable;
    ProdMove(s, t, false);
  }

  lemma LoadClaimMove(s: State, t: Tid, op: Op)
    requires Reachable(s) && t in s.prods && s.prods[t].pc == LoadClaim(op)
    ensures Enabled(s, StepProd(t, false)) && Grows(s, Apply(s, StepProd(t, false))) && op.v < |s.hist.fate| && op.h in s.ends.handles
    ensures Apply(s, StepProd(t, false)) == SetPC(s, t, Decide(s, op, s.ring.claim))
  {
    hide Grows, Reachable;
    ProdMove(s, t, false);
  }

  lemma LoadHeadMove(s: State, t: Tid, op: Op, q: nat)
    requires Reachable(s) && t in s.prods && s.prods[t].pc == LoadHead(op, q)
    ensures Enabled(s, StepProd(t, false)) && Grows(s, Apply(s, StepProd(t, false))) && op.v < |s.hist.fate| && op.h in s.ends.handles
    ensures Apply(s, StepProd(t, false)) == StepLoadHead(s, t, op, q)
  {
    hide Grows, Reachable;
    ProdMove(s, t, false);
  }

  lemma CasMove(s: State, t: Tid, op: Op, q: nat, quirk: bool)
    requires Reachable(s) && t in s.prods && s.prods[t].pc == Cas(op, q)
    ensures Enabled(s, StepProd(t, quirk)) && Grows(s, Apply(s, StepProd(t, quirk))) && op.v < |s.hist.fate| && op.h in s.ends.handles
    ensures Apply(s, StepProd(t, quirk)) == StepCas(s, t, op, q, quirk)
  {
    hide Grows, Reachable;
    ProdMove(s, t, quirk);
  }

  lemma WriteMove(s: State, t: Tid, op: Op, q: nat)
    requires Reachable(s) && t in s.prods && s.prods[t].pc == Write(op, q)
    ensures Enabled(s, StepProd(t, false)) && Grows(s, Apply(s, StepProd(t, false)))
    ensures 0 < s.cap == |s.ring.slots|
    ensures Apply(s, StepProd(t, false)) == StepWrite(s, t, op, q)
  {
    hide Grows, Reachable;
    ProdMove(s, t, false);
  }

  lemma PublishMove(s: State, t: Tid, op: Op, q: nat)
    requires Reachable(s) && t in s.prods && s.prods[t].pc == Publish(op, q)
    ensures Enabled(s, StepProd(t, false)) && Grows(s, Apply(s, StepProd(t, false)))
    ensures 0 < s.cap == |s.ring.slots|
    ensures Apply(s, StepProd(t, false)) == StepPublish(s, t, q)
  {
    hide Grows, Reachable;
    ProdMove(s, t, false);
  }

  lemma StartMove(s: State, t: Tid, h: Hid, blocking: bool)
    requires Reachable(s) && t in s.prods && s.prods[t].pc == Idle && HandleFree(s, h)
    ensures Enabled(s, StartSend(t, h, blocking)) && Grows(s, Apply(s, StartSend(t, h, blocking)))
    ensures Apply(s, StartSend(t, h, blocking)) ==
      SetPC(s.(hist := s.hist.(fate := s.hist.fate + [Held(t)])), t, CheckRx(Op(h, |s.hist.fate|, blocking, s.ring.head, 0)))
  {
    hide Grows, Reachable, Inv;
    ReachesInv(s);
    InvIsWellShaped(s);
    MoveGrows(s, StartSend(t, h, blocking));
  }

  /** The Park arm of `send`. */
  lemma WaitMove(s: State, t: Tid, quirk: bool)
    requires Reachable(s) && t in s.prods && ProdEnabled(s, t, quirk)
    requires var pc := s.prods[t].pc;
      pc.PushList? || pc.SetWaiting? || pc.ReloadClaim? || pc.ReloadHead? || pc.ReloadRx? || pc.Park?
    ensures Enabled(s, StepProd(t, quirk)) && Grows(s, Apply(s, StepProd(t, quirk)))
    ensures Apply(s, StepProd(t, quirk)) ==
      match s.prods[t].pc
      case PushList(op) => SetPC(s.(wait := s.wait.(list := s.wait.list + [t])), t, SetWaiting(op))
      case SetWaiting(op) => SetPC(s.(wait := s.wait.(waiting := true)), t, ReloadClaim(op))
      case ReloadClaim(op) => SetPC(s, t, ReloadHead(op, s.ring.claim))
      case ReloadHead(op, seen) => SetPC(s, t, if seen < Limit(s.ring.head, s.cap) then Renew(s, op) else ReloadRx(op))
      case ReloadRx(op) => SetPC(s, t, if s.ends.rxDropped then Renew(s, op) else Park(op))
      case Park(op) => s.(prods := s.prods[t := Producer(Renew(s, op), false)])
      case _ => s
  {
    hide Grows, Reachable;
    ProdMove(s, t, quirk);
  }

  /** Parker::wake. */
  lemma WakeMove(s: State, t: Tid)
    requires Reachable(s) && t in s.prods && ProdEnabled(s, t, false) && Waking(s.prods[t].pc)
    ensures Enabled(s, StepProd(t, false)) && Grows(s, Apply(s, StepProd(t, false)))
    ensures Apply(s, StepProd(t, false)) ==
      match s.prods[t].pc
      case WakeLoad => SetPC(s, t, if s.wait.parked then WakeClear else Idle)
      case WakeClear => SetPC(s.(wait := s.wait.(parked := false)), t, WakeTake)
      case WakeTake => StepTake(s, t)
      case WakeUnpark(u) => StepUnpark(s, t, u)
      case _ => s
  {
    hide Grows, Reachable;
    ProdMove(s, t, false);
  }

  lemma RunAppend(run: seq<State>, m: Move, s: State)
    requires IsRun(run) && Init(run[0]) && Enabled(run[|run| - 1], m) && s == Apply(run[|run| - 1], m)
    ensures IsRun(run + [s]) && Init((run + [s])[0])
  {
    hide Init;
    assert Next(run[|run| - 1], s);
    hide Next, Enabled, Apply;
    var longer := run + [s];
    forall i {:trigger longer[i]} | 0 < i < |longer| ensures Next(longer[i - 1], longer[i]) {
      if i < |run| { assert Next(run[i - 1], run[i]); }
    }
  }

  /** What a thread between claim and publish has on record. */
  lemma FlightRecord(s: State, t: Tid, op: Op, q: nat)
    requires Reachable(s) && t in s.prods && s.prods[t].pc == Publish(op, q)
    ensures Recorded(s, t, op.v, q)
  {
    ReachableInv(s);
    assert ThreadOK(s, t);
  }

  /** A claim whose thread has moved on is published, until the receiver takes it. */
  lemma AcceptedIsVisible(s: State, t: Tid, q: nat)
    requires Reachable(s) && q < |s.hist.log| && s.hist.log[q].who == t && t in s.prods && !InFlight(s.prods[t].pc)
    ensures 0 < s.cap == |s.ring.slots| && (q < s.rx.head || Published(s, q))
  {
    ReachesInv(s);
    if s.rx.head <= q {
      ClaimVisible(s, t, q);
    }
  }

  lemma ClaimVisible(s: State, t: Tid, q: nat)
    requires Inv(s) && s.rx.head <= q < |s.hist.log| && s.hist.log[q].who == t && t in s.prods && !InFlight(s.prods[t].pc)
    ensures Published(s, q)
  {
    assert SlotOK(s, q);
    assert !HeldBy(s, t, q);
  }

  /** The receiver in the middle of something can make its step. */
  lemma ConsMove(s: State, quirk: bool)
    requires Reachable(s) && s.rx.pc != Resting && s.rx.pc != Gone && ConsEnabled(s, quirk)
    ensures Enabled(s, StepCons(quirk)) && Grows(s, ConsStep(s, quirk)) && WellShaped(s)
  {
    hide Grows, Reachable, Inv, ConsStep, ConsEnabled;
    ReachesInv(s);
    InvIsWellShaped(s);
    ConsGrows(s, quirk);
  }

  lemma ProbeMove(s: State)
    requires Reachable(s) && Probing(s.rx.pc)
    ensures Enabled(s, StepCons(false)) && Grows(s, Apply(s, StepCons(false)))
    ensures 0 < s.cap == |s.ring.slots|
    ensures Apply(s, StepCons(false)) ==
      s.(rx := s.rx.(pc := AfterProbe(s.rx.pc, Published(s, s.rx.head)),
                     closed := s.rx.closed || (s.rx.pc.ProbeAgain? && !Published(s, s.rx.head))))
  {
    hide Grows, Reachable, Tag, SlotOf;
    ConsMove(s, false);
  }

  lemma SendersMove(s: State)
    requires Reachable(s) && (s.rx.pc.ProbeSenders? || s.rx.pc.RecheckSenders?)
    ensures Enabled(s, StepCons(false)) && Grows(s, Apply(s, StepCons(false)))
    ensures Apply(s, StepCons(false)) ==
      SetRx(s, AfterSenders(s.rx.pc, s.ends.senders == 0, s.park))
  {
    hide Grows, Reachable, Tag, SlotOf;
    ConsMove(s, false);
  }

  lemma TakeMove(s: State)
    requires Reachable(s) && (s.rx.pc.Take? || s.rx.pc.DrainTake?)
    ensures Enabled(s, StepCons(false)) && Grows(s, Apply(s, StepCons(false)))
    ensures 0 < s.cap == |s.ring.slots| && SlotAt(s, s.rx.head).cell.Some?
    ensures Apply(s, StepCons(false)) == MoveOut(s, AfterTake(s.rx.pc))
  {
    hide Grows, Reachable, Tag, SlotOf, MoveOut;
    ConsMove(s, false);
    SlotsAreExclusive(s);
  }

  lemma StoreFacts(s: State)
    requires Reachable(s) && (s.rx.pc.StoreHead? || s.rx.pc.DrainStore?)
    ensures s.ring.head <= s.rx.head && (s.rx.pc.DrainStore? && s.rx.pc.count == 0 ==> s.rx.head == s.ring.head)
  {
    ReachableInv(s);
  }

  lemma StoreMove(s: State)
    requires Reachable(s) && (s.rx.pc.StoreHead? || s.rx.pc.DrainStore?)
    ensures Enabled(s, StepCons(false)) && Grows(s, Apply(s, StepCons(false)))
    ensures s.ring.head <= s.rx.head && (s.rx.pc.DrainStore? && s.rx.pc.count == 0 ==> s.rx.head == s.ring.head)
    ensures Apply(s, StepCons(false)) ==
      (if s.rx.pc.StoreHead? then StepStoreHead(s) else StepDrainStore(s, s.rx.pc.count, s.rx.pc.unwinding))
  {
    hide Grows, Reachable, Tag, SlotOf;
    StoreFacts(s);
    ConsMove(s, false);
  }

  lemma CallbackMove(s: State, unwinds: bool)
    requires Reachable(s) && s.rx.pc.Callback?
    ensures Enabled(s, StepCons(unwinds)) && Grows(s, Apply(s, StepCons(unwinds)))
    ensures Apply(s, StepCons(unwinds)) ==
      SetRx(s, AfterCallback(s.rx.pc, unwinds))
  {
    hide Grows, Reachable, Tag, SlotOf;
    ConsMove(s, unwinds);
  }

  lemma RxParkMove(s: State, quirk: bool)
    requires Reachable(s) && ConsEnabled(s, quirk)
      && (s.rx.pc.PrepSlot? || s.rx.pc.PrepFlag? || s.rx.pc.Cancel? || s.rx.pc.ClearFlag? || s.rx.pc.Parked?)
    ensures Enabled(s, StepCons(quirk)) && Grows(s, Apply(s, StepCons(quirk)))
    ensures Apply(s, StepCons(quirk)) ==
      match s.rx.pc
      case PrepSlot => s.(wait := s.wait.(registered := Some(s.rx.tid)), rx := s.rx.(pc := PrepFlag))
      case PrepFlag => s.(wait := s.wait.(parked := true), rx := s.rx.(pc := RecheckRound))
      case Parked => s.(rx := s.rx.(pc := ClearFlag, token := false))
      case _ => s.(wait := s.wait.(parked := false), rx := s.rx.(pc := Probe(true)))
  {
    hide Grows, Reachable, Tag, SlotOf;
    ConsMove(s, quirk);
  }

  lemma WakeAllMove(s: State)
    requires Reachable(s) && (s.rx.pc.SwapWaiting? || s.rx.pc.LockList? || s.rx.pc.UnparkAll?)
    ensures Enabled(s, StepCons(false)) && Grows(s, Apply(s, StepCons(false)))
    ensures Apply(s, StepCons(false)) ==
      match s.rx.pc
      case SwapWaiting(last) =>
        s.(wait := s.wait.(waiting := false), rx := s.rx.(pc := if s.wait.waiting then LockList(last) else AfterWake(last)))
      case LockList(last) => s.(wait := s.wait.(list := []), rx := s.rx.(pc := UnparkAll(s.wait.list, last)))
      case UnparkAll(rest, last) => StepUnparkAll(s, rest, last)
      case _ => s
  {
    hide Grows, Reachable, Tag, SlotOf;
    ConsMove(s, false);
  }

  lemma DropRxMove(s: State)
    requires Reachable(s) && s.rx.pc.SetRxDropped?
    ensures Enabled(s, StepCons(false)) && Grows(s, Apply(s, StepCons(false)))
    ensures Apply(s, StepCons(false)) ==
      EnterWake(s.(ends := s.ends.(rxDropped := true)), true)
  {
    hide Grows, Reachable, Tag, SlotOf;
    ConsMove(s, false);
  }

  lemma StartRxMove(s: State, m: Move)
    requires Reachable(s) && s.rx.pc == Resting && (m.StartRecv? || m.StartDrain? || m.StartDropRx?)
    ensures Enabled(s, m) && Grows(s, Apply(s, m))
    ensures Apply(s, m) == SetRx(s, match m
        case StartRecv(b) => Probe(b)
        case StartDrain(max) => if max > 0 then DrainLoad(0, max) else Resting
        case _ => SetRxDropped)
  {
    hide Grows, Reachable, Inv;
    ReachesInv(s);
    InvIsWellShaped(s);
    MoveGrows(s, m);
  }

  lemma GoneIsDropped(s: State)
    requires Reachable(s) && s.rx.pc == Gone
    ensures s.ends.rxDropped
  {
    ReachableInv(s);
  }

  lemma CloneMove(s: State, h: Hid, h': Hid)
    requires Reachable(s) && HandleFree(s, h) && h' !in s.ends.handles
    ensures Enabled(s, CloneSender(h, h')) && Grows(s, Apply(s, CloneSender(h, h')))
    ensures Apply(s, CloneSender(h, h')) == s.(ends := s.ends.(handles := s.ends.handles[h' := 0], senders := s.ends.senders + 1))
  {
    hide Grows, Reachable, Inv;
    ReachesInv(s);
    InvIsWellShaped(s);
    MoveGrows(s, CloneSender(h, h'));
  }

  lemma DropMove(s: State, t: Tid, h: Hid)
    requires Reachable(s) && t in s.prods && s.prods[t].pc == Idle && HandleFree(s, h)
    ensures s.ends.senders > 0
    ensures Enabled(s, DropSender(t, h)) && Grows(s, Apply(s, DropSender(t, h)))
    ensures Apply(s, DropSender(t, h)) == SetPC(s.(ends := s.ends.(handles := s.ends.handles - {h}, senders := s.ends.senders - 1)),
                                                t, if s.ends.senders == 1 then WakeLoad else Idle)
  {
    hide Grows, Reachable, Inv;
    ReachesInv(s);
    InvIsWellShaped(s);
    SendersCountsHandles(s);
    assert h in s.ends.handles;
    MoveGrows(s, DropSender(t, h));
  }

  lemma RestingHead(s: State)
    requires Reachable(s) && s.rx.pc == Resting
    ensures s.ring.head == s.rx.head
  {
    ReachableInv(s);
  }

  /** When all is done the published slots are exactly the claimed, unconsumed sequences. */
  lemma DropFacts(s: State, q: nat)
    requires Reachable(s) && AllDone(s) && s.ring.head <= q <= s.ring.claim
    ensures 0 < s.cap == |s.ring.slots| && s.ring.claim == |s.hist.log|
    ensures Published(s, q) <==> q < s.ring.claim
    ensures q < s.ring.claim ==> SlotAt(s, q).cell == Some(s.hist.log[q].ticket)
  {
    hide Reachable;
    ReachesInv(s);
    GoneHead(s);
    if q < s.ring.claim {
      hide AllDone;
      UnconsumedIsPublished(s, q);
    } else {
      WalkStops(s);
    }
  }

  lemma GoneHead(s: State)
    requires Inv(s) && s.rx.pc == Gone
    ensures s.ring.head == s.rx.head && 0 < s.cap == |s.ring.slots| && s.ring.claim == |s.hist.log|
  {
  }

  lemma UnconsumedIsPublished(s: State, q: nat)
    requires Inv(s) && s.ends.handles == map[] && s.rx.head <= q < s.ring.claim
    ensures Published(s, q) && SlotAt(s, q).cell == Some(s.hist.log[q].ticket)
  {
    NoHandlesNoCalls(s);
    assert SlotOK(s, q);
  }

  lemma DropSharedMove(s: State, dropped: seq<Ticket>)
    requires Reachable(s) && AllDone(s) && s.hist.dropped == None
    requires s.ring.head <= s.ring.claim <= |s.hist.log| && |dropped| == s.ring.claim - s.ring.head
    requires forall k :: 0 <= k < |dropped| ==> dropped[k] == s.hist.log[s.ring.head + k].ticket
    ensures Enabled(s, Reap) && Grows(s, Apply(s, Reap))
    ensures Apply(s, Reap) == s.(hist := s.hist.(dropped := Some(dropped)))
  {
    hide Grows, Reachable, Inv, AllDone;
    ReachesInv(s);
    InvIsWellShaped(s);
    MoveGrows(s, Reap);
    ReapDrops(s);
    NoFault(s);
    assert StepReap(s).hist.dropped.value == dropped;
  }

  lemma ApplyFits(s: State, m: Move)
    requires Reachable(s) && Enabled(s, m)
    ensures Grows(s, Apply(s, m))
    ensures Apply(s, m).cap == s.cap == |Apply(s, m).ring.slots| && Apply(s, m).park == s.park
  {
    hide Inv, Apply, Reachable, Grows;
    ReachesInv(s);
    MoveGrows(s, m);
    InvStep(s, m);
    CapIsLength(Apply(s, m));
    GrowsCap(s, Apply(s, m));
  }

  lemma GrowsCap(s: State, s': State)
    requires Grows(s, s')
    ensures s'.cap == s.cap && s'.park == s.park
  {
  }

  lemma CapIsLength(s: State)
    requires Inv(s)
    ensures s.cap == |s.ring.slots|
  {
  }

  lemma ForeignMove(me: Actor, s0: State, s: State, m: Move)
    requires Reachable(s) && Enabled(s, m) && Foreign(me, s, m) && (me.Sending? ==> me.t in s.prods)
    requires Undisturbed(me, s0, s)
    ensures Undisturbed(me, s0, Apply(s, m))
  {
    ReachableInv(s);
    hide Inv, Apply, Enabled, Foreign, Undisturbed;
    ForeignLeavesAlone(me, s, m);
    UndisturbedTwice(me, s0, s, Apply(s, m));
  }

  lemma StaysPut(me: Actor, s: State)
    requires Reachable(s) && (me.Sending? ==> me.t in s.prods)
    ensures Undisturbed(me, s, s)
  {
    ReachableInv(s);
    if me.Sending? { assert ThreadOK(s, me.t); }
  }
}

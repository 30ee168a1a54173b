/**
 The SPSC ring as code, over its slot array. As in `Mpsc`, each atomic method makes one access to the
 shared variables, the peer's moves happen in between by a finite schedule, and `run` is the history.
 The Park arms are in `SpscPark`; here a blocked side tries again, as the self-waking strategies do.
 */
module Spsc {
  import opened Arith
  import opened Common
  import opened SpscMachine
  import opened SpscInvariant
  import opened SpscTheorems

  /** The side whose code runs. */
  datatype Actor = Sending | Receiving

  /** What happens before one access: moves of the peer. */
  datatype Slice = Slice(moves: seq<Move>)

  predicate Foreign(me: Actor, m: Move) {
    if me.Sending? then m.StartRecv? || m.StartDrain? || m.StartDropRx? || m.StepRx?
    else m.StartSend? || m.StartDropTx? || m.StepTx?
  }

  /** Payloads are never taken back out of the log or of the delivery, the flag stays up, and after `Disconnected`
      nothing is accepted. */
  ghost predicate Grows(s: State, s': State) {
    && s'.cap == s.cap && s.hist.log <= s'.hist.log && s.hist.delivered <= s'.hist.delivered
    && s.tail <= s'.tail && s.head <= s'.head && (s.disconnected ==> s'.disconnected)
    && (s.rx.drained ==> s'.rx.drained && s'.hist.log == s.hist.log)
    && (s.tx.pc == Gone ==> s'.tx.pc == Gone && s'.tail == s.tail)
  }

  /** What a side leaves alone. */
  ghost predicate Undisturbed(me: Actor, s: State, s': State) {
    && Grows(s, s')
    && if me.Sending? then
         s'.tx == s.tx && s'.tail == s.tail && s'.hist == s.hist.(delivered := s'.hist.delivered)
       else
         s'.rx == s.rx && s'.head == s.head && s'.hist.delivered == s.hist.delivered && s'.hist.dropped == s.hist.dropped
  }

  /** The peer makes no move. */
  predicate Quiet(env: seq<Slice>) {
    forall i :: 0 <= i < |env| ==> env[i].moves == []
  }

  /** The flag is up and everything published has been received. */
  ghost predicate Finished(s: State) {
    s.disconnected && s.tail == s.rx.head
  }

  /** As `Finished`, by the sender itself. */
  ghost predicate Over(s: State) {
    s.tx.pc == Gone && s.tail == s.rx.head
  }

  /** The slices that have run. */
  class Schedule {
    var used: seq<Slice>

    constructor ()
      ensures used == []
    {
      used := [];
    }
  }

  class Channel {
    const cap: nat
    const mask: nat
    const shift: nat
    const buf: array<Cell>
    const clock: Schedule
    var tail: nat
    var head: nat
    var disconnected: bool
    // the handles' own fields, and where their threads are
    var tx: Sender
    var rx: Receiver
    var hist: History
    ghost var run: seq<State>

    function Abs(): State
      reads this, buf
    {
      State(cap, buf[..], tail, head, disconnected, tx, rx, hist)
    }

    /** The history is a run of the machine from an initial state. */
    ghost predicate Logged()
      reads this`run
      ensures Logged() ==> |run| > 0
    {
      cap == Pow2(shift) && mask == cap - 1 && buf.Length == cap && IsRun(run) && Init(run[0])
    }

    /** ... and it has led to the present state. */
    ghost predicate Valid()
      reads this, buf
    {
      Logged() && run[|run| - 1] == Abs()
    }

    /** The state is valid, and `past` is a beginning of its history. */
    ghost predicate Since(past: seq<State>)
      reads this, buf
      ensures Since(past) ==> Valid() && 0 < |past| <= |run|
    {
      |past| > 0 && Valid() && past <= run && Grows(past[|past| - 1], Abs())
    }

    /** Between two points of one history the histories only grow. */
    lemma SinceThen(past: seq<State>, middle: seq<State>)
      requires Since(middle) && |past| > 0 && past <= middle && Grows(past[|past| - 1], middle[|middle| - 1])
      ensures Since(past)
    {
      hide Valid;
    }

    lemma Pin(past: seq<State>)
      requires Since(past)
      ensures Since(run) && past <= run && Grows(past[|past| - 1], run[|run| - 1]) && run[|run| - 1] == Abs()
    {
    }

    /** What was published then is still published, and a flag that was up is up. */
    lemma StillThere(past: seq<State>)
      requires Since(past)
      ensures past[|past| - 1].tail <= tail && (past[|past| - 1].disconnected ==> disconnected)
      ensures past[|past| - 1].rx.drained ==> rx.drained
      ensures Over(past[|past| - 1]) && rx.head == past[|past| - 1].rx.head ==> Over(Abs())
    {
    }

    lemma DrainedStill(past: seq<State>)
      requires Since(past) && past[|past| - 1].rx.drained
      ensures rx.drained && hist.log == past[|past| - 1].hist.log
    {
    }

    /** A sender that is gone publishes nothing more. */
    lemma GoneForGood(past: seq<State>)
      requires Since(past) && past[|past| - 1].tx.pc == Gone
      ensures tail == past[|past| - 1].tail
    {
    }

    /** While the receiver is there, the flag is the sender's. */
    lemma FlagIsSenders()
      requires Valid() && rx.pc != Left
      ensures disconnected <==> tx.pc == Gone
      ensures Over(Abs()) <==> Finished(Abs())
    {
      Reached();
      FlagMeansGone(Abs());
    }

    lemma DrainedIsOver()
      requires Valid() && rx.pc == Resting
      ensures rx.drained ==> Over(Abs())
    {
      Reached();
      if rx.drained { DrainedOver(Abs()); }
    }

    lemma SinceNow()
      requires Valid()
      ensures Since(run) && run[|run| - 1] == Abs()
    {
    }

    lemma Reached()
      requires Valid()
      ensures Reachable(Abs()) && buf.Length == cap
    {
    }

    /** The mask computes the slot. */
    lemma IndexOf(q: nat)
      requires Valid()
      ensures 0 < cap && And(q, mask) == SlotOf(q, cap) < buf.Length == cap
    {
      hide Init, IsRun, And, SlotOf;
      MaskIsSlot(q, shift);
    }

    constructor (shift: nat)
      requires Pow2(shift) <= USIZE_MAX
      ensures Valid() && fresh(buf) && fresh(clock) && run == [Abs()] && Init(Abs()) && cap == Pow2(shift)
    {
      this.shift, cap, mask := shift, Pow2(shift), Pow2(shift) - 1;
      buf := new Cell[Pow2(shift)](_ => None);
      clock := new Schedule();
      tail, head, disconnected := 0, 0, false;
      tx, rx := Sender(Idle, 0, 0), Receiver(Resting, 0, 0, false);
      hist := History([], [], [], [], None, false);
      new;
      run := [Abs()];
    }

    // ---------- the peer ----------

    /** The move that has just been made joins the history. */
    ghost method Record(m: Move, past: seq<State>)
      requires Logged() && |past| > 0 && past <= run && Grows(past[|past| - 1], run[|run| - 1])
      requires Enabled(run[|run| - 1], m) && Abs() == Apply(run[|run| - 1], m) && Grows(run[|run| - 1], Abs())
      modifies this`run
      ensures Since(past) && run == old(run) + [Abs()]
    {
      hide Enabled, Apply, Init, IsRun, Next;
      RunAppend(run, m, Abs());
      run := run + [Abs()];
    }

    method Store(s: State)
      requires s.cap == cap == |s.buf| == buf.Length
      modifies this, buf
      ensures Abs() == s && run == old(run)
    {
      forall i | 0 <= i < buf.Length { buf[i] := s.buf[i]; }
      tail, head, disconnected, tx, rx, hist := s.tail, s.head, s.disconnected, s.tx, s.rx, s.hist;
      assert buf[..] == s.buf;
    }

    method Execute(m: Move, ghost past: seq<State>)
      requires Since(past) && Enabled(Abs(), m)
      modifies this, buf
      ensures Since(past) && Abs() == Apply(old(Abs()), m) && run == old(run) + [Abs()]
    {
      hide Enabled, Apply, Reachable, Logged, Grows;
      Reached();
      ApplyFits(Abs(), m);
      Store(Apply(Abs(), m));
      Record(m, past);
    }

    /** The peer runs for a while. */
    method Pause(me: Actor, env: seq<Slice>, ghost past: seq<State>) returns (rest: seq<Slice>)
      requires Since(past)
      modifies this, buf, clock
      ensures Since(past) && Undisturbed(me, old(Abs()), Abs())
      ensures rest == (if env == [] then [] else env[1..])
      ensures env == [] || env[0].moves == [] ==> Abs() == old(Abs()) && run == old(run)
      ensures clock.used + rest == old(clock.used) + env
    {
      hide Since, Valid, Enabled, Apply, Foreign, Reachable;
      rest := [];
      if env != [] {
        rest := env[1..];
        clock.used := clock.used + [env[0]];
        for i := 0 to |env[0].moves|
          invariant Since(past) && Undisturbed(me, old(Abs()), Abs()) && clock.used == old(clock.used) + [env[0]]
          invariant i == 0 ==> Abs() == old(Abs()) && run == old(run)
        {
          var m := env[0].moves[i];
          if Enabled(Abs(), m) && Foreign(me, m) {
            Reached();
            ForeignMove(me, old(Abs()), Abs(), m);
            Execute(m, past);
          }
        }
      }
    }

    // ---------- the sender's accesses ----------

    method HandBack(v: Ticket)
      requires v < |hist.fate|
      modifies this`tx, this`hist
      ensures tx == old(tx).(pc := Idle)
      ensures hist == old(hist).(returned := old(hist).returned + [v], fate := old(hist).fate[v := HandedBack(|old(hist).returned|)])
    {
      hist := hist.(returned := hist.returned + [v], fate := hist.fate[v := HandedBack(|hist.returned|)]);
      tx := tx.(pc := Idle);
    }

    /** An access of the sender leaves the receiver's fields, the head and the flag alone. */
    ghost predicate ReceiverSame(s: State)
      reads this
    {
      rx == s.rx && head == s.head && disconnected == s.disconnected
    }

    /** The error of the call that began with `before` returned payload `v`, and the log is as it was. */
    ghost predicate Returned(before: History, v: Ticket)
      reads this
    {
      && tx.pc == Idle && hist.returned == before.returned + [v] && hist.log == before.log
    }

    method BeginSend(blocking: bool, ghost past: seq<State>) returns (v: Ticket)
      requires Since(past) && tx.pc == Idle
      modifies this
      ensures Since(past) && run == old(run) + [Abs()]
      ensures v == |old(hist.fate)| && tx == old(tx).(pc := CheckGone(v, blocking)) && tail == old(tail) && ReceiverSame(old(Abs()))
      ensures hist == old(hist).(fate := old(hist.fate) + [Held])
    {
      hide Grows, Reachable, Enabled, Apply, Logged;
      Reached();
      StartMove(Abs(), StartSend(blocking));
      v := |hist.fate|;
      hist := hist.(fate := hist.fate + [Held]);
      tx := tx.(pc := CheckGone(v, blocking));
      Record(StartSend(blocking), past);
    }

    /** Load `disconnected`; the test against the cached head follows. */
    method LoadGoneTx(v: Ticket, blocking: bool, ghost past: seq<State>) returns (gone: bool)
      requires Since(past) && tx.pc == CheckGone(v, blocking)
      modifies this
      ensures Since(past) && run == old(run) + [Abs()]
      ensures gone == old(disconnected) && tail == old(tail) && ReceiverSame(old(Abs()))
      ensures if gone then Returned(old(hist), v)
              else hist == old(hist) && tx == old(tx).(pc := if tx.tail - tx.cachedHead == cap then ReloadHead(v, blocking) else Write(v))
    {
      hide Grows, Reachable, Enabled, Apply, Logged;
      Reached();
      TxMove(Abs());
      NoUnderflow(Abs());
      gone := disconnected;
      if gone {
        HandBack(v);
      } else {
        tx := tx.(pc := if tx.tail - tx.cachedHead == cap then ReloadHead(v, blocking) else Write(v));
      }
      Record(StepTx, past);
    }

    /** Load the head into the cache, and test again. */
    method ReloadCachedHead(v: Ticket, blocking: bool, ghost past: seq<State>) returns (full: bool)
      requires Since(past) && tx.pc == ReloadHead(v, blocking)
      modifies this
      ensures Since(past) && run == old(run) + [Abs()]
      ensures full == (tail == head + cap) && tail == old(tail) && ReceiverSame(old(Abs()))
      ensures full && !blocking ==> Returned(old(hist), v)
      ensures full && blocking ==> hist == old(hist) && tx == old(tx).(cachedHead := head, pc := CheckGone(v, true))
      ensures !full ==> hist == old(hist) && tx == old(tx).(cachedHead := head, pc := Write(v))
    {
      hide Grows, Reachable, Enabled, Apply, Logged;
      Reached();
      TxMove(Abs());
      NoUnderflow(Abs());
      FullExact(Abs());
      tx := tx.(cachedHead := head);
      full := tx.tail - head == cap;
      if full && !blocking {
        HandBack(v);
      } else {
        tx := tx.(pc := if full then CheckGone(v, true) else Write(v));
      }
      Record(StepTx, past);
    }

    /** Write slot `tail & mask` and advance the private tail. */
    method WriteSlot(v: Ticket, ghost past: seq<State>)
      requires Since(past) && tx.pc == Write(v)
      modifies this, buf
      ensures Since(past) && run == old(run) + [Abs()]
      ensures tx == old(tx).(tail := old(tx.tail) + 1, pc := StoreTail) && tail == old(tail) && hist.log == old(hist.log) + [v]
      ensures hist.returned == old(hist.returned) && ReceiverSame(old(Abs()))
    {
      hide Grows, Reachable, Enabled, Apply, Logged;
      Reached();
      hide SlotOf, And;
      TxMove(Abs());
      IndexOf(tx.tail);
      var i := And(tx.tail, mask);
      hist := hist.(log := hist.log + [v], fate := hist.fate[v := Accepted(|hist.log|)], fault := hist.fault || buf[i] != None);
      buf[i] := Some(v);
      tx := tx.(tail := tx.tail + 1, pc := StoreTail);
      Record(StepTx, past);
    }

    method StoreSharedTail(ghost past: seq<State>)
      requires Since(past) && tx.pc == StoreTail
      modifies this
      ensures Since(past) && run == old(run) + [Abs()]
      ensures tx == old(tx).(pc := Idle) && tail == tx.tail && hist == old(hist) && ReceiverSame(old(Abs()))
    {
      hide Grows, Reachable, Enabled, Apply, Logged;
      Reached();
      TxMove(Abs());
      tail := tx.tail;
      tx := tx.(pc := Idle);
      Record(StepTx, past);
    }

    method StoreGoneTx(ghost past: seq<State>)
      requires Since(past) && tx.pc == TxPC.StoreGone
      modifies this
      ensures Since(past) && run == old(run) + [Abs()]
      ensures tx == old(tx).(pc := Gone) && disconnected && hist == old(hist)
    {
      hide Grows, Reachable, Enabled, Apply, Logged;
      Reached();
      TxMove(Abs());
      disconnected := true;
      tx := tx.(pc := Gone);
      Record(StepTx, past);
    }

    method BeginDropTx(ghost past: seq<State>)
      requires Since(past) && tx.pc == Idle
      modifies this
      ensures Since(past) && run == old(run) + [Abs()]
      ensures tx == old(tx).(pc := TxPC.StoreGone) && hist == old(hist)
    {
      hide Grows, Reachable, Enabled, Apply, Logged;
      Reached();
      StartMove(Abs(), StartDropTx);
      tx := tx.(pc := TxPC.StoreGone);
      Record(StartDropTx, past);
    }

    // ---------- the receiver's accesses ----------

    /** An access of the receiver, short of its drop, leaves the sender's fields, the tail and the flag alone. */
    ghost predicate SenderSame(s: State)
      reads this
    {
      tx == s.tx && tail == s.tail && disconnected == s.disconnected
    }

    /** A call of the receiver begins with its local test against the cached tail. */
    method BeginRx(m: Move, pc: RxPC, ghost past: seq<State>)
      requires Since(past) && rx.pc == Resting && (m.StartRecv? || m.StartDrain? || m.StartDropRx?)
        && pc == FirstRx(Abs(), m)
      modifies this
      ensures Since(past) && run == old(run) + [Abs()]
      ensures rx == old(rx).(pc := pc) && head == old(head) && hist == old(hist) && SenderSame(old(Abs()))
    {
      hide Grows, Reachable, Enabled, Apply, Logged;
      Reached();
      StartMove(Abs(), m);
      rx := rx.(pc := pc);
      Record(m, past);
    }

    /** Load the tail into the cache. */
    method ReloadCachedTail(found: RxPC, empty: RxPC, ghost past: seq<State>) returns (isEmpty: bool)
      requires Since(past) && ((rx.pc == ReloadTail && found == Take && empty == LoadGone)
        || (rx.pc.DrainReload? && found == DrainTake(rx.pc.count, rx.pc.max) && empty == DrainStore(rx.pc.count)))
      modifies this
      ensures Since(past) && run == old(run) + [Abs()]
      ensures isEmpty == (rx.head == tail) && head == old(head) && hist == old(hist) && SenderSame(old(Abs()))
      ensures rx == old(rx).(cachedTail := tail, pc := if isEmpty then empty else found)
    {
      hide Grows, Reachable, Enabled, Apply, Logged;
      Reached();
      RxMoves(Abs(), false);
      isEmpty := rx.head == tail;
      rx := rx.(cachedTail := tail, pc := if isEmpty then empty else found);
      Record(StepRx(false), past);
    }

    method LoadGoneRx(ghost past: seq<State>) returns (gone: bool)
      requires Since(past) && rx.pc == LoadGone
      modifies this
      ensures Since(past) && run == old(run) + [Abs()]
      ensures gone == disconnected == old(disconnected) && rx == old(rx).(pc := if gone then ReloadAgain else Resting) && head == old(head) && hist == old(hist)
      ensures SenderSame(old(Abs()))
    {
      hide Grows, Reachable, Enabled, Apply, Logged;
      Reached();
      RxMoves(Abs(), false);
      gone := disconnected;
      rx := rx.(pc := if gone then ReloadAgain else Resting);
      Record(StepRx(false), past);
    }

    /** The second load of the tail. */
    method ReloadTailAgain(ghost past: seq<State>) returns (isEmpty: bool)
      requires Since(past) && rx.pc == ReloadAgain
      modifies this
      ensures Since(past) && run == old(run) + [Abs()]
      ensures isEmpty == (rx.head == tail) && head == old(head) && hist == old(hist) && SenderSame(old(Abs()))
      ensures rx == if isEmpty then old(rx).(pc := Resting, drained := true) else old(rx).(pc := Take, cachedTail := tail)
    {
      hide Grows, Reachable, Enabled, Apply, Logged;
      Reached();
      RxMoves(Abs(), false);
      isEmpty := rx.head == tail;
      rx := if isEmpty then rx.(pc := Resting, drained := true) else rx.(pc := Take, cachedTail := tail);
      Record(StepRx(false), past);
    }

    /** Read slot `head & mask` and advance the private head. */
    method TakeValue(pc: RxPC, ghost past: seq<State>) returns (v: Ticket)
      requires Since(past) && ((rx.pc == Take && pc == StoreHead) || (rx.pc.DrainTake? && pc == Callback(rx.pc.count + 1, rx.pc.max)))
      modifies this, buf
      ensures Since(past) && run == old(run) + [Abs()]
      ensures rx == old(rx).(pc := pc, head := old(rx.head) + 1) && head == old(head) && SenderSame(old(Abs()))
      ensures hist.delivered == old(hist.delivered) + [v]
    {
      hide Grows, Reachable, Enabled, Apply, Logged;
      Reached();
      hide SlotOf, And;
      RxMoves(Abs(), false);
      TakeFinds(Abs());
      IndexOf(rx.head);
      var i := And(rx.head, mask);
      v := buf[i].value;
      buf[i] := None;
      hist := hist.(delivered := hist.delivered + [v]);
      rx := rx.(pc := pc, head := rx.head + 1);
      Record(StepRx(false), past);
    }

    /** Store the private head, unless a drain has taken nothing. */
    method StoreSharedHead(ghost past: seq<State>)
      requires Since(past) && (rx.pc == StoreHead || rx.pc.DrainStore?)
      modifies this
      ensures Since(past) && run == old(run) + [Abs()]
      ensures rx == old(rx).(pc := Resting) && head == rx.head && hist == old(hist) && SenderSame(old(Abs()))
    {
      hide Grows, Reachable, Enabled, Apply, Logged;
      Reached();
      RxMoves(Abs(), false);
      IdleDrain(Abs());
      if !(rx.pc.DrainStore? && rx.pc.count == 0) { head := rx.head; }
      rx := rx.(pc := Resting);
      Record(StepRx(false), past);
    }

    /** The callback of `drain` returns, or unwinds. */
    method ReturnFromCallback(unwinds: bool, ghost past: seq<State>)
      requires Since(past) && rx.pc.Callback?
      modifies this
      ensures Since(past) && run == old(run) + [Abs()]
      ensures rx == old(rx).(pc := AfterCallback(old(Abs()), unwinds)) && head == old(head) && hist == old(hist) && SenderSame(old(Abs()))
    {
      hide Grows, Reachable, Enabled, Apply, Logged;
      Reached();
      RxMoves(Abs(), unwinds);
      rx := rx.(pc := AfterCallback(Abs(), unwinds));
      Record(StepRx(unwinds), past);
    }

    method StoreGoneRx(ghost past: seq<State>)
      requires Since(past) && rx.pc == StoreClosed
      modifies this
      ensures Since(past) && run == old(run) + [Abs()]
      ensures rx == old(rx).(pc := Left) && disconnected && hist == old(hist) && head == old(head)
    {
      hide Grows, Reachable, Enabled, Apply, Logged;
      Reached();
      RxMoves(Abs(), false);
      disconnected := true;
      rx := rx.(pc := Left);
      Record(StepRx(false), past);
    }


    // ---------- moments of the history ----------

    /** At this point the published payloads were a whole lap ahead of the head. */
    ghost predicate FoundFull(moment: nat)
      reads this`run
    {
      moment < |run| && run[moment].tail == run[moment].head + cap
    }

    ghost predicate FoundGone(moment: nat)
      reads this`run
    {
      moment < |run| && run[moment].disconnected
    }

    /** At this point the queue was empty. */
    ghost predicate FoundEmpty(moment: nat)
      reads this`run
    {
      moment < |run| && run[moment].tail == run[moment].rx.head
    }

    lemma EmptyStays(middle: seq<State>, moment: nat)
      requires Since(middle) && moment < |middle| && middle[moment].tail == middle[moment].rx.head
      ensures FoundEmpty(moment)
    {
    }

    lemma OpenStays(middle: seq<State>, moment: nat)
      requires Since(middle) && moment < |middle| && (middle[moment].disconnected ==> middle[|middle| - 1].disconnected)
      requires !disconnected
      ensures !FoundGone(moment)
    {
    }

    // ---------- Sender ----------

    method YieldTx(env: seq<Slice>, ghost past: seq<State>) returns (rest: seq<Slice>, ghost now: State)
      requires Since(past)
      modifies this, buf, clock
      ensures Since(past) && tx == old(tx) && tail == old(tail) && hist == old(hist).(delivered := hist.delivered)
      ensures old(head) <= head && (old(disconnected) ==> disconnected)
      ensures rest == (if env == [] then [] else env[1..])
      ensures env == [] || env[0].moves == [] ==> Abs() == old(Abs())
      ensures run[|run| - 1] == now == Abs()
      ensures clock.used + rest == old(clock.used) + env
    {
      hide Valid;
      rest := Pause(Sending, env, past);
      Pin(past);
      now := Abs();
    }

    /** The slot is written and the tail stored: the payload is published. */
    method Publish(v: Ticket, env: seq<Slice>, ghost past: seq<State>) returns (rest: seq<Slice>)
      requires Since(past) && tx.pc == Write(v)
      modifies this, buf, clock
      ensures Since(past) && |rest| <= |env| && tx.pc == Idle && tail == tx.tail == old(tx.tail) + 1
      ensures hist.log == old(hist.log) + [v] && hist.returned == old(hist.returned)
      ensures old(head) <= head
      ensures Quiet(env) ==> Quiet(rest) && ReceiverSame(old(Abs()))
      ensures clock.used + rest == old(clock.used) + env
    {
      hide Since, Valid, Grows;
      ghost var now;
      rest, now := YieldTx(env, past);
      WriteSlot(v, past);
      rest, now := YieldTx(rest, past);
      StoreSharedTail(past);
    }

    /** The cached head looks a lap behind: it is loaded again. */
    method ReloadAndTest(v: Ticket, blocking: bool, env: seq<Slice>, ghost past: seq<State>) returns (full: bool, rest: seq<Slice>, ghost moment: nat)
      requires Since(past) && tx.pc == ReloadHead(v, blocking)
      modifies this, buf, clock
      ensures Since(past) && |past| <= moment + 1 && |rest| <= |env|
      ensures tail == old(tail) && (!full ==> tx.tail == old(tx.tail)) && hist.log == old(hist.log) && old(head) <= head && (old(disconnected) ==> disconnected)
      ensures full ==> FoundFull(moment) && old(head) + cap <= tail
      ensures full && !blocking ==> tx.pc == Idle && hist.returned == old(hist.returned) + [v]
      ensures full && blocking ==> tx.pc == CheckGone(v, true) && hist == old(hist).(delivered := hist.delivered)
      ensures !full ==> tx.pc == Write(v) && hist == old(hist).(delivered := hist.delivered)
      ensures Quiet(env) ==> Quiet(rest) && ReceiverSame(old(Abs())) && (full ==> tail == head + cap)
      ensures clock.used + rest == old(clock.used) + env
    {
      hide Since, Valid, Grows, Logged;
      ghost var now;
      rest, now := YieldTx(env, past);
      moment := |run| - 1;
      full := ReloadCachedHead(v, blocking, past);
    }

    /** One pass of `try_send` over a payload that the call already owns. */
    method Offer(v: Ticket, blocking: bool, env: seq<Slice>, ghost past: seq<State>)
        returns (r: SendResult, rest: seq<Slice>, ghost moment: nat)
      requires Since(past) && tx.pc == CheckGone(v, blocking)
      modifies this, buf, clock
      ensures Since(past) && |past| <= moment + 1 && |rest| <= |env| && (env != [] ==> |rest| < |env|)
      ensures r == Sent ==> tx.pc == Idle && hist.log == old(hist.log) + [v] && tail == |hist.log| == old(tail) + 1 && hist.returned == old(hist.returned)
      ensures r == Full ==> FoundFull(moment) && tail == old(tail) && hist.log == old(hist.log)
      ensures r == Full && !blocking ==> tx.pc == Idle && hist.returned == old(hist.returned) + [v]
      ensures r == Full && blocking ==> tx.pc == CheckGone(v, true) && hist == old(hist).(delivered := hist.delivered)
      ensures r == Disconnected ==> FoundGone(moment) && tx.pc == Idle && hist.log == old(hist.log) && hist.returned == old(hist.returned) + [v]
      ensures (old(disconnected) ==> r == Disconnected) && (old(tail) < old(head) + cap ==> r != Full)
      ensures Quiet(env) ==> ReceiverSame(old(Abs())) && (!old(disconnected) ==> r != Disconnected)
      ensures Quiet(env) ==> Quiet(rest) && (r == Full ==> tail == head + cap) && (r == Sent ==> old(tail) < old(head) + cap)
      ensures old(head) <= head
      ensures clock.used + rest == old(clock.used) + env
    {
      hide Since, Valid, Grows, Logged;
      AllPublished();
      ghost var now;
      rest, now := YieldTx(env, past);
      moment := |run| - 1;
      var gone := LoadGoneTx(v, blocking, past);
      if gone {
        return Disconnected, rest, moment;
      }
      if tx.pc.ReloadHead? {
        var full;
        full, rest, moment := ReloadAndTest(v, blocking, rest, past);
        if full {
          return Full, rest, moment;
        }
      }
      TrueRoom();
      AllPublished();
      rest := Publish(v, rest, past);
      AllPublished();
      moment := |run| - 1;
      r := Sent;
    }

    /** A sender about to write has room by the true head. */
    lemma TrueRoom()
      requires Valid() && tx.pc.Write?
      ensures tx.tail < head + cap
    {
      Reached();
      WriterHasRoom(Abs());
    }

    lemma AllPublished()
      requires Valid()
      ensures tx.tail == |hist.log| && (tx.pc != StoreTail ==> tail == tx.tail)
    {
      Reached();
      LogIsTail(Abs());
    }

    /** `Sender::try_send`. On `Sent` the payload is the newest of the log and published; on an error it went
        back to the caller and the log is as it was, and the reason held at one state of the call. */
    method TrySend(env: seq<Slice>) returns (r: SendResult, v: Ticket, rest: seq<Slice>, ghost moment: nat)
      requires Valid() && tx.pc == Idle
      modifies this, buf, clock
      ensures Since(old(run)) && tx.pc == Idle && v == |old(hist.fate)|
      ensures r == Sent ==> hist.log == old(hist.log) + [v] && tail == |hist.log| == old(tail) + 1 && hist.returned == old(hist.returned)
      ensures r != Sent ==> hist.log == old(hist.log) && hist.returned == old(hist.returned) + [v]
      ensures r == Full ==> FoundFull(moment) && |old(run)| <= moment
      ensures r == Disconnected ==> FoundGone(moment) && |old(run)| <= moment
      ensures (old(disconnected) ==> r == Disconnected) && (old(tail) < old(head) + cap ==> r != Full)
      ensures Quiet(env) ==> ReceiverSame(old(Abs())) && (!old(disconnected) ==> r != Disconnected)
      ensures clock.used + rest == old(clock.used) + env
    {
      hide Since, Valid, Grows;
      SinceNow();
      ghost var before := run;
      v := BeginSend(false, before);
      Pin(before);
      ghost var begun := run;
      r, rest, moment := Offer(v, false, env, begun);
      SinceThen(before, begun);
    }

    lemma FullStays(middle: seq<State>, moment: nat)
      requires Since(middle) && moment < |middle| && middle[moment].tail == middle[moment].head + cap
      ensures FoundFull(moment)
    {
    }

    /** `Sender::send`: it never returns `Full`. `None` says that the schedule has ended, and that the ring was full at the
        last attempt and is full now. */
    method Send(env: seq<Slice>) returns (r: Option<SendResult>, v: Ticket, rest: seq<Slice>, ghost moment: nat)
      requires Valid() && tx.pc == Idle
      modifies this, buf, clock
      ensures Since(old(run)) && v == |old(hist.fate)| && |old(run)| <= moment
      ensures r == Some(Sent) ==> tx.pc == Idle && hist.log == old(hist.log) + [v] && tail == |hist.log| && hist.returned == old(hist.returned)
      ensures r == Some(Disconnected) ==>
                tx.pc == Idle && hist.log == old(hist.log) && hist.returned == old(hist.returned) + [v] && FoundGone(moment)
      ensures r == None ==> rest == [] && tx.pc == CheckGone(v, true) && hist.log == old(hist.log) && hist.returned == old(hist.returned)
      ensures r == None ==> FoundFull(moment) && tail == head + cap && !disconnected
      ensures r != Some(Full) && (old(disconnected) ==> r == Some(Disconnected))
      ensures Quiet(env) && !old(disconnected) ==> r == if old(tail) < old(head) + cap then Some(Sent) else None
      ensures clock.used + rest == old(clock.used) + env
    {
      hide Since, Valid, Grows, FoundGone;
      SinceNow();
      ghost var before := run;
      v := BeginSend(true, before);
      Pin(before);
      ghost var begun := run;
      rest, r, moment := env, None, |run|;
      var last := false;
      while r == None && !last
        invariant clock.used + rest == old(clock.used) + env
        invariant Since(begun) && |begun| <= moment + 1 && r != Some(Full)
        invariant r == None ==> tx.pc == CheckGone(v, true) && hist.log == old(hist.log) && hist.returned == old(hist.returned)
        invariant r == None ==> (old(disconnected) ==> disconnected && !last) && tail == old(tail) && old(head) <= head
        invariant r == None && last ==> rest == [] && FoundFull(moment) && tail == head + cap && !disconnected
        invariant r == Some(Sent) ==> tx.pc == Idle && hist.log == old(hist.log) + [v] && tail == |hist.log| && hist.returned == old(hist.returned)
        invariant r == Some(Disconnected) ==>
                    tx.pc == Idle && hist.log == old(hist.log) && hist.returned == old(hist.returned) + [v] && FoundGone(moment)
        invariant old(disconnected) && r != None ==> r == Some(Disconnected)
        invariant Quiet(env) ==> Quiet(rest) && ReceiverSame(old(Abs()))
        invariant Quiet(env) && !old(disconnected) && r != None ==> r == Some(Sent) && old(tail) < old(head) + cap
        invariant Quiet(env) && last && r == None ==> old(tail) == old(head) + cap
        decreases r == None && !last, |rest|
      {
        last := rest == [];
        var result;
        result, rest, moment := Offer(v, true, rest, begun);
        if result != Full { r := Some(result); }
      }
      SinceThen(before, begun);
    }

    /** Dropping the sender. */
    method DropSender(env: seq<Slice>) returns (rest: seq<Slice>)
      requires Valid() && tx.pc == Idle
      modifies this, buf, clock
      ensures Since(old(run)) && tx.pc == Gone && disconnected && hist.log == old(hist.log) && hist.returned == old(hist.returned)
      ensures clock.used + rest == old(clock.used) + env
    {
      hide Since, Valid, Grows;
      SinceNow();
      ghost var before := run;
      BeginDropTx(before);
      ghost var now;
      rest, now := YieldTx(env, before);
      StoreGoneTx(before);
    }

    // ---------- Receiver ----------

    method YieldRx(env: seq<Slice>, ghost past: seq<State>) returns (rest: seq<Slice>, ghost now: State)
      requires Since(past)
      modifies this, buf, clock
      ensures Since(past) && rx == old(rx) && head == old(head) && hist.delivered == old(hist.delivered)
      ensures old(tail) <= tail && (old(disconnected) ==> disconnected)
      ensures rest == (if env == [] then [] else env[1..])
      ensures env == [] || env[0].moves == [] ==> Abs() == old(Abs())
      ensures run[|run| - 1] == now == Abs()
      ensures clock.used + rest == old(clock.used) + env
    {
      hide Valid;
      rest := Pause(Receiving, env, past);
      Pin(past);
      now := Abs();
    }

    /** The slot is read and the head stored. */
    method Receive(env: seq<Slice>, ghost past: seq<State>) returns (v: Ticket, rest: seq<Slice>)
      requires Since(past) && rx.pc == Take
      modifies this, buf, clock
      ensures Since(past) && |rest| <= |env| && rx.pc == Resting
      ensures head == rx.head == old(rx.head) + 1 && hist.delivered == old(hist.delivered) + [v]
      ensures Quiet(env) ==> Quiet(rest) && SenderSame(old(Abs()))
      ensures rx.drained == old(rx.drained)
      ensures clock.used + rest == old(clock.used) + env
    {
      hide Since, Valid, Grows;
      ghost var now;
      rest, now := YieldRx(env, past);
      v := TakeValue(StoreHead, past);
      rest, now := YieldRx(rest, past);
      StoreSharedHead(past);
    }

    /** The loads of `try_recv` when its cached tail is used up. */
    method Refresh(env: seq<Slice>, ghost past: seq<State>) returns (r: RecvResult, rest: seq<Slice>, ghost moment: nat)
      requires Since(past) && rx.pc == ReloadTail && rx.head <= tail
      modifies this, buf, clock
      ensures Since(past) && |past| <= moment + 1 && |rest| <= |env| && (env != [] ==> |rest| < |env|)
      ensures rx.head == old(rx.head) && head == old(head) && hist.delivered == old(hist.delivered)
      ensures r.Received? ==> rx.pc == Take
      ensures (old(tail) != rx.head ==> r.Received?) && (old(disconnected) ==> r != Empty)
      ensures r == Empty ==> rx.pc == Resting && FoundEmpty(moment) && !FoundGone(moment)
      ensures r == Closed ==> rx.pc == Resting && rx.drained
      ensures Quiet(env) ==> Quiet(rest) && SenderSame(old(Abs()))
      ensures rx.drained == (old(rx.drained) || r.Closed?)
      ensures clock.used + rest == old(clock.used) + env
    {
      hide Since, Valid, Grows;
      ghost var now;
      rest, now := YieldRx(env, past);
      moment := |run| - 1;
      var isEmpty := ReloadCachedTail(Take, LoadGone, past);
      r := Received(0);
      if isEmpty {
        Pin(past);
        ghost var loaded := run;
        r, rest := DecideEmpty(rest, loaded);
        EmptyStays(loaded, moment);
        if r == Empty { OpenStays(loaded, moment); }
        SinceThen(past, loaded);
      }
    }

    /** The tail has been seen at the head: `disconnected`, and the tail once more if it is set. */
    method DecideEmpty(env: seq<Slice>, ghost past: seq<State>) returns (r: RecvResult, rest: seq<Slice>)
      requires Since(past) && rx.pc == LoadGone
      modifies this, buf, clock
      ensures Since(past) && |rest| <= |env|
      ensures rx.head == old(rx.head) && head == old(head) && hist.delivered == old(hist.delivered)
      ensures r.Received? ==> rx.pc == Take
      ensures old(disconnected) ==> r != Empty
      ensures r == Empty ==> rx.pc == Resting && !disconnected
      ensures r == Closed ==> rx.pc == Resting && rx.drained
      ensures Quiet(env) ==> Quiet(rest) && SenderSame(old(Abs()))
      ensures rx.drained == (old(rx.drained) || r.Closed?)
      ensures clock.used + rest == old(clock.used) + env
    {
      hide Since, Valid, Grows;
      ghost var now;
      rest, now := YieldRx(env, past);
      var gone := LoadGoneRx(past);
      r := Empty;
      if gone {
        rest, now := YieldRx(rest, past);
        var isEmpty := ReloadTailAgain(past);
        r := if isEmpty then Closed else Received(0);
      }
    }

    /** What has been delivered is the log up to the private head. */
    lemma InOrder()
      requires Valid()
      ensures hist.delivered <= hist.log && |hist.delivered| == rx.head
      ensures rx.drained ==> hist.delivered == hist.log && disconnected
    {
      Reached();
      DeliveredIsPrefixOfLog(Abs());
      if rx.drained { DrainedIsDone(Abs()); }
    }

    /** Between its operations the receiver has published its head. */
    lemma AtRest()
      requires Valid() && rx.pc == Resting
      ensures head == rx.head
    {
      Reached();
      RestingHead(Abs());
    }

    lemma NeverAhead()
      requires Valid()
      ensures head <= rx.head <= tail
    {
      Reached();
      NoFault(Abs());
    }

    /** `Receiver::try_recv`. A payload is the oldest one not yet delivered; at one state of a call that returned
        `Empty` the queue was empty and nobody had disconnected; `Disconnected` (here `Closed`) means that the sender is gone and everything has been delivered. */
    method TryRecv(env: seq<Slice>) returns (r: RecvResult, rest: seq<Slice>, ghost moment: nat)
      requires Valid() && rx.pc == Resting
      modifies this, buf, clock
      ensures Since(old(run)) && rx.pc == Resting
      ensures (old(tail) > old(rx.head) ==> r.Received?) && (old(disconnected) ==> r != Empty) && (old(rx.drained) ==> r == Closed)
      ensures |rest| <= |env| && (r == Empty && env != [] ==> |rest| < |env|)
      ensures Quiet(env) ==> SenderSame(old(Abs()))
      ensures match r
        case Received(v) => head == rx.head == old(rx.head) + 1 && hist.delivered == old(hist.delivered) + [v]
          && old(rx.head) < |hist.log| && v == hist.log[old(rx.head)]
        case Empty => rx.head == old(rx.head) && hist.delivered == old(hist.delivered) && |old(run)| <= moment
          && FoundEmpty(moment) && !FoundGone(moment)
        case Closed => rx.drained && disconnected && hist.delivered == old(hist.delivered) == hist.log && rx.head == old(rx.head)
      ensures rx.drained == (old(rx.drained) || r.Closed?) && old(tail) <= tail && rx.head <= tail
      ensures Finished(old(Abs())) ==> r == Closed
      ensures Quiet(env) ==> if old(tail) > old(rx.head) then r.Received? else r == if old(disconnected) then Closed else Empty
      ensures Over(old(Abs())) ==> r == Closed
      ensures clock.used + rest == old(clock.used) + env
    {
      hide Since, Valid, Grows, FoundEmpty;
      SinceNow();
      ghost var before := run;
      InOrder();
      NeverAhead();
      FlagIsSenders();
      BeginRx(StartRecv, FirstRx(Abs(), StartRecv), before);
      Pin(before);
      ghost var begun := run;
      r, rest, moment := Received(0), env, 0;
      if rx.pc == ReloadTail {
        r, rest, moment := Refresh(env, begun);
      }
      if r.Received? {
        var v;
        v, rest := Receive(rest, begun);
        r := Received(v);
      }
      SinceThen(before, begun);
      InOrder();
      StillThere(before);
      NeverAhead();
      if Finished(old(Abs())) { GoneForGood(before); }
      if old(rx.drained) { DrainedStill(before); }
    }

    /** `Receiver::recv`: it never returns `Empty`. `None` says that the schedule has ended, and that the ring was empty with
        a sender at the last attempt and is so now. */
    method Recv(env: seq<Slice>) returns (r: Option<RecvResult>, rest: seq<Slice>, ghost moment: nat)
      requires Valid() && rx.pc == Resting
      modifies this, buf, clock
      ensures Since(old(run)) && rx.pc == Resting
      ensures match r
        case None => hist.delivered == old(hist.delivered) && rx.head == old(rx.head) && rest == []
          && tail == rx.head && !disconnected && FoundEmpty(moment) && !FoundGone(moment) && |old(run)| <= moment
        case Some(Received(v)) => hist.delivered == old(hist.delivered) + [v] && old(rx.head) < |hist.log| && v == hist.log[old(rx.head)]
          && head == rx.head == old(rx.head) + 1
        case Some(Closed) => rx.drained && hist.delivered == old(hist.delivered) == hist.log
        case Some(Empty) => false
      ensures old(tail) > old(rx.head) ==> r.Some? && r.value.Received?
      ensures (old(disconnected) ==> r.Some?) && (old(rx.drained) || Finished(old(Abs())) ==> r == Some(Closed))
      ensures rx.drained == (old(rx.drained) || r == Some(Closed))
      ensures clock.used + rest == old(clock.used) + env
    {
      hide Since, Valid, Grows, FoundEmpty, FoundGone, Finished;
      SinceNow();
      ghost var before := run;
      rest, r, moment := env, None, 0;
      var last := false;
      while r == None && !last
        invariant clock.used + rest == old(clock.used) + env
        invariant Since(before) && rx.pc == Resting && r != Some(Empty) && old(tail) <= tail
        invariant r == None ==> rx.head == old(rx.head) && hist.delivered == old(hist.delivered) && (old(disconnected) ==> disconnected && !last)
        invariant r == None && last ==> rest == [] && tail == rx.head && !disconnected && FoundEmpty(moment) && !FoundGone(moment) && |before| <= moment
        invariant r.Some? && r.value.Received? ==> (
          && head == rx.head == old(rx.head) + 1 && hist.delivered == old(hist.delivered) + [r.value.value]
          && old(rx.head) < |hist.log| && r.value.value == hist.log[old(rx.head)])
        invariant r == Some(Closed) ==> rx.drained && hist.delivered == old(hist.delivered) == hist.log
        invariant old(tail) > old(rx.head) ==> if r == None then !last else r.value.Received?
        invariant rx.drained == (old(rx.drained) || r == Some(Closed))
        invariant old(rx.drained) || Finished(old(Abs())) ==>
                    if r == None then !last && (old(rx.drained) ==> rx.drained) && (Finished(old(Abs())) ==> Finished(Abs())) else r == Some(Closed)
        decreases r == None && !last, |rest|
      {
        last := rest == [];
        Pin(before);
        ghost var again := run;
        var result;
        result, rest, moment := TryRecv(rest);
        SinceThen(before, again);
        if result != Empty { r := Some(result); }
      }
    }

    /** One item of a drain: the callback unwinds if `unwinds` says so of its `count`-th call. `None` says that the
        queue was empty at `moment`. */
    method DrainOne(count: nat, max: nat, unwinds: nat -> bool, env: seq<Slice>, ghost past: seq<State>)
        returns (got: Option<Ticket>, unwound: bool, rest: seq<Slice>, ghost moment: nat)
      requires Since(past) && count < max && rx.pc == DrainNext(Abs(), count, max)
      modifies this, buf, clock
      ensures Since(past) && |past| <= moment + 1 && head == old(head) && old(tail) <= tail
      ensures match got
        case None => (
          && rx.pc == DrainStore(count) && rx.head == old(rx.head) && !unwound && hist.delivered == old(hist.delivered) && FoundEmpty(moment)
          && old(tail) <= rx.head)
        case Some(v) => (
          && rx.head == old(rx.head) + 1 && hist.delivered == old(hist.delivered) + [v] && count < cap
          && rx.pc == (if unwound then DrainStore(count + 1) else DrainNext(Abs(), count + 1, max)) && unwound == unwinds(count))
      ensures Quiet(env) ==> Quiet(rest) && SenderSame(old(Abs()))
      ensures old(tail) > old(rx.head) ==> got.Some?
      ensures got == None ==> run[moment].rx.head == rx.head
      ensures clock.used + rest == old(clock.used) + env
    {
      hide Since, Valid, Grows;
      ghost var now;
      got, unwound, rest, moment := None, false, env, |run| - 1;
      if rx.pc.DrainReload? {
        rest, now := YieldRx(env, past);
        moment := |run| - 1;
        var isEmpty := ReloadCachedTail(DrainTake(count, max), DrainStore(count), past);
        if isEmpty {
          return;
        }
      }
      got, unwound, rest := DrainTakeOne(count, max, unwinds, rest, past);
    }

    method DrainTakeOne(count: nat, max: nat, unwinds: nat -> bool, env: seq<Slice>, ghost past: seq<State>)
        returns (got: Option<Ticket>, unwound: bool, rest: seq<Slice>)
      requires Since(past) && rx.pc == DrainTake(count, max)
      modifies this, buf, clock
      ensures Since(past) && head == old(head) && got.Some? && old(tail) <= tail
      ensures rx.head == old(rx.head) + 1 && hist.delivered == old(hist.delivered) + [got.value] && count < cap
      ensures rx.pc == if unwound then DrainStore(count + 1) else DrainNext(Abs(), count + 1, max)
      ensures unwound == unwinds(count)
      ensures Quiet(env) ==> Quiet(rest) && SenderSame(old(Abs()))
      ensures clock.used + rest == old(clock.used) + env
    {
      hide Since, Valid, Grows;
      ghost var now;
      rest, now := YieldRx(env, past);
      var v := TakeValue(Callback(count + 1, max), past);
      DrainMoment();
      rest, now := YieldRx(rest, past);
      unwound := unwinds(count);
      ReturnFromCallback(unwound, past);
      got := Some(v);
    }

    /** A drain has never taken more than the capacity. */
    lemma DrainMoment()
      requires Valid() && rx.pc.Callback?
      ensures rx.pc.count <= cap
    {
      Reached();
      DrainIsBounded(Abs());
    }

    /** `Receiver::drain` with a callback that unwinds on those of its calls of which `unwinds` says so. The loop ends
        after at most `cap` items, even while the sender refills: that is its variant. The drain ends where the callback
        unwinds first; if it does not, fewer than `max` items mean that the queue was empty. */
    method Drain(max: nat, unwinds: nat -> bool, env: seq<Slice>)
        returns (count: nat, items: seq<Ticket>, unwound: bool, rest: seq<Slice>, ghost moment: nat)
      requires Valid() && rx.pc == Resting
      modifies this, buf, clock
      ensures Since(old(run)) && rx.pc == Resting
      ensures count == |items| <= max && count <= cap
      ensures head == rx.head == old(rx.head) + count && hist.delivered == old(hist.delivered) + items
      ensures hist.delivered <= hist.log
      ensures unwound <==> count > 0 && unwinds(count - 1)
      ensures forall k :: 0 <= k < count - 1 ==> !unwinds(k)
      ensures !unwound && count < max ==> old(tail) <= rx.head
      ensures !unwound && count < max ==> FoundEmpty(moment) && |old(run)| <= moment < |run| && run[moment].rx.head == rx.head
      ensures Quiet(env) ==> SenderSame(old(Abs()))
      ensures max > 0 && old(tail) > old(rx.head) ==> count > 0
      ensures clock.used + rest == old(clock.used) + env
    {
      hide Since, Valid, Grows, FoundEmpty;
      SinceNow();
      ghost var before := run;
      InOrder();
      BeginRx(StartDrain(max), FirstRx(Abs(), StartDrain(max)), before);
      Pin(before);
      ghost var begun := run;
      count, items, unwound, rest, moment := DrainLoop(max, unwinds, env, begun);
      Pin(begun);
      ghost var looped := run;
      FoundThere(moment);
      ghost var now;
      rest, now := YieldRx(rest, looped);
      StoreSharedHead(looped);
      if !unwound && count < max { EmptyStays(looped, moment); MomentStays(looped, moment); }
      SinceThen(begun, looped);
      SinceThen(before, begun);
      InOrder();
    }

    lemma MomentStays(middle: seq<State>, moment: nat)
      requires Since(middle) && moment < |middle|
      ensures moment < |run| && run[moment] == middle[moment]
    {
    }

    lemma FoundThere(moment: nat)
      ensures FoundEmpty(moment) ==> moment < |run| && run[moment].tail == run[moment].rx.head
    {
    }

    method DrainLoop(max: nat, unwinds: nat -> bool, env: seq<Slice>, ghost past: seq<State>)
        returns (count: nat, items: seq<Ticket>, unwound: bool, rest: seq<Slice>, ghost moment: nat)
      requires Since(past) && rx.pc == DrainNext(Abs(), 0, max)
      modifies this, buf, clock
      ensures Since(past) && |past| <= moment + 1 && count == |items| <= max && count <= cap && head == old(head)
      ensures rx.pc == DrainStore(count) && rx.head == old(rx.head) + count && hist.delivered == old(hist.delivered) + items
      ensures unwound <==> count > 0 && unwinds(count - 1)
      ensures forall k :: 0 <= k < count - 1 ==> !unwinds(k)
      ensures !unwound && count < max ==> FoundEmpty(moment) && old(tail) <= rx.head && run[moment].rx.head == rx.head
      ensures Quiet(env) ==> Quiet(rest) && SenderSame(old(Abs()))
      ensures max > 0 && old(tail) > old(rx.head) ==> count > 0
      ensures clock.used + rest == old(clock.used) + env
    {
      hide Since, Valid, Grows, FoundEmpty;
      count, items, unwound, rest, moment := 0, [], false, env, |run| - 1;
      while count < max && !unwound
        invariant clock.used + rest == old(clock.used) + env
        invariant Since(past) && |past| <= moment + 1 && count == |items| <= max && count <= cap && head == old(head)
        invariant rx.pc == (if unwound then DrainStore(count) else DrainNext(Abs(), count, max)) && rx.head == old(rx.head) + count
        invariant hist.delivered == old(hist.delivered) + items && old(tail) <= tail
        invariant (unwound <==> count > 0 && unwinds(count - 1)) && forall k :: 0 <= k < count - 1 ==> !unwinds(k)
        invariant Quiet(env) ==> Quiet(rest) && SenderSame(old(Abs()))
        invariant count == 0 ==> tail == old(tail)
        decreases cap - count
      {
        var got;
        got, unwound, rest, moment := DrainOne(count, max, unwinds, rest, past);
        match got {
          case None => return;
          case Some(v) => count, items := count + 1, items + [v];
        }
      }
    }

    /** Dropping the receiver. */
    method DropReceiver(env: seq<Slice>) returns (rest: seq<Slice>)
      requires Valid() && rx.pc == Resting
      modifies this, buf, clock
      ensures Since(old(run)) && rx.pc == Left && disconnected && hist.delivered == old(hist.delivered)
      ensures clock.used + rest == old(clock.used) + env
    {
      hide Since, Valid, Grows;
      SinceNow();
      ghost var before := run;
      BeginRx(StartDropRx, StoreClosed, before);
      ghost var now;
      rest, now := YieldRx(env, before);
      StoreGoneRx(before);
    }

    // ---------- Shared::drop ----------

    /** The loop over `head..tail`. */
    method WalkSlots() returns (dropped: seq<Ticket>)
      requires Valid() && rx.pc == Left
      ensures head <= tail <= |hist.log| && dropped == hist.log[head..tail]
    {
      hide Reachable, Logged, SlotOf, And;
      Reached();
      InBounds(Abs());
      dropped := [];
      for q := head to tail
        invariant |dropped| == q - head && tail <= |hist.log|
        invariant forall k :: 0 <= k < |dropped| ==> dropped[k] == hist.log[head + k]
      {
        IndexOf(q);
        UnconsumedIsThere(Abs(), q);
        dropped := dropped + [buf[And(q, mask)].value];
      }
    }

    /** Shared::drop: the payloads of `head..tail` are dropped, each once, and they are what was accepted and
        not delivered. */
    method DropShared() returns (dropped: seq<Ticket>)
      requires Valid() && tx.pc == Gone && rx.pc == Left && hist.dropped == None
      modifies this
      ensures Since(old(run)) && hist.dropped == Some(dropped) && run == old(run) + [Abs()]
      ensures hist.log == old(hist.log) == hist.delivered + dropped
      ensures forall v :: 0 <= v < |hist.fate| ==> v in hist.returned + hist.delivered + dropped
    {
      hide Grows, Reachable, Enabled, Apply, Logged;
      SinceNow();
      Reached();
      ghost var before := run;
      dropped := WalkSlots();
      DropMoment(Abs());
      hist := hist.(dropped := Some(dropped));
      Record(Reap, before);
      Reached();
      EveryPayloadEndsOnce(Abs());
      assert Ended(Abs()) == hist.returned + hist.delivered + dropped;
    }
  }

  // ---------- lemmas about the machine ----------

  lemma RunAppend(run: seq<State>, m: Move, s: State)
    requires IsRun(run) && Init(run[0]) && Enabled(run[|run| - 1], m) && s == Apply(run[|run| - 1], m)
    ensures IsRun(run + [s]) && Init((run + [s])[0])
  {
    hide Init;
    assert Next(run[|run| - 1], s);
    hide Next, Enabled, Apply;
    var longer := run + [s];
    forall i {:trigger longer[i]} | 0 < i < |longer| ensures Next(longer[i - 1], longer[i]) {
      if i < |run| { assert Next(run[i - 1], run[i]); }
    }
  }

  lemma CapIsLength(s: State)
    requires Inv(s)
    ensures s.cap == |s.buf| > 0
  {
  }

  lemma TxGrows(s: State)
    requires Inv(s) && TxEnabled(s)
    ensures Undisturbed(Receiving, s, TxStep(s))
  {
    assert s.tail <= s.tx.tail;
    hide Inv, SlotOf;
  }

  lemma RxGrows(s: State, unwinds: bool)
    requires Inv(s) && Enabled(s, StepRx(unwinds))
    ensures Undisturbed(Sending, s, RxStep(s, unwinds))
  {
    assert SlotOK(s, s.rx.head);
    assert s.head <= s.rx.head;
    assert s.rx.pc.Take? || s.rx.pc.DrainTake? ==> s.buf[SlotOf(s.rx.head, s.cap)].Some?;
    hide Inv, SlotOf;
  }

  lemma MoveGrows(s: State, m: Move)
    requires Inv(s) && Enabled(s, m)
    ensures Grows(s, Apply(s, m))
  {
    hide Inv, TxStep, RxStep;
    match m
    case StepTx => TxGrows(s);
    case StepRx(u) => RxGrows(s, u);
    case _ =>
  }

  lemma ReachesInv(s: State)
    requires Reachable(s)
    ensures Inv(s)
  {
    ReachableInv(s);
  }

  lemma ApplyFits(s: State, m: Move)
    requires Reachable(s) && Enabled(s, m)
    ensures Grows(s, Apply(s, m)) && Apply(s, m).cap == s.cap == |Apply(s, m).buf|
  {
    hide Inv, Apply, Reachable;
    ReachesInv(s);
    MoveGrows(s, m);
    InvStep(s, m);
    CapIsLength(Apply(s, m));
  }

  lemma ForeignMove(me: Actor, s0: State, s: State, m: Move)
    requires Reachable(s) && Enabled(s, m) && Foreign(me, m) && Undisturbed(me, s0, s)
    ensures Undisturbed(me, s0, Apply(s, m))
  {
    hide Inv, Reachable, TxStep, RxStep;
    ReachesInv(s);
    match m
    case StepTx => TxGrows(s);
    case StepRx(u) => RxGrows(s, u);
    case _ => MoveGrows(s, m);
  }

  /** What a call of the receiver does first. */
  function FirstRx(s: State, m: Move): RxPC {
    match m
    case StartRecv => if s.rx.head == s.rx.cachedTail then ReloadTail else Take
    case StartDrain(max) => DrainNext(s, 0, max)
    case _ => StoreClosed
  }

  function AfterCallback(s: State, unwinds: bool): RxPC
    requires s.rx.pc.Callback?
  {
    if unwinds then DrainStore(s.rx.pc.count) else DrainNext(s, s.rx.pc.count, s.rx.pc.max)
  }

  // ---------- the machine's steps, one access at a time ----------

  lemma TxMove(s: State)
    requires Reachable(s) && s.tx.pc != Idle && s.tx.pc != Gone
    ensures Enabled(s, StepTx) && Grows(s, Apply(s, StepTx))
    ensures PayloadOf(s.tx.pc).Some? ==> PayloadOf(s.tx.pc).value < |s.hist.fate|
    ensures Apply(s, StepTx) ==
      match s.tx.pc
      case CheckGone(v, b) => StepCheckGone(s, v, b)
      case ReloadHead(v, b) => StepReloadHead(s, v, b)
      case Write(v) => StepWrite(s, v)
      case StoreTail => SetTx(s.(tail := s.tx.tail), Idle)
      case _ => SetTx(s.(disconnected := true), Gone)
  {
    ReachesInv(s);
    assert TxEnabled(s);
    hide Inv, Grows, Reachable, SlotOf;
    MoveGrows(s, StepTx);
  }

  lemma RxMoves(s: State, unwinds: bool)
    requires Reachable(s) && s.rx.pc != Resting && s.rx.pc != Left
    ensures Enabled(s, StepRx(unwinds)) && Grows(s, Apply(s, StepRx(unwinds)))
    ensures Apply(s, StepRx(unwinds)) == RxStep(s, unwinds)
  {
    hide Inv, Grows, Reachable, RxStep;
    ReachesInv(s);
    CapIsLength(s);
    MoveGrows(s, StepRx(unwinds));
  }

  lemma StartMove(s: State, m: Move)
    requires Reachable(s)
    requires if m.StartSend? || m.StartDropTx? then s.tx.pc == Idle else s.rx.pc == Resting && (m.StartRecv? || m.StartDrain? || m.StartDropRx?)
    ensures Enabled(s, m) && Grows(s, Apply(s, m))
    ensures Apply(s, m) ==
      match m
      case StartSend(b) => SetTx(s.(hist := s.hist.(fate := s.hist.fate + [Held])), CheckGone(|s.hist.fate|, b))
      case StartDropTx => SetTx(s, TxPC.StoreGone)
      case _ => SetRx(s, FirstRx(s, m))
  {
    hide Inv, Grows, Reachable;
    ReachesInv(s);
    CapIsLength(s);
    MoveGrows(s, m);
  }

  /** The subtractions of the sender do not underflow. */
  lemma NoUnderflow(s: State)
    requires Reachable(s)
    ensures s.tx.tail - s.tx.cachedHead >= 0 && s.tx.tail - s.head >= 0 && !s.hist.fault
  {
    NoFault(s);
  }

  /** At the reload nothing of the sender's is unpublished. */
  lemma ReloadSeesTail(s: State)
    requires Reachable(s) && s.tx.pc.ReloadHead?
    ensures s.tail == s.tx.tail
  {
    ReachableInv(s);
  }

  lemma FullExact(s: State)
    requires Reachable(s) && s.tx.pc.ReloadHead?
    ensures s.tx.tail - s.head == s.cap <==> s.tail == s.head + s.cap
  {
    ReloadSeesTail(s);
  }

  lemma TakeFinds(s: State)
    requires Reachable(s) && (s.rx.pc.Take? || s.rx.pc.DrainTake?)
    ensures 0 < s.cap == |s.buf| && s.buf[SlotOf(s.rx.head, s.cap)].Some?
  {
    SlotsAreExclusive(s);
  }

  lemma IdleDrain(s: State)
    requires Reachable(s)
    ensures s.rx.pc.DrainStore? && s.rx.pc.count == 0 ==> s.head == s.rx.head
  {
    if s.rx.pc.DrainStore? { DrainIsBounded(s); }
  }

  lemma RestingHead(s: State)
    requires Reachable(s) && s.rx.pc == Resting
    ensures s.head == s.rx.head
  {
    ReachableInv(s);
  }

  lemma FlagMeansGone(s: State)
    requires Reachable(s) && s.rx.pc != Left
    ensures s.disconnected <==> s.tx.pc == Gone
  {
    ReachableInv(s);
  }

  lemma DrainedOver(s: State)
    requires Reachable(s) && s.rx.drained && s.rx.pc == Resting
    ensures Over(s)
  {
    ReachableInv(s);
  }

  lemma WriterHasRoom(s: State)
    requires Reachable(s) && s.tx.pc.Write?
    ensures s.tx.tail < s.head + s.cap
  {
    ReachableInv(s);
  }

  lemma LogIsTail(s: State)
    requires Reachable(s)
    ensures s.tx.tail == |s.hist.log| && (s.tx.pc != StoreTail ==> s.tail == s.tx.tail)
  {
    ReachableInv(s);
  }

  lemma DrainedIsDone(s: State)
    requires Reachable(s) && s.rx.drained
    ensures s.hist.delivered == s.hist.log && s.disconnected
  {
    ReachableInv(s);
  }

  lemma DropMoment(s: State)
    requires Reachable(s) && s.tx.pc == Gone && s.rx.pc == Left && s.hist.dropped == None
    ensures s.head <= s.tail <= |s.hist.log|
    ensures Enabled(s, Reap) && Grows(s, Apply(s, Reap))
    ensures Apply(s, Reap) == s.(hist := s.hist.(dropped := Some(s.hist.log[s.head..s.tail])))
  {
    ReachesInv(s);
    CapIsLength(s);
    assert s.head <= s.tail <= |s.hist.log| && !s.hist.fault;
    hide Inv, Grows, Reachable;
    MoveGrows(s, Reap);
    ReapDrops(s);
  }

  lemma InBounds(s: State)
    requires Reachable(s)
    ensures s.head <= s.tail <= |s.hist.log|
  {
    ReachableInv(s);
  }

  lemma UnconsumedIsThere(s: State, q: nat)
    requires Reachable(s) && s.rx.pc == Left && s.head <= q < s.tail
    ensures 0 < s.cap == |s.buf| && q < |s.hist.log| && s.buf[SlotOf(q, s.cap)] == Some(s.hist.log[q])
  {
    ReachesInv(s);
    assert SlotOK(s, q);
  }
}

/**
 The sharded receiver as code: a sticky-cursor sweep over N SPSC rings. The rings are the channels of
 module `Spsc`, so their producers run inside every probe, and between probes they run on all shards.
 */
module Sharded {
  import opened Arith
  import opened Common
  import SpscMachine
  import Spsc
  import opened Fairness

  /** What happens before and during one probe: producers of any shards run, and the schedule of the probed
      shard is used up by the probe. */
  datatype Round = Round(others: seq<(nat, Spsc.Slice)>, probed: seq<Spsc.Slice>)

  /** No producer runs during the round. */
  predicate QuietRound(round: Round) {
    round.others == [] && Spsc.Quiet(round.probed)
  }

  predicate AllQuiet(env: seq<Round>) {
    forall m :: 0 <= m < |env| ==> QuietRound(env[m])
  }

  /** The schedule of turn `m`; when it has ended nobody else runs. */
  function RoundAt(env: seq<Round>, m: nat): Round {
    if m < |env| then env[m] else Round([], [])
  }

  lemma QuietAt(env: seq<Round>, m: nat)
    ensures AllQuiet(env) ==> QuietRound(RoundAt(env, m))
  {
  }

  class Receiver {
    const shards: seq<Spsc.Channel>
    const perShard: nat
    var cursor: nat
    var budget: nat
    ghost var calls: seq<Call>

    /** `channel(n_shards, total_cap)` with `total_cap == n_shards * 2^shift`. */
    constructor (n: nat, shift: nat)
      requires n > 0 && n * Pow2(shift) <= USIZE_MAX
      ensures Valid() && |shards| == n && perShard == Pow2(shift) && calls == [] && cursor == 0 && budget == 0
      ensures forall i :: 0 <= i < n ==> fresh(shards[i]) && fresh(shards[i].buf) && fresh(shards[i].clock) && SpscMachine.Init(shards[i].Abs())
    {
      hide Spsc.Channel.Valid, SpscMachine.Init, Spsc.Channel.Logged;
      OneFits(n, Pow2(shift));
      var made: seq<Spsc.Channel> := [];
      for m := 0 to n
        invariant |made| == m
        invariant forall i :: 0 <= i < m ==> fresh(made[i]) && fresh(made[i].buf) && fresh(made[i].clock) && made[i].Valid() && made[i].cap == Pow2(shift)
        invariant forall i :: 0 <= i < m ==> made[i].rx.pc == SpscMachine.Resting && SpscMachine.Init(made[i].Abs())
        invariant forall i, j :: 0 <= i < j < m ==> made[i] != made[j] && made[i].buf != made[j].buf
        invariant forall i, j :: 0 <= i < m && 0 <= j < m ==> (made[i].buf as object) != made[j]
      {
        var shard := new Spsc.Channel(shift);
        InitRests(shard.Abs());
        made := made + [shard];
      }
      shards, perShard, cursor, budget, calls := made, Pow2(shift), 0, 0, [];
    }

    /** The slot arrays of the shards. */
    ghost function Bufs(): set<object> {
      set i | 0 <= i < |shards| :: shards[i].buf
    }

    /** What has run on each of them. */
    ghost function Clocks(): set<object> {
      set i | 0 <= i < |shards| :: shards[i].clock
    }

    /** No two shards share memory. */
    ghost predicate Separate() {
      && (forall i, j :: 0 <= i < j < |shards| ==> shards[i] != shards[j] && shards[i].buf != shards[j].buf)
      && (forall i, j :: 0 <= i < |shards| && 0 <= j < |shards| ==> (shards[i].buf as object) != shards[j])
    }

    /** Every shard is a ring in a valid state with its receiver between two operations; the calls so far are
        a history of the cursor. */
    ghost predicate Valid()
      reads this, shards, Bufs()
    {
      && Separate() && cursor < |shards|
      && (forall i :: 0 <= i < |shards| ==> shards[i].Valid() && shards[i].rx.pc == SpscMachine.Resting && shards[i].cap == perShard)
      && IsHistory(calls, |shards|) && (calls != [] ==> calls[|calls| - 1].after == Cursor(cursor, budget))
    }

    /** Receiver::advance */
    method AdvanceCursor()
      requires cursor < |shards|
      modifies this`cursor, this`budget
      ensures Cursor(cursor, budget) == Advance(Cursor(old(cursor), old(budget)), |shards|)
    {
      cursor := if cursor + 1 == |shards| then 0 else cursor + 1;
      budget := 0;
    }

    /** The shards are valid, at rest, and their histories continue `pasts`. */
    ghost predicate Kept(pasts: seq<seq<SpscMachine.State>>)
      reads shards, Bufs()
      ensures Kept(pasts) ==> |pasts| == |shards| && forall i :: 0 <= i < |pasts| ==> |pasts[i]| > 0
    {
      && Separate() && |pasts| == |shards|
      && forall i :: 0 <= i < |shards| ==> shards[i].Since(pasts[i]) && shards[i].rx.pc == SpscMachine.Resting
    }

    /** What each shard has delivered. */
    ghost function Delivered(): (d: seq<seq<Ticket>>)
      reads shards
      ensures |d| == |shards|
    {
      seq(|shards|, i requires 0 <= i < |shards| reads shards => shards[i].hist.delivered)
    }

    /** Producers run, on any shards. */
    method Interfere(others: seq<(nat, Spsc.Slice)>, ghost pasts: seq<seq<SpscMachine.State>>)
      requires Kept(pasts)
      modifies shards, Bufs(), Clocks()
      ensures Kept(pasts)
      ensures forall i :: 0 <= i < |shards| ==> shards[i].rx == old(shards[i].rx) && shards[i].hist.delivered == old(shards[i].hist.delivered)
      ensures others == [] ==> forall i :: 0 <= i < |shards| ==> shards[i].SenderSame(old(shards[i].Abs()))
    {
      for j := 0 to |others|
        invariant Kept(pasts)
        invariant j == 0 ==> forall i :: 0 <= i < |shards| ==> shards[i].SenderSame(old(shards[i].Abs()))
        invariant forall i :: 0 <= i < |shards| ==> shards[i].rx == old(shards[i].rx) && shards[i].hist.delivered == old(shards[i].hist.delivered)
      {
        var (k, slice) := others[j];
        if k < |shards| {
          RunProducer(k, slice, pasts);
        }
      }
    }

    method RunProducer(k: nat, slice: Spsc.Slice, ghost pasts: seq<seq<SpscMachine.State>>)
      requires Kept(pasts) && k < |shards|
      modifies shards[k], shards[k].buf, shards[k].clock
      ensures Kept(pasts) && shards[k].rx == old(shards[k].rx) && shards[k].hist.delivered == old(shards[k].hist.delivered)
    {
      hide Spsc.Channel.Since, Spsc.Channel.Valid, Spsc.Grows;
      var rest, now := shards[k].YieldRx([slice], pasts[k]);
    }

    /** Probe the shard under the cursor. */
    method Probe(inner: seq<Spsc.Slice>, ghost pasts: seq<seq<SpscMachine.State>>) returns (r: RecvResult)
      requires Kept(pasts) && cursor < |shards|
      modifies shards[cursor], shards[cursor].buf, shards[cursor].clock
      ensures Kept(pasts)
      ensures (old(shards[cursor].tail) > old(shards[cursor].rx.head) ==> r.Received?) && (old(shards[cursor].disconnected) ==> r != Empty)
      ensures Spsc.Over(old(shards[cursor].Abs())) ==> r.Closed?
      ensures r.Received? ==> shards[cursor].hist.delivered == old(shards[cursor].hist.delivered) + [r.value]
      ensures !r.Received? ==> (
        && shards[cursor].hist.delivered == old(shards[cursor].hist.delivered)
        && shards[cursor].rx.head == old(shards[cursor].rx.head))
      ensures r.Closed? ==> shards[cursor].rx.drained
      ensures Spsc.Quiet(inner) ==> shards[cursor].SenderSame(old(shards[cursor].Abs()))
    {
      hide Spsc.Channel.Since, Spsc.Channel.Valid, Spsc.Channel.FoundEmpty, Spsc.Channel.FoundGone, Spsc.Grows;
      var shard := shards[cursor];
      shard.Pin(pasts[cursor]);
      ghost var middle := shard.run;
      ghost var moment;
      var rest;
      r, rest, moment := shard.TryRecv(inner);
      shard.SinceThen(pasts[cursor], middle);
    }

    /** Nothing has been received since `pasts`. */
    ghost predicate NothingTaken(pasts: seq<seq<SpscMachine.State>>)
      requires |pasts| == |shards| && forall i :: 0 <= i < |pasts| ==> |pasts[i]| > 0
      reads shards
    {
      forall i :: 0 <= i < |shards| ==> shards[i].hist.delivered == Last(pasts[i]).hist.delivered && shards[i].rx.head == Last(pasts[i]).rx.head
    }

    /** Since `pasts`, shard `k` has delivered `v` and no other shard anything. */
    ghost predicate TakenFrom(pasts: seq<seq<SpscMachine.State>>, k: nat, v: Ticket)
      requires |pasts| == |shards| && forall i :: 0 <= i < |pasts| ==> |pasts[i]| > 0
      reads shards
    {
      && k < |shards| && shards[k].hist.delivered == Last(pasts[k]).hist.delivered + [v]
      && forall i :: 0 <= i < |shards| && i != k ==> shards[i].hist.delivered == Last(pasts[i]).hist.delivered
    }

    /** Before a turn of the sweep: producers run. */
    method Await(others: seq<(nat, Spsc.Slice)>, ghost pasts: seq<seq<SpscMachine.State>>)
      requires Kept(pasts) && NothingTaken(pasts)
      modifies shards, Bufs(), Clocks()
      ensures Kept(pasts) && NothingTaken(pasts)
      ensures forall i :: 0 <= i < |shards| ==> shards[i].rx == old(shards[i].rx)
      ensures others == [] && old(SendersSame(pasts)) ==> SendersSame(pasts)
    {
      hide Spsc.Channel.Since, Spsc.Channel.Valid;
      Interfere(others, pasts);
    }

    /** The probe of a turn, seen from all shards. */
    method Serve(inner: seq<Spsc.Slice>, ghost pasts: seq<seq<SpscMachine.State>>) returns (r: RecvResult)
      requires Kept(pasts) && NothingTaken(pasts) && cursor < |shards|
      modifies shards[cursor], shards[cursor].buf, shards[cursor].clock
      ensures Kept(pasts)
      ensures if r.Received? then TakenFrom(pasts, cursor, r.value) else NothingTaken(pasts)
      ensures (old(shards[cursor].tail) > old(shards[cursor].rx.head) ==> r.Received?) && (old(shards[cursor].disconnected) ==> r != Empty)
      ensures Spsc.Over(old(shards[cursor].Abs())) ==> r.Closed?
      ensures r.Closed? ==> shards[cursor].rx.drained
      ensures Spsc.Quiet(inner) && old(SendersSame(pasts)) ==> SendersSame(pasts)
    {
      hide Spsc.Channel.Since, Spsc.Channel.Valid;
      r := Probe(inner, pasts);
    }

    /** One turn of the sweep. */
    method Visit(round: Round, ghost pasts: seq<seq<SpscMachine.State>>) returns (r: RecvResult)
      requires Kept(pasts) && NothingTaken(pasts) && cursor < |shards|
      modifies this`cursor, this`budget, shards, Bufs(), Clocks()
      ensures Kept(pasts)
      ensures r.Received? ==> cursor == old(cursor) && budget == old(budget) + 1 && TakenFrom(pasts, cursor, r.value)
      ensures !r.Received? ==> NothingTaken(pasts) && Cursor(cursor, budget) == Advance(Cursor(old(cursor), old(budget)), |shards|)
      ensures !r.Received? ==> !Waiting(Last(pasts[old(cursor)]))
      ensures r.Empty? ==> !Last(pasts[old(cursor)]).disconnected
      ensures Spsc.Over(Last(pasts[old(cursor)])) ==> r.Closed?
      ensures r.Closed? ==> shards[old(cursor)].rx.drained
      ensures forall i :: 0 <= i < |shards| && i != old(cursor) && old(shards[i].rx.drained) ==> shards[i].rx.drained
      ensures QuietRound(round) && old(SendersSame(pasts)) ==> SendersSame(pasts)
    {
      hide Spsc.Channel.Since, Spsc.Channel.Valid, SendersSame, TakenFrom;
      assert Separate();
      hide Kept;
      Await(round.others, pasts);
      assert shards[cursor].rx.head == Last(pasts[cursor]).rx.head;
      hide NothingTaken;
      StillThere(pasts, cursor);
      r := Serve(round.probed, pasts);
      if r.Received? {
        budget := budget + 1;
      } else {
        AdvanceCursor();
      }
    }

    lemma StillThere(pasts: seq<seq<SpscMachine.State>>, k: nat)
      requires Kept(pasts) && k < |shards|
      ensures Last(pasts[k]).tail <= shards[k].tail && (Last(pasts[k]).disconnected ==> shards[k].disconnected)
      ensures Last(pasts[k]).rx.drained ==> shards[k].rx.drained
      ensures Spsc.Over(Last(pasts[k])) && shards[k].rx.head == Last(pasts[k]).rx.head ==> Spsc.Over(shards[k].Abs())
    {
      hide Spsc.Channel.Since, Spsc.Channel.Valid;
      shards[k].StillThere(pasts[k]);
    }

    /** All shards that come less than `m` steps after `start` are drained and their senders gone. */
    ghost predicate DrainedUpTo(start: nat, m: nat)
      requires start < |shards|
      reads shards
    {
      forall i :: 0 <= i < |shards| && Distance(start, i, |shards|) < m ==> shards[i].rx.drained
    }

    /** The sweep of `try_recv`: `misses` shards are passed over, and the next one serves unless there is none. */
    method Sweep(env: seq<Round>, ghost pasts: seq<seq<SpscMachine.State>>) returns (r: RecvResult, misses: nat)
      requires Kept(pasts) && cursor < |shards| && NothingTaken(pasts)
      modifies this`cursor, this`budget, shards, Bufs(), Clocks()
      ensures Kept(pasts) && cursor < |shards| && misses <= |shards|
      ensures IdleUpTo(pasts, old(cursor), misses)
      ensures r.Received? ==> misses < |shards| && TakenFrom(pasts, cursor, r.value)
      ensures r.Received? ==>
                Cursor(cursor, budget) == Cursor(Nth(old(cursor), misses, |shards|), (if misses == 0 then old(budget) else 0) + 1)
      ensures !r.Received? ==> misses == |shards| && Cursor(cursor, budget) == Cursor(old(cursor), 0) && NothingTaken(pasts)
      ensures r.Empty? ==> exists i :: 0 <= i < |shards| && !Last(pasts[i]).disconnected
      ensures r.Closed? ==> DrainedUpTo(old(cursor), |shards|)
      ensures (forall i :: 0 <= i < |shards| ==> Spsc.Over(Last(pasts[i]))) ==> r.Closed?
      ensures AllQuiet(env) && old(SendersSame(pasts)) ==> SendersSame(pasts)
    {
      var n := |shards|;
      hide Kept, NothingTaken, TakenFrom, SendersSame, QuietRound, AllQuiet;
      var disconnected := 0;
      for m := 0 to n
        invariant Kept(pasts) && NothingTaken(pasts) && cursor == Nth(old(cursor), m, n) && cursor < n
        invariant budget == if m == 0 then old(budget) else 0
        invariant IdleUpTo(pasts, old(cursor), m)
        invariant disconnected <= m && (disconnected == m ==> DrainedUpTo(old(cursor), m))
        invariant disconnected < m ==> exists i :: 0 <= i < n && !Last(pasts[i]).disconnected
        invariant (forall i :: 0 <= i < n ==> Spsc.Over(Last(pasts[i]))) ==> disconnected == m
        invariant AllQuiet(env) && old(SendersSame(pasts)) ==> SendersSame(pasts)
      {
        QuietAt(env, m);
        var round := RoundAt(env, m);
        r := Visit(round, pasts);
        misses := m;
        match r {
          case Received(_) => return;
          case Closed => disconnected := disconnected + 1;
          case Empty =>
        }
      }
      misses := n;
      r := if disconnected == n then Closed else Empty;
    }

    /** Every shard's history so far, before an operation begins. */
    ghost predicate Fresh(pasts: seq<seq<SpscMachine.State>>)
      reads shards, Bufs()
    {
      |pasts| == |shards| && forall i :: 0 <= i < |shards| ==> pasts[i] == shards[i].run && |pasts[i]| > 0 && Last(pasts[i]) == shards[i].Abs()
    }

    /** The snapshot of all histories. */
    ghost method Snapshot() returns (pasts: seq<seq<SpscMachine.State>>)
      requires Valid()
      ensures Fresh(pasts) && Kept(pasts) && NothingTaken(pasts)
    {
      hide Spsc.Channel.Logged, IsHistory;
      pasts := seq(|shards|, i requires 0 <= i < |shards| reads shards => shards[i].run);
      forall i | 0 <= i < |shards| ensures shards[i].Since(pasts[i]) {
        shards[i].SinceNow();
      }
    }

    lemma ValidAgain(pasts: seq<seq<SpscMachine.State>>)
      requires Kept(pasts) && cursor < |shards| && (forall i :: 0 <= i < |shards| ==> shards[i].cap == perShard)
      requires IsHistory(calls, |shards|) && (calls != [] ==> calls[|calls| - 1].after == Cursor(cursor, budget))
      ensures Valid()
    {
      hide Spsc.Channel.Logged, IsHistory;
    }

    /** A call is added to the history. */
    lemma HistoryGrows(call: Call)
      requires IsHistory(calls, |shards|) && IsCall(call, |shards|)
      requires calls != [] ==> calls[|calls| - 1].after == call.before
      ensures IsHistory(calls + [call], |shards|)
    {
    }

    /** What every shard has delivered is a prefix of what its producer sent, in order. */
    lemma PerShardFifo(i: nat)
      requires Valid() && i < |shards|
      ensures shards[i].hist.delivered <= shards[i].hist.log && |shards[i].hist.delivered| == shards[i].rx.head
      ensures shards[i].rx.drained ==> shards[i].hist.delivered == shards[i].hist.log && shards[i].disconnected
    {
      hide Spsc.Channel.Logged, IsHistory;
      shards[i].InOrder();
    }

    /** The call proper: the cursor moves on if its budget is used up, and then the sweep. */
    method TryRecvSince(env: seq<Round>, ghost pasts: seq<seq<SpscMachine.State>>) returns (r: RecvResult, ghost call: Call)
      requires Kept(pasts) && cursor < |shards| && NothingTaken(pasts) && SendersSame(pasts)
      modifies this`cursor, this`budget, shards, Bufs(), Clocks()
      ensures Kept(pasts) && cursor < |shards|
      ensures call.before == Cursor(old(cursor), old(budget)) && call.after == Cursor(cursor, budget) && IsCall(call, |shards|)
      ensures forall i :: 0 <= i < |shards| && PassedOver(call, |shards|, i) ==> !Waiting(Last(pasts[i]))
      ensures r.Received? ==> ServedFrom(call, |shards|, cursor) && TakenFrom(pasts, cursor, r.value)
      ensures !r.Received? ==> !call.served && NothingTaken(pasts) && forall i :: 0 <= i < |shards| ==> !Waiting(Last(pasts[i]))
      ensures r.Empty? ==> exists i :: 0 <= i < |shards| && !Last(pasts[i]).disconnected
      ensures r.Closed? ==> forall i :: 0 <= i < |shards| ==> shards[i].rx.drained
      ensures (forall i :: 0 <= i < |shards| ==> Spsc.Over(Last(pasts[i]))) ==> r.Closed?
      ensures AllQuiet(env) ==> SendersSame(pasts)
      ensures var b := Begin(call.before, |shards|); Waiting(Last(pasts[b.at])) ==> r.Received? && call.after == Cursor(b.at, b.budget + 1)
    {
      hide Spsc.Channel.Valid, Kept, TakenFrom, NothingTaken, SendersSame, AllQuiet, IdleUpTo, Waiting, PassedOver;
      ghost var before := Cursor(cursor, budget);
      if budget >= VISIT_BUDGET {
        AdvanceCursor();
      }
      ghost var start := cursor;
      assert SendersSame(pasts);
      var misses;
      r, misses := Sweep(env, pasts);
      call := Call(before, misses, r.Received?, Cursor(cursor, budget));
      PassedWereIdle(pasts, call, start);
      if Waiting(Last(pasts[start])) { ServedAtOnce(call, |shards|, start); }
    }

    /** The call, recorded in the history. */
    method TryRecvRecorded(env: seq<Round>, ghost pasts: seq<seq<SpscMachine.State>>) returns (r: RecvResult, ghost call: Call)
      requires Valid() && Kept(pasts) && NothingTaken(pasts) && SendersSame(pasts)
      modifies this, shards, Bufs(), Clocks()
      ensures Valid() && Kept(pasts)
      ensures calls == old(calls) + [call] && call.before == Cursor(old(cursor), old(budget)) && IsCall(call, |shards|)
      ensures forall i :: 0 <= i < |shards| && PassedOver(call, |shards|, i) ==> !Waiting(Last(pasts[i]))
      ensures r.Received? ==> ServedFrom(call, |shards|, cursor) && TakenFrom(pasts, cursor, r.value)
      ensures !r.Received? ==> !call.served && NothingTaken(pasts) && forall i :: 0 <= i < |shards| ==> !Waiting(Last(pasts[i]))
      ensures r.Empty? ==> exists i :: 0 <= i < |shards| && !Last(pasts[i]).disconnected
      ensures r.Closed? ==> forall i :: 0 <= i < |shards| ==> shards[i].rx.drained
      ensures (forall i :: 0 <= i < |shards| ==> Spsc.Over(Last(pasts[i]))) ==> r.Closed?
      ensures AllQuiet(env) ==> SendersSame(pasts)
      ensures var b := Begin(call.before, |shards|); Waiting(Last(pasts[b.at])) ==> r.Received? && Cursor(cursor, budget) == Cursor(b.at, b.budget + 1)
    {
      hide Spsc.Channel.Valid, Spsc.Over, Begin, IsHistory, IsCall, Kept, TakenFrom, NothingTaken, SendersSame, AllQuiet, Waiting, PassedOver, ServedFrom;
      r, call := TryRecvSince(env, pasts);
      HistoryGrows(call);
      calls := calls + [call];
      ValidAgain(pasts);
    }

    /** `Receiver::try_recv`, while producers send and drop. `pasts` are the histories of the shards when the call
        began. A call that gets nothing found every shard idle when it began; it returns `Disconnected`
        (here `Closed`) only if every sender is gone and every shard drained, and `Empty` only if some sender was
        there when it began. A shard that had something is never passed over. */
    method TryRecv(env: seq<Round>) returns (r: RecvResult, ghost call: Call, ghost pasts: seq<seq<SpscMachine.State>>)
      requires Valid()
      modifies this, shards, Bufs(), Clocks()
      ensures Valid() && Kept(pasts) && |pasts| == |shards|
      ensures forall i :: 0 <= i < |shards| ==> pasts[i] == old(shards[i].run)
      ensures calls == old(calls) + [call] && call.before == Cursor(old(cursor), old(budget)) && IsCall(call, |shards|)
      ensures forall i :: 0 <= i < |shards| && PassedOver(call, |shards|, i) ==> !Waiting(Last(pasts[i]))
      ensures r.Received? ==> ServedFrom(call, |shards|, cursor) && TakenFrom(pasts, cursor, r.value)
      ensures !r.Received? ==> !call.served && NothingTaken(pasts) && forall i :: 0 <= i < |shards| ==> !Waiting(Last(pasts[i]))
      ensures r.Empty? ==> exists i :: 0 <= i < |shards| && !Last(pasts[i]).disconnected
      ensures r.Closed? ==> forall i :: 0 <= i < |shards| ==> shards[i].disconnected && shards[i].hist.delivered == shards[i].hist.log
      ensures r.Closed? ==> forall i :: 0 <= i < |shards| ==> shards[i].rx.drained
      ensures (forall i :: 0 <= i < |shards| ==> old(shards[i].rx.drained)) ==> r.Closed?
      ensures AllQuiet(env) ==> SendersSame(pasts)
      ensures old(budget) < 32 && old(shards[cursor].rx.head < shards[cursor].tail) ==> r.Received? && cursor == old(cursor) && budget == old(budget) + 1
      ensures var next := if old(cursor) + 1 == |shards| then 0 else old(cursor) + 1;
        old(budget) >= 32 && old(shards[next].rx.head < shards[next].tail) ==> r.Received? && cursor == next && budget == 1
      ensures (forall i :: 0 <= i < |shards| ==> Spsc.Finished(old(shards[i].Abs()))) ==> r.Closed?
    {
      hide Spsc.Finished, Spsc.Over, Spsc.Channel.Valid, Begin, IsHistory, IsCall, Kept, TakenFrom, NothingTaken, SendersSame, AllQuiet, Waiting, PassedOver, ServedFrom;
      hide Valid;
      pasts := Snapshot();
      AtBegin(pasts);
      r, call := TryRecvRecorded(env, pasts);
      if r.Closed? { AllDone(); }
    }

    /** What the state says when a call begins. */
    lemma AtBegin(pasts: seq<seq<SpscMachine.State>>)
      requires Valid() && Fresh(pasts)
      ensures cursor < |shards| == |pasts| && (forall i :: 0 <= i < |pasts| ==> |pasts[i]| > 0) && SendersSame(pasts)
      ensures forall i :: 0 <= i < |shards| ==> pasts[i] == shards[i].run
      ensures forall i :: 0 <= i < |shards| && (shards[i].rx.drained || Spsc.Finished(shards[i].Abs())) ==> Spsc.Over(Last(pasts[i]))
      ensures forall i :: 0 <= i < |shards| ==> (Waiting(Last(pasts[i])) <==> shards[i].rx.head < shards[i].tail)
      ensures budget < 32 ==> Begin(Cursor(cursor, budget), |shards|) == Cursor(cursor, budget)
      ensures budget >= 32 ==> Begin(Cursor(cursor, budget), |shards|) == Cursor(if cursor + 1 == |shards| then 0 else cursor + 1, 0)
    {
      FreshSenders(pasts);
      WhereOver(pasts);
      BeginsAt(Cursor(cursor, budget), |shards|);
      WhatWaits(pasts);
    }

    lemma AllDone()
      requires Valid() && forall i :: 0 <= i < |shards| ==> shards[i].rx.drained
      ensures forall i :: 0 <= i < |shards| ==> shards[i].disconnected && shards[i].hist.delivered == shards[i].hist.log
    {
      hide Spsc.Channel.Valid, IsHistory;
      forall i | 0 <= i < |shards| ensures shards[i].disconnected && shards[i].hist.delivered == shards[i].hist.log {
        PerShardFifo(i);
      }
    }

    /** A shard is over if its receiver has seen so, or if its flag is up and nothing is left. */
    lemma WhereOver(pasts: seq<seq<SpscMachine.State>>)
      requires Valid() && |pasts| == |shards| && forall i :: 0 <= i < |pasts| ==> |pasts[i]| > 0 && Last(pasts[i]) == shards[i].Abs()
      ensures forall i :: 0 <= i < |shards| && (shards[i].rx.drained || Spsc.Finished(shards[i].Abs())) ==> Spsc.Over(Last(pasts[i]))
    {
      hide Spsc.Channel.Valid, IsHistory;
      forall i | 0 <= i < |shards| && (shards[i].rx.drained || Spsc.Finished(shards[i].Abs())) ensures Spsc.Over(Last(pasts[i])) {
        shards[i].FlagIsSenders();
        shards[i].DrainedIsOver();
      }
    }

    lemma WhatWaits(pasts: seq<seq<SpscMachine.State>>)
      requires |pasts| == |shards| && forall i :: 0 <= i < |pasts| ==> |pasts[i]| > 0 && Last(pasts[i]) == shards[i].Abs()
      ensures forall i :: 0 <= i < |shards| ==> (Waiting(Last(pasts[i])) <==> shards[i].rx.head < shards[i].tail)
    {
    }

    /** What a sweep has established of the shards that its call passed over. */
    lemma PassedWereIdle(pasts: seq<seq<SpscMachine.State>>, call: Call, start: nat)
      requires |pasts| == |shards| && forall i :: 0 <= i < |pasts| ==> |pasts[i]| > 0
      requires IsCall(call, |shards|) && start == Begin(call.before, |shards|).at && IdleUpTo(pasts, start, call.misses)
      ensures forall i :: 0 <= i < |shards| && PassedOver(call, |shards|, i) ==> !Waiting(Last(pasts[i]))
      ensures !call.served ==> forall i :: 0 <= i < |shards| ==> !Waiting(Last(pasts[i]))
    {
    }

    lemma StillWaiting(k: nat, pasts: seq<seq<SpscMachine.State>>)
      requires Valid() && Kept(pasts) && k < |shards| && shards[k].hist.delivered == Last(pasts[k]).hist.delivered
      requires Waiting(Last(pasts[k])) && |Last(pasts[k]).hist.delivered| == Last(pasts[k]).rx.head
      ensures shards[k].rx.head < shards[k].tail
    {
      hide Spsc.Channel.Valid, Spsc.Channel.Since, IsHistory;
      shards[k].StillThere(pasts[k]);
      shards[k].InOrder();
    }

    /** Fairness of `try_recv` and `recv`: whatever the producers do, a shard that has something is served after
        at most `32 * (n_shards - 1)` deliveries from the others, and its oldest payload is what it gives. The
        loop ends because each of those deliveries uses up patience. */
    method RecvUntilServed(k: nat, env: seq<seq<Round>>) returns (others: nat, v: Ticket)
      requires Valid() && k < |shards| && shards[k].rx.head < shards[k].tail
      modifies this, shards, Bufs(), Clocks()
      ensures Valid() && others <= Patience(Cursor(old(cursor), old(budget)), |shards|, k) <= 32 * (|shards| - 1)
      ensures shards[k].hist.delivered == old(shards[k].hist.delivered) + [v] && shards[k].hist.delivered <= shards[k].hist.log
      ensures |calls| == |old(calls)| + others + 1
    {
      hide Spsc.Channel.Valid, IsHistory, Kept, IsCall;
      others := 0;
      var served := false;
      v := 0;
      while !served
        invariant Valid() && |calls| == |old(calls)| + others + (if served then 1 else 0)
        invariant !served ==> shards[k].rx.head < shards[k].tail && shards[k].hist.delivered == old(shards[k].hist.delivered)
        invariant served ==> shards[k].hist.delivered == old(shards[k].hist.delivered) + [v]
        invariant others + (if served then 0 else Patience(Cursor(cursor, budget), |shards|, k))
               <= Patience(Cursor(old(cursor), old(budget)), |shards|, k)
        decreases !served, Patience(Cursor(cursor, budget), |shards|, k)
      {
        served, v := ServeOne(k, if others < |env| then env[others] else []);
        if !served { others := others + 1; }
      }
      PerShardFifo(k);
    }

    /** One call while shard `k` has something: it is served, or its patience shrinks. */
    method ServeOne(k: nat, env: seq<Round>) returns (served: bool, v: Ticket)
      requires Valid() && k < |shards| && shards[k].rx.head < shards[k].tail
      modifies this, shards, Bufs(), Clocks()
      ensures Valid() && |calls| == |old(calls)| + 1
      ensures served ==> shards[k].hist.delivered == old(shards[k].hist.delivered) + [v]
      ensures !served ==> shards[k].rx.head < shards[k].tail && shards[k].hist.delivered == old(shards[k].hist.delivered)
      ensures !served ==> Patience(Cursor(cursor, budget), |shards|, k) < Patience(Cursor(old(cursor), old(budget)), |shards|, k)
    {
      hide Spsc.Channel.Valid, Spsc.Finished, Spsc.Over, IsHistory, IsCall, Begin, Patience, SendersSame, PassedOver, ServedFrom, TakenFrom, Kept, Waiting;
      WaitsNow(k);
      hide Valid;
      var r;
      ghost var call, pasts;
      r, call, pasts := TryRecv(env);
      LastCall(call);
      ServedOrWaits(k, call, pasts, r);
      served, v := cursor == k, r.value;
    }

    lemma WaitsNow(k: nat)
      requires Valid() && k < |shards| && shards[k].rx.head < shards[k].tail
      ensures shards[k].run != [] && Last(shards[k].run) == shards[k].Abs() && Waiting(Last(shards[k].run))
      ensures |shards[k].hist.delivered| == shards[k].rx.head
    {
      hide IsHistory;
      Latest(k);
      PerShardFifo(k);
    }

    lemma LastCall(call: Call)
      requires Valid() && calls != [] && calls[|calls| - 1] == call
      ensures cursor < |shards| && call.after == Cursor(cursor, budget)
    {
      hide Spsc.Channel.Valid, IsHistory;
    }

    /** What a call does for a shard that has something: it serves it, or uses up patience. */
    lemma ServedOrWaits(k: nat, call: Call, pasts: seq<seq<SpscMachine.State>>, r: RecvResult)
      requires Valid() && Kept(pasts) && k < |shards| && cursor < |shards| && call.after == Cursor(cursor, budget) && IsCall(call, |shards|)
      requires Waiting(Last(pasts[k])) && |Last(pasts[k]).hist.delivered| == Last(pasts[k]).rx.head && !PassedOver(call, |shards|, k)
      requires if r.Received? then ServedFrom(call, |shards|, cursor) && TakenFrom(pasts, cursor, r.value)
               else forall i :: 0 <= i < |shards| ==> !Waiting(Last(pasts[i]))
      ensures r.Received?
      ensures cursor == k ==> shards[k].hist.delivered == Last(pasts[k]).hist.delivered + [r.value]
      ensures cursor != k ==> shards[k].rx.head < shards[k].tail && shards[k].hist.delivered == Last(pasts[k]).hist.delivered
                              && Patience(call.after, |shards|, k) < Patience(call.before, |shards|, k)
    {
      hide Spsc.Channel.Valid, IsHistory, Kept, Valid;
      if cursor != k {
        ServedWhereItStops(call, k);
        CallUsesPatience(call, |shards|, k);
        StillWaiting(k, pasts);
      }
    }

    lemma ServedWhereItStops(call: Call, k: nat)
      requires IsCall(call, |shards|) && k < |shards| && call.after.at != k
      ensures !ServedFrom(call, |shards|, k)
    {
    }

    /** No shard has anything to deliver, and some sender is there. */
    ghost predicate NothingYet()
      reads shards
    {
      (forall i :: 0 <= i < |shards| ==> shards[i].tail == shards[i].rx.head) && exists i :: 0 <= i < |shards| && !shards[i].disconnected
    }

    /** Every shard's flag is up and nothing is left. */
    ghost predicate AllFinished()
      reads shards
    {
      forall i :: 0 <= i < |shards| ==> shards[i].disconnected && shards[i].tail == shards[i].rx.head
    }

    /** Some shard has something to deliver. */
    ghost predicate SomethingWaits()
      reads shards
    {
      exists i :: 0 <= i < |shards| && shards[i].rx.head < shards[i].tail
    }

    /** `Receiver::recv`: it never returns `Empty`. `None` says that the schedule has ended: after all its sweeps and one more
        with nobody else running, every one of which found nothing, there is nothing to deliver now and some
        sender is left. */
    method Recv(env: seq<seq<Round>>) returns (r: Option<RecvResult>)
      requires Valid()
      modifies this, shards, Bufs(), Clocks()
      ensures Valid() && old(calls) <= calls
      ensures match r
        case None => Delivered() == old(Delivered()) && NothingYet() && |calls| == |old(calls)| + |env| + 1
          && forall j :: |old(calls)| <= j < |calls| ==> !calls[j].served
        case Some(Received(v)) => Delivered() == old(Delivered())[cursor := old(Delivered())[cursor] + [v]]
        case Some(Closed) => Delivered() == old(Delivered())
          && forall i :: 0 <= i < |shards| ==> shards[i].disconnected && shards[i].hist.delivered == shards[i].hist.log
        case Some(Empty) => false
      ensures old(SomethingWaits()) ==> r.Some? && r.value.Received?
      ensures old(AllFinished()) ==> r == Some(Closed)
    {
      hide Spsc.Channel.Valid, IsHistory, IsCall, NothingYet, AllFinished, SomethingWaits, Valid;
      r := None;
      for turn := 0 to |env| + 1
        invariant Valid() && r == None && Delivered() == old(Delivered())
        invariant old(calls) <= calls && |calls| == |old(calls)| + turn && forall j :: |old(calls)| <= j < |calls| ==> !calls[j].served
        invariant turn > |env| ==> NothingYet()
        invariant old(AllFinished()) ==> turn == 0 && AllFinished()
        invariant old(SomethingWaits()) ==> turn == 0 && SomethingWaits()
      {
        var result;
        result := RecvOnce(if turn < |env| then env[turn] else []);
        if result != Empty {
          r := Some(result);
          return;
        }
      }
    }

    method RecvOnce(env: seq<Round>) returns (r: RecvResult)
      requires Valid()
      modifies this, shards, Bufs(), Clocks()
      ensures Valid() && old(calls) <= calls && |calls| == |old(calls)| + 1
      ensures r.Received? ==> cursor < |shards| && Delivered() == old(Delivered())[cursor := old(Delivered())[cursor] + [r.value]]
      ensures !r.Received? ==> Delivered() == old(Delivered()) && !calls[|calls| - 1].served
      ensures r.Closed? ==> forall i :: 0 <= i < |shards| ==> shards[i].disconnected && shards[i].hist.delivered == shards[i].hist.log
      ensures old(SomethingWaits()) ==> r.Received?
      ensures old(AllFinished()) ==> r.Closed?
      ensures r.Empty? && env == [] ==> NothingYet()
    {
      hide Spsc.Channel.Valid, Spsc.Over, IsHistory, IsCall, Kept, TakenFrom, NothingTaken, Fresh, NothingYet, SendersSame, Waiting, Begin, AllFinished,
        SomethingWaits, Valid, PassedOver, ServedFrom;
      ghost var before := Snapshot();
      ghost var earlier := Delivered();
      FreshDelivered(before);
      AtBegin(before);
      OverOrWaiting(before);
      ghost var call, pasts;
      r, call, pasts := TryRecv(env);
      FreshRuns(before, pasts);
      DeliveredSince(pasts, earlier, r);
      if r.Empty? && env == [] { NothingNow(pasts); }
    }

    lemma OverOrWaiting(pasts: seq<seq<SpscMachine.State>>)
      requires |pasts| == |shards| && forall i :: 0 <= i < |pasts| ==> |pasts[i]| > 0
      requires forall i :: 0 <= i < |shards| ==> (Waiting(Last(pasts[i])) <==> shards[i].rx.head < shards[i].tail)
      ensures SomethingWaits() <==> exists i :: 0 <= i < |shards| && Waiting(Last(pasts[i]))
      ensures AllFinished() <==> forall i :: 0 <= i < |shards| ==> Spsc.Finished(shards[i].Abs())
    {
      if SomethingWaits() {
        var i :| 0 <= i < |shards| && shards[i].rx.head < shards[i].tail;
        assert Waiting(Last(pasts[i]));
      }
      assert forall i :: 0 <= i < |shards| ==> (Spsc.Finished(shards[i].Abs()) <==> shards[i].disconnected && shards[i].tail == shards[i].rx.head);
    }

    /** If nobody has run since, what was idle is idle. */
    lemma NothingNow(pasts: seq<seq<SpscMachine.State>>)
      requires Valid() && |pasts| == |shards| && forall i :: 0 <= i < |pasts| ==> |pasts[i]| > 0
      requires NothingTaken(pasts) && SendersSame(pasts) && forall i :: 0 <= i < |shards| ==> !Waiting(Last(pasts[i]))
      requires exists i :: 0 <= i < |shards| && !Last(pasts[i]).disconnected
      ensures NothingYet()
    {
      hide Spsc.Channel.Valid, IsHistory;
      forall i | 0 <= i < |shards| ensures shards[i].tail == shards[i].rx.head {
        shards[i].NeverAhead();
      }
      var i :| 0 <= i < |shards| && !Last(pasts[i]).disconnected;
      assert !shards[i].disconnected;
    }

    lemma FreshDelivered(pasts: seq<seq<SpscMachine.State>>)
      requires Fresh(pasts)
      ensures |pasts| == |shards| && forall i :: 0 <= i < |pasts| ==> |pasts[i]| > 0 && Last(pasts[i]).hist.delivered == Delivered()[i]
      ensures forall i :: 0 <= i < |shards| ==> pasts[i] == shards[i].run
    {
    }

    lemma FreshRuns(before: seq<seq<SpscMachine.State>>, pasts: seq<seq<SpscMachine.State>>)
      requires |before| == |pasts| && forall i :: 0 <= i < |pasts| ==> before[i] == pasts[i]
      ensures before == pasts
    {
    }

    lemma DeliveredSince(pasts: seq<seq<SpscMachine.State>>, earlier: seq<seq<Ticket>>, r: RecvResult)
      requires |pasts| == |shards| == |earlier| && forall i :: 0 <= i < |pasts| ==> |pasts[i]| > 0 && Last(pasts[i]).hist.delivered == earlier[i]
      requires if r.Received? then TakenFrom(pasts, cursor, r.value) else NothingTaken(pasts)
      ensures r.Received? ==> cursor < |shards| && Delivered() == earlier[cursor := earlier[cursor] + [r.value]]
      ensures !r.Received? ==> Delivered() == earlier
    {
    }

    // ---------- drain ----------

    /** Drain the shard under the cursor, up to `want` payloads. */
    method DrainShard(want: nat, unwinds: nat -> bool, round: Round, ghost pasts: seq<seq<SpscMachine.State>>) returns (took: nat, unwound: bool)
      requires Kept(pasts) && cursor < |shards| && shards[cursor].cap == perShard
      modifies shards, Bufs(), Clocks()
      ensures Kept(pasts) && took <= want && took <= perShard && (unwound ==> took > 0)
      ensures |shards[cursor].hist.delivered| == |old(shards[cursor].hist.delivered)| + took
      ensures !unwound && took < want ==> Last(pasts[cursor]).tail <= shards[cursor].rx.head
      ensures QuietRound(round) ==> forall i :: 0 <= i < |shards| ==> shards[i].SenderSame(old(shards[i].Abs()))
      ensures (unwound <==> took > 0 && unwinds(took - 1)) && forall k :: 0 <= k < took - 1 ==> !unwinds(k)
      ensures forall i :: 0 <= i < |shards| && i != cursor ==>
                shards[i].rx == old(shards[i].rx) && shards[i].hist.delivered == old(shards[i].hist.delivered)
    {
      hide Spsc.Channel.Valid, Spsc.Channel.FoundEmpty, Spsc.Grows;
      hide Spsc.Channel.Since, Spsc.Over, Spsc.Finished;
      Interfere(round.others, pasts);
      var shard := shards[cursor];
      shard.StillThere(pasts[cursor]);
      took, unwound := DrainOwn(shard, want, unwinds, round.probed, pasts[cursor]);
    }

    static method DrainOwn(shard: Spsc.Channel, want: nat, unwinds: nat -> bool, inner: seq<Spsc.Slice>, ghost past: seq<SpscMachine.State>)
        returns (took: nat, unwound: bool)
      requires shard.Since(past) && shard.rx.pc == SpscMachine.Resting
      modifies shard, shard.buf, shard.clock
      ensures shard.Since(past) && shard.rx.pc == SpscMachine.Resting
      ensures took <= want && took <= shard.cap && (unwound ==> took > 0)
      ensures |shard.hist.delivered| == |old(shard.hist.delivered)| + took
      ensures !unwound && took < want ==> old(shard.tail) <= shard.rx.head
      ensures Spsc.Quiet(inner) ==> shard.SenderSame(old(shard.Abs()))
      ensures (unwound <==> took > 0 && unwinds(took - 1)) && forall k :: 0 <= k < took - 1 ==> !unwinds(k)
    {
      hide Spsc.Channel.Since, Spsc.Channel.Valid, Spsc.Channel.FoundEmpty, Spsc.Grows;
      shard.Pin(past);
      ghost var middle := shard.run;
      var items, rest;
      ghost var moment;
      took, items, unwound, rest, moment := shard.Drain(want, unwinds, inner);
      shard.SinceThen(past, middle);
    }

    /** Since `pasts` no sender has done anything. */
    ghost predicate SendersSame(pasts: seq<seq<SpscMachine.State>>)
      requires |pasts| == |shards| && forall i :: 0 <= i < |pasts| ==> |pasts[i]| > 0
      reads shards
    {
      forall i :: 0 <= i < |shards| ==> shards[i].SenderSame(Last(pasts[i]))
    }

    lemma FreshSenders(pasts: seq<seq<SpscMachine.State>>)
      requires Fresh(pasts)
      ensures |pasts| == |shards| && (forall i :: 0 <= i < |pasts| ==> |pasts[i]| > 0) && SendersSame(pasts)
      ensures forall i :: 0 <= i < |shards| ==> shards[i].rx == Last(pasts[i]).rx && shards[i].tail == Last(pasts[i]).tail
      ensures forall i :: 0 <= i < |shards| ==> Last(pasts[i]) == shards[i].Abs()
    {
    }

    /** Since `pasts`, the shard `d` steps after `start` has delivered `takes[d]` payloads, and the others nothing. */
    ghost predicate Took(pasts: seq<seq<SpscMachine.State>>, start: nat, takes: seq<nat>)
      requires start < |shards| == |pasts| && forall i :: 0 <= i < |pasts| ==> |pasts[i]| > 0
      reads shards
    {
      forall i :: 0 <= i < |shards| ==>
        var d := Distance(start, i, |shards|);
        |shards[i].hist.delivered| == |Last(pasts[i]).hist.delivered| + (if d < |takes| then takes[d] else 0)
    }

    /** The shards that come less than `m` steps after `start` have delivered all that was published by `pasts`. */
    ghost predicate CaughtUp(pasts: seq<seq<SpscMachine.State>>, start: nat, m: nat)
      requires start < |shards| == |pasts| && forall i :: 0 <= i < |pasts| ==> |pasts[i]| > 0
      reads shards
    {
      forall i :: 0 <= i < |shards| && Distance(start, i, |shards|) < m ==> Last(pasts[i]).tail <= shards[i].rx.head
    }

    lemma TookMore(pasts: seq<seq<SpscMachine.State>>, start: nat, takes: seq<nat>, at: nat, took: nat, lens: seq<nat>)
      requires start < |shards| == |pasts| && forall i :: 0 <= i < |pasts| ==> |pasts[i]| > 0
      requires |takes| < |shards| && at == Nth(start, |takes|, |shards|) && |lens| == |shards|
      requires forall i :: 0 <= i < |shards| ==>
        var d := Distance(start, i, |shards|);
        lens[i] == |Last(pasts[i]).hist.delivered| + (if d < |takes| then takes[d] else 0)
      requires |shards[at].hist.delivered| == lens[at] + took
      requires forall i :: 0 <= i < |shards| && i != at ==> |shards[i].hist.delivered| == lens[i]
      ensures Took(pasts, start, takes + [took])
    {
      forall i | 0 <= i < |shards|
        ensures var d := Distance(start, i, |shards|);
          |shards[i].hist.delivered| == |Last(pasts[i]).hist.delivered| + (if d < |takes| + 1 then (takes + [took])[d] else 0)
      {
        var d := Distance(start, i, |shards|);
        assert d == |takes| <==> i == at;
      }
    }

    /** One turn of the drain. */
    method DrainTurn(want: nat, unwinds: nat -> bool, round: Round, ghost pasts: seq<seq<SpscMachine.State>>, ghost start: nat, ghost takes: seq<nat>)
        returns (took: nat, unwound: bool)
      requires Kept(pasts) && start < |shards| && |takes| < |shards| && cursor == Nth(start, |takes|, |shards|)
      requires shards[cursor].cap == perShard && Took(pasts, start, takes) && CaughtUp(pasts, start, |takes|)
      modifies shards, Bufs(), Clocks()
      ensures Kept(pasts) && took <= want && took <= perShard && (unwound ==> took > 0)
      ensures Took(pasts, start, takes + [took])
      ensures !unwound && took < want ==> CaughtUp(pasts, start, |takes| + 1)
      ensures CaughtUp(pasts, start, |takes|)
      ensures QuietRound(round) && old(SendersSame(pasts)) ==> SendersSame(pasts)
      ensures (unwound <==> took > 0 && unwinds(took - 1)) && forall k :: 0 <= k < took - 1 ==> !unwinds(k)
    {
      hide Kept, Spsc.Channel.Since, Spsc.Channel.Valid;
      ghost var lens := seq(|shards|, i requires 0 <= i < |shards| reads shards => |shards[i].hist.delivered|);
      took, unwound := DrainShard(want, unwinds, round, pasts);
      TookMore(pasts, start, takes, cursor, took, lens);
    }

    /** `Receiver::drain` with a callback that unwinds on those of its calls of which `unwinds` says so: each shard is visited at most once, so one call takes at most `total_cap`. A call
        that ends short of `max` has delivered everything that was published when it began. The history of
        `try_recv` starts anew, because a drain may leave the cursor where it is. */
    method Drain(max: nat, unwinds: nat -> bool, env: seq<Round>)
        returns (count: nat, unwound: bool, ghost call: DrainCall, ghost pasts: seq<seq<SpscMachine.State>>)
      requires Valid()
      modifies this, shards, Bufs(), Clocks()
      ensures Valid() && Kept(pasts) && |pasts| == |shards|
      ensures forall i :: 0 <= i < |shards| ==> pasts[i] == old(shards[i].run)
      ensures count <= max && count <= |shards| * perShard
      ensures IsDrainCall(call, |shards|, max, perShard) && Sum(call.takes) == count && call.unwound == unwound
      ensures call.before == Cursor(old(cursor), old(budget)) && call.after == Cursor(cursor, budget)
      ensures Took(pasts, old(cursor), call.takes)
      ensures !unwound && count < max ==> CaughtUp(pasts, old(cursor), |shards|)
      ensures call.takes != [] ==> CaughtUp(pasts, old(cursor), |call.takes| - 1)
      ensures (unwound <==> count > 0 && unwinds(count - 1)) && forall k :: 0 <= k < count - 1 ==> !unwinds(k)
      ensures AllQuiet(env) ==> SendersSame(pasts)
      ensures forall i :: 0 <= i < |shards| ==> Last(pasts[i]) == old(shards[i].Abs())
    {
      hide Spsc.Channel.Valid, IsHistory, Kept, Took, CaughtUp, QuietRound;
      ghost var before := Cursor(cursor, budget);
      pasts := Snapshot();
      FreshSenders(pasts);
      TookNothing(pasts, cursor);
      ghost var takes;
      count, unwound, takes := DrainSweep(max, unwinds, env, pasts);
      call := DrainCall(before, takes, unwound, Cursor(cursor, budget));
      calls := [];
      NoHistory(|shards|);
      ValidAgain(pasts);
    }

    lemma TookNothing(pasts: seq<seq<SpscMachine.State>>, start: nat)
      requires Kept(pasts) && NothingTaken(pasts) && start < |shards|
      ensures Took(pasts, start, []) && CaughtUp(pasts, start, 0)
    {
    }

    method DrainSweep(max: nat, unwinds: nat -> bool, env: seq<Round>, ghost pasts: seq<seq<SpscMachine.State>>)
        returns (count: nat, unwound: bool, ghost takes: seq<nat>)
      requires Kept(pasts) && cursor < |shards| && (forall i :: 0 <= i < |shards| ==> shards[i].cap == perShard)
      requires Took(pasts, cursor, []) && CaughtUp(pasts, cursor, 0) && SendersSame(pasts)
      modifies this`cursor, this`budget, shards, Bufs(), Clocks()
      ensures Kept(pasts) && cursor < |shards| && count <= max && count <= |shards| * perShard
      ensures IsDrainCall(DrainCall(Cursor(old(cursor), old(budget)), takes, unwound, Cursor(cursor, budget)), |shards|, max, perShard)
      ensures Sum(takes) == count && Took(pasts, old(cursor), takes)
      ensures !unwound && count < max ==> CaughtUp(pasts, old(cursor), |shards|)
      ensures takes != [] ==> CaughtUp(pasts, old(cursor), |takes| - 1)
      ensures AllQuiet(env) ==> SendersSame(pasts)
      ensures (unwound <==> count > 0 && unwinds(count - 1)) && forall k :: 0 <= k < count - 1 ==> !unwinds(k)
    {
      hide Kept, Took, CaughtUp, Spsc.Channel.Valid, Spsc.Channel.Since, IsDrainCall, TakesOK, Sum, SendersSame, QuietRound, AllQuiet, Separate;
      NoTakes(max, perShard);
      var n := |shards|;
      count, unwound, takes := 0, false, [];
      for m := 0 to n
        invariant Kept(pasts) && cursor == Nth(old(cursor), m, n) && cursor < n && budget == (if m == 0 then old(budget) else 0)
        invariant |takes| == m && Sum(takes) == count <= max && (m > 0 ==> count < max) && count <= m * perShard
        invariant Took(pasts, old(cursor), takes) && CaughtUp(pasts, old(cursor), m) && !unwound && TakesOK(takes, max, perShard)
        invariant m > 0 ==> CaughtUp(pasts, old(cursor), m - 1)
        invariant AllQuiet(env) ==> SendersSame(pasts)
        invariant forall k :: 0 <= k < count ==> !unwinds(k)
      {
        if count >= max {
          WithinTotal(0, n, perShard);
          NothingWanted(Cursor(cursor, budget), n, perShard);
          return;
        }
        var took;
        QuietAt(env, m);
        var later := From(unwinds, count);
        took, unwound := DrainTurn(max - count, later, RoundAt(env, m), pasts, old(cursor), takes);
        UnwindsLater(unwinds, later, count, took, unwound);
        SumMore(takes, took);
        TakesMore(takes, took, max, perShard);
        WithinTotal(m + 1, n, perShard);
        takes := takes + [took];
        var full := took == max - count;
        count := count + took;
        if full || unwound {
          StoppedHere(Cursor(old(cursor), old(budget)), takes, unwound, n, max, perShard);
          return;
        }
        AdvanceCursor();
      }
      WentRound(Cursor(old(cursor), old(budget)), takes, n, max, perShard);
    }

    lemma NoHistory(n: nat)
      ensures IsHistory([], n)
    {
    }

    // ---------- how long a shard can wait, and how drains starve one ----------

    /** The shard is empty and its producer idle. */
    ghost predicate IdleShard(c: nat)
      requires c < |shards|
      reads shards
    {
      && shards[c].tx.pc == SpscMachine.Idle && !shards[c].disconnected
      && shards[c].tail == shards[c].rx.head
    }

    /** So is the one under the cursor. */
    ghost predicate Idling()
      requires cursor < |shards|
      reads this, shards
    {
      IdleShard(cursor)
    }

    /** The producer of shard `c` sends `count` payloads, and nobody else runs. */
    method Refill(c: nat, count: nat)
      requires Valid() && c < |shards| && IdleShard(c) && count <= perShard
      modifies shards[c], shards[c].buf, shards[c].clock
      ensures Valid() && shards[c].tx.pc == SpscMachine.Idle && !shards[c].disconnected
      ensures shards[c].rx == old(shards[c].rx) && shards[c].tail == old(shards[c].tail) + count
    {
      hide Spsc.Channel.Valid, Spsc.Channel.Since, IsHistory;
      var shard := shards[c];
      shard.AtRest();
      for i := 0 to count
        invariant shard.Valid() && shard.tx.pc == SpscMachine.Idle && !shard.disconnected
        invariant shard.rx == old(shard.rx) && shard.head == old(shard.rx.head) && shard.tail == old(shard.tail) + i
      {
        var r, v, rest;
        ghost var moment;
        r, v, rest, moment := shard.TrySend([]);
      }
    }

    /** The producer refills its shard and the receiver drains: `max` payloads if the callback returns, one if it
        unwinds. The cursor stays, and no other shard is visited. */
    method StarvingRound(max: nat, unwinding: bool)
      requires Valid() && Idling() && |shards| > 1 && 0 < max && (unwinding || max <= perShard) && perShard > 0
      modifies this, shards, Bufs(), Clocks()
      ensures Valid() && cursor == old(cursor) && budget == old(budget) && Idling()
      ensures |shards[cursor].hist.delivered| == |old(shards[cursor].hist.delivered)| + (if unwinding then 1 else max)
      ensures forall i :: 0 <= i < |shards| && i != cursor ==>
                |shards[i].hist.delivered| == |old(shards[i].hist.delivered)| && shards[i].tail == old(shards[i].tail)
    {
      hide Spsc.Channel.Valid, IsHistory;
      PerShardFifo(cursor);
      Refill(cursor, if unwinding then 1 else max);
      PerShardFifo(cursor);
      DrainHere(if unwinding then 1 else max, max, unwinding);
    }

    /** The drain of such a round. */
    method DrainHere(amount: nat, max: nat, unwinding: bool)
      requires Valid() && |shards| > 1 && 0 < max && amount == (if unwinding then 1 else max)
      requires shards[cursor].tx.pc == SpscMachine.Idle && !shards[cursor].disconnected
      requires shards[cursor].tail == shards[cursor].rx.head + amount
      modifies this, shards, Bufs(), Clocks()
      ensures Valid() && cursor == old(cursor) && budget == old(budget) && Idling()
      ensures |shards[cursor].hist.delivered| == |old(shards[cursor].hist.delivered)| + amount
      ensures forall i :: 0 <= i < |shards| && i != cursor ==>
                |shards[i].hist.delivered| == |old(shards[i].hist.delivered)| && shards[i].tail == old(shards[i].tail)
    {
      hide Spsc.Channel.Valid, Spsc.Channel.Since, IsHistory, IsDrainCall, Took, CaughtUp, QuietRound, Valid;
      FreshFacts();
      var count, unwound;
      ghost var call, pasts;
      ghost var start := cursor;
      var unwinds := (k: nat) => unwinding;
      count, unwound, call, pasts := Drain(max, unwinds, []);
      assert count > 1 ==> !unwinds(0);
      TakesAmount(call, pasts, start, amount, max);
      OnlyFirst(call, pasts, start, amount, max);
      FreshFacts();
    }

    lemma FreshFacts()
      requires Valid()
      ensures cursor < |shards| && forall i :: 0 <= i < |shards| ==> |shards[i].hist.delivered| == shards[i].rx.head
    {
      hide Spsc.Channel.Valid, IsHistory;
      forall i | 0 <= i < |shards| ensures |shards[i].hist.delivered| == shards[i].rx.head {
        PerShardFifo(i);
      }
    }

    /** The first shard had `amount` payloads: `max`, or one and the callback unwinds at once. So the drain has
        stopped there. */
    lemma TakesAmount(call: DrainCall, pasts: seq<seq<SpscMachine.State>>, start: nat, amount: nat, max: nat)
      requires Valid() && |shards| > 1 && start < |shards| == |pasts| && forall i :: 0 <= i < |pasts| ==> |pasts[i]| > 0
      requires IsDrainCall(call, |shards|, max, perShard) && 0 < amount <= max && call.before.at == start
      requires if call.unwound then Sum(call.takes) == amount else amount == max || (Sum(call.takes) == 0 && CaughtUp(pasts, start, |shards|))
      requires Took(pasts, start, call.takes) && (call.takes != [] ==> CaughtUp(pasts, start, |call.takes| - 1))
      requires Last(pasts[start]).tail == Last(pasts[start]).rx.head + amount
      requires |Last(pasts[start]).hist.delivered| == Last(pasts[start]).rx.head
      ensures call.takes == [amount]
    {
      hide Spsc.Channel.Valid, IsHistory;
      FreshFacts();
      assert Distance(start, start, |shards|) == 0;
      FirstTakes(call.takes, max, perShard);
      SumHasFirst(call.takes);
      assert |call.takes| == 1;
    }

    /** A drain that took only from its first shard has left the cursor there. */
    lemma OnlyFirst(call: DrainCall, pasts: seq<seq<SpscMachine.State>>, start: nat, amount: nat, max: nat)
      requires start < |shards| == |pasts| && |shards| > 1 && forall i :: 0 <= i < |pasts| ==> |pasts[i]| > 0
      requires IsDrainCall(call, |shards|, max, perShard) && max > 0 && call.before.at == start && call.takes == [amount]
      requires Took(pasts, start, call.takes)
      ensures call.after == call.before
      ensures |shards[start].hist.delivered| == |Last(pasts[start]).hist.delivered| + amount
      ensures forall i :: 0 <= i < |shards| && i != start ==> |shards[i].hist.delivered| == |Last(pasts[i]).hist.delivered|
    {
      forall i | 0 <= i < |shards| && i != start
        ensures |shards[i].hist.delivered| == |Last(pasts[i]).hist.delivered|
      {
        assert Distance(start, i, |shards|) > 0;
      }
      assert Distance(start, start, |shards|) == 0;
    }

    /** Shard `k` has something; the others are empty, with idle producers. */
    ghost predicate OnlyWaiting(k: nat)
      requires k < |shards|
      reads shards
    {
      shards[k].rx.head < shards[k].tail && forall i :: 0 <= i < |shards| && i != k ==> IdleShard(i)
    }

    /** The fairness bound is reached on the receiver class, from every cursor and budget: while the producers
        of the other shards send one payload each time their turn comes, exactly `Patience` calls of `try_recv`
        deliver from them, and shard `k`, which has something all the while, gets nothing. From a fresh budget
        the shard before the cursor thus waits for `32 * (n_shards - 1)` deliveries. */
    method WaitToTheBound(k: nat)
      requires Valid() && k < |shards| && perShard > 0 && OnlyWaiting(k)
      modifies this, shards, Bufs(), Clocks()
      ensures Valid() && OnlyWaiting(k)
      ensures |calls| == |old(calls)| + Patience(Cursor(old(cursor), old(budget)), |shards|, k)
      ensures shards[k].rx.head == old(shards[k].rx.head) && shards[k].hist.delivered == old(shards[k].hist.delivered)
      ensures Patience(Cursor(cursor, budget), |shards|, k) == 0
    {
      hide Spsc.Channel.Valid, IsHistory, OnlyWaiting, Patience;
      var patience := Patience(Cursor(cursor, budget), |shards|, k);
      for x := 0 to patience
        invariant Valid() && OnlyWaiting(k) && |calls| == |old(calls)| + x
        invariant Patience(Cursor(cursor, budget), |shards|, k) == patience - x
        invariant shards[k].rx.head == old(shards[k].rx.head) && shards[k].hist.delivered == old(shards[k].hist.delivered)
      {
        RefillAndServe(k);
      }
    }

    /** The shard whose turn it is gets one payload, and the call delivers it. */
    method RefillAndServe(k: nat)
      requires Valid() && k < |shards| && perShard > 0 && OnlyWaiting(k) && Patience(Cursor(cursor, budget), |shards|, k) > 0
      modifies this, shards, Bufs(), Clocks()
      ensures Valid() && OnlyWaiting(k) && |calls| == |old(calls)| + 1
      ensures Patience(Cursor(cursor, budget), |shards|, k) == Patience(Cursor(old(cursor), old(budget)), |shards|, k) - 1
      ensures shards[k].rx.head == old(shards[k].rx.head) && shards[k].hist.delivered == old(shards[k].hist.delivered)
    {
      hide Spsc.Channel.Valid, IsHistory;
      var c := Begin(Cursor(cursor, budget), |shards|).at;
      assert c != k && IdleShard(c);
      Refill(c, 1);
      forall i | 0 <= i < |shards| ensures shards[i].run != [] && OneRefilled(Last(shards[i].run), i, k, c) {
        assert i != c ==> shards[i] != shards[c];
        assert old(i == k || IdleShard(i));
        PerShardFifo(i);
        Latest(i);
      }
      Latest(k);
      ServeRefilled(k, c);
    }

    lemma Latest(i: nat)
      requires Valid() && i < |shards|
      ensures shards[i].run != [] && Last(shards[i].run) == shards[i].Abs()
    {
      hide IsHistory, Spsc.Channel.Logged;
    }

    method ServeRefilled(k: nat, c: nat)
      requires Valid() && k < |shards| && c < |shards| && c != k && c == Begin(Cursor(cursor, budget), |shards|).at
      requires Patience(Cursor(cursor, budget), |shards|, k) > 0
      requires forall i :: 0 <= i < |shards| ==> shards[i].run != [] && OneRefilled(Last(shards[i].run), i, k, c)
      modifies this, shards, Bufs(), Clocks()
      ensures Valid() && OnlyWaiting(k) && |calls| == |old(calls)| + 1
      ensures Patience(Cursor(cursor, budget), |shards|, k) == Patience(Cursor(old(cursor), old(budget)), |shards|, k) - 1
      ensures shards[k].rx.head == Last(old(shards[k].run)).rx.head && shards[k].hist.delivered == Last(old(shards[k].run)).hist.delivered
    {
      hide Spsc.Channel.Valid, IsHistory, Kept, Patience, Begin, IsCall, OnlyWaiting, TakenFrom, SendersSame;
      var r;
      ghost var call, pasts;
      r, call, pasts := TryRecv([]);
      assert OneRefilled(Last(pasts[c]), c, k, c);
      ServedAtOnce(call, |shards|, c);
      PatienceFalls(call, |shards|, k);
      assert calls[|calls| - 1] == call;
      AfterServing(pasts, k, c, r.value);
    }

    lemma AfterServing(pasts: seq<seq<SpscMachine.State>>, k: nat, c: nat, v: Ticket)
      requires Valid() && |pasts| == |shards| && k < |shards| && c < |shards| && c != k
      requires forall i :: 0 <= i < |shards| ==> pasts[i] != [] && OneRefilled(Last(pasts[i]), i, k, c)
      requires SendersSame(pasts) && TakenFrom(pasts, c, v)
      ensures OnlyWaiting(k)
      ensures shards[k].rx.head == Last(pasts[k]).rx.head && shards[k].hist.delivered == Last(pasts[k]).hist.delivered
    {
      hide Spsc.Channel.Valid, IsHistory, Valid;
      FreshFacts();
      forall i | 0 <= i < |shards| && i != k ensures IdleShard(i) {
        assert OneRefilled(Last(pasts[i]), i, k, c) && shards[i].SenderSame(Last(pasts[i]));
      }
      assert OneRefilled(Last(pasts[k]), k, k, c) && shards[k].SenderSame(Last(pasts[k]));
    }

    /** Drains without a share for the others, on the receiver class: while the producer of one shard
        refills it, any number of drains leave the cursor there and never visit shard `k`, which has something all
        the while. If the callback returns this needs `max <= perShard` (see `Fairness.DrainReachesAll`); if it unwinds it
        happens for every `max`. */
    method StarveByDrains(k: nat, max: nat, unwinding: bool, rounds: nat)
      requires Valid() && Idling() && k < |shards| && k != cursor && shards[k].rx.head < shards[k].tail
      requires 0 < max && (unwinding || max <= perShard) && perShard > 0
      modifies this, shards, Bufs(), Clocks()
      ensures Valid() && cursor == old(cursor) && budget == old(budget)
      ensures |shards[cursor].hist.delivered| == |old(shards[cursor].hist.delivered)| + rounds * (if unwinding then 1 else max)
      ensures shards[k].rx.head == old(shards[k].rx.head) < shards[k].tail
      ensures |shards[k].hist.delivered| == |old(shards[k].hist.delivered)|
    {
      hide Spsc.Channel.Valid, IsHistory;
      PerShardFifo(k);
      var amount := if unwinding then 1 else max;
      for r := 0 to rounds
        invariant Valid() && Idling() && cursor == old(cursor) && budget == old(budget)
        invariant |shards[cursor].hist.delivered| == |old(shards[cursor].hist.delivered)| + r * amount
        invariant |shards[k].hist.delivered| == |old(shards[k].hist.delivered)| && shards[k].tail == old(shards[k].tail)
      {
        StarvingRound(max, unwinding);
        assert (r + 1) * amount == r * amount + amount;
      }
      PerShardFifo(k);
    }
  }

  /** The shards that come less than `m` steps after `start` had nothing to deliver in the latest states of `pasts`. */
  ghost predicate IdleUpTo(pasts: seq<seq<SpscMachine.State>>, start: nat, m: nat)
    requires start < |pasts| && forall i :: 0 <= i < |pasts| ==> |pasts[i]| > 0
  {
    forall i :: 0 <= i < |pasts| && Distance(start, i, |pasts|) < m ==> !Waiting(Last(pasts[i]))
  }

  /** Shard `k` has something, shard `c` has one payload, and the others are empty; the producers are idle. */
  ghost predicate OneRefilled(s: SpscMachine.State, i: nat, k: nat, c: nat) {
    && |s.hist.delivered| == s.rx.head
    && if i == k then s.rx.head < s.tail
       else s.tx.pc == SpscMachine.Idle && !s.disconnected && s.tail == s.rx.head + (if i == c then 1 else 0)
  }

  /** A call whose first shard has something is served there. */
  lemma ServedAtOnce(call: Call, n: nat, c: nat)
    requires IsCall(call, n) && c == Begin(call.before, n).at && !PassedOver(call, n, c)
    ensures call.served && call.misses == 0 && call.after == Cursor(c, Begin(call.before, n).budget + 1)
  {
    assert Distance(c, c, n) == 0;
  }

  /** Where a call begins: the cursor stays for 32 deliveries and then moves on. */
  lemma BeginsAt(c: Cursor, n: nat)
    requires c.at < n
    ensures c.budget < 32 ==> Begin(c, n) == c
    ensures c.budget >= 32 ==> Begin(c, n) == Cursor(if c.at + 1 == n then 0 else c.at + 1, 0)
  {
  }

  /** It uses up one unit of the patience of a shard further on, and no more. */
  lemma PatienceFalls(call: Call, n: nat, k: nat)
    requires IsCall(call, n) && call.served && call.misses == 0 && k < n && Patience(call.before, n, k) > 0
    ensures Patience(call.after, n, k) == Patience(call.before, n, k) - 1
  {
  }

  /** The latest state of a history. */
  ghost function Last(past: seq<SpscMachine.State>): SpscMachine.State
    requires |past| > 0
  {
    past[|past| - 1]
  }

  /** The shard has something to deliver. */
  ghost predicate Waiting(s: SpscMachine.State) {
    s.rx.head < s.tail
  }

  lemma SumMore(takes: seq<nat>, took: nat)
    ensures Sum(takes + [took]) == Sum(takes) + took
  {
    assert (takes + [took])[..|takes|] == takes;
  }

  lemma WithinTotal(m: nat, n: nat, per: nat)
    requires m <= n
    ensures m * per <= n * per && (m > 0 ==> m * per == (m - 1) * per + per)
  {
    assert (n - m) * per >= 0;
    assert n * per == m * per + (n - m) * per;
  }

  lemma OneFits(n: nat, per: nat)
    requires n > 0 && n * per <= USIZE_MAX
    ensures per <= USIZE_MAX
  {
    assert n * per == (n - 1) * per + per;
    assert (n - 1) * per >= 0;
  }

  lemma InitRests(s: SpscMachine.State)
    requires SpscMachine.Init(s)
    ensures s.rx.pc == SpscMachine.Resting
  {
  }

  lemma NothingWanted(c: Cursor, n: nat, per: nat)
    requires c.at < n
    ensures IsDrainCall(DrainCall(c, [], false, c), n, 0, per)
  {
  }

  lemma StoppedHere(c: Cursor, takes: seq<nat>, unwound: bool, n: nat, max: nat, per: nat)
    requires c.at < n && 0 < |takes| <= n && Sum(takes) <= max && max > 0 && (unwound || Sum(takes) == max)
    requires TakesOK(takes, max, per) && (unwound ==> takes[|takes| - 1] > 0)
    ensures var after := Cursor(Nth(c.at, |takes| - 1, n), if |takes| == 1 then c.budget else 0);
      IsDrainCall(DrainCall(c, takes, unwound, after), n, max, per)
  {
  }

  lemma WentRound(c: Cursor, takes: seq<nat>, n: nat, max: nat, per: nat)
    requires c.at < n && |takes| == n && Sum(takes) < max && TakesOK(takes, max, per)
    ensures IsDrainCall(DrainCall(c, takes, false, Cursor(Nth(c.at, n, n), 0)), n, max, per)
  {
  }

  /** The callback after its first `n` calls. */
  function From(unwinds: nat -> bool, n: nat): nat -> bool {
    (k: nat) => unwinds(n + k)
  }

  lemma UnwindsLater(unwinds: nat -> bool, later: nat -> bool, n: nat, took: nat, unwound: bool)
    requires later == From(unwinds, n) && forall k :: 0 <= k < n ==> !unwinds(k)
    requires (unwound <==> took > 0 && later(took - 1)) && forall k :: 0 <= k < took - 1 ==> !later(k)
    ensures forall k :: 0 <= k < n + took - 1 ==> !unwinds(k)
    ensures took > 0 ==> (unwound <==> unwinds(n + took - 1))
  {
    forall k | 0 <= k < n + took - 1 ensures !unwinds(k) {
      if n <= k { assert !later(k - n); }
    }
  }

  lemma NoTakes(max: nat, per: nat)
    ensures TakesOK([], max, per) && Sum([]) == 0
  {
  }

  lemma TakesMore(takes: seq<nat>, took: nat, max: nat, per: nat)
    requires TakesOK(takes, max, per) && took <= per && (takes != [] ==> Sum(takes) < max)
    ensures TakesOK(takes + [took], max, per)
  {
    forall i | 0 < i < |takes| + 1 ensures Sum((takes + [took])[..i]) < max {
      assert (takes + [took])[..i] == takes[..i];
      assert takes[..|takes|] == takes;
    }
  }

  /** The sum is at least what the first and the last shard gave. */
  lemma {:induction false} SumHasFirst(takes: seq<nat>)
    ensures |takes| >= 1 ==> Sum(takes) >= takes[0]
    ensures |takes| >= 2 ==> Sum(takes) >= takes[0] + takes[|takes| - 1]
  {
    if |takes| >= 2 {
      SumHasFirst(takes[..|takes| - 1]);
    }
  }

  /** The first shard gives less than `max` if a second one is visited, and is the whole sum if not. */
  lemma FirstTakes(takes: seq<nat>, max: nat, per: nat)
    requires TakesOK(takes, max, per)
    ensures |takes| >= 2 ==> takes[0] < max
    ensures |takes| == 1 ==> takes == [Sum(takes)]
  {
    if |takes| >= 1 {
      assert takes[..1] == [takes[0]];
      SumOfOne(takes[0]);
    }
  }
}

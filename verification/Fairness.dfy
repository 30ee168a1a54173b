/**
 The sticky cursor of the sharded receiver as arithmetic: which shards a call visits, where it leaves the
 cursor, and why no shard that has something can be passed over for long by `try_recv`.
 */
module Fairness {
  const VISIT_BUDGET: nat := 32

  datatype Cursor = Cursor(at: nat, budget: nat)

  /** The shard `k` steps after `at` in the ring of `n` shards. */
  function Nth(at: nat, k: nat, n: nat): nat
    requires at < n && k <= n
  {
    if at + k < n then at + k else at + k - n
  }

  /** How many steps after `at` shard `k` comes. */
  function Distance(at: nat, k: nat, n: nat): (d: nat)
    requires at < n && k < n
    ensures d < n && Nth(at, d, n) == k
  {
    if at <= k then k - at else k + n - at
  }

  /** Receiver::advance. */
  function Advance(c: Cursor, n: nat): Cursor
    requires c.at < n
  {
    Cursor(Nth(c.at, 1, n), 0)
  }

  /** What `try_recv` does first. */
  function Begin(c: Cursor, n: nat): (b: Cursor)
    requires c.at < n
    ensures b.at < n && b.budget < 32
  {
    if c.budget >= VISIT_BUDGET then Advance(c, n) else c
  }

  /** One call of `try_recv`: it passed over `misses` shards and then was served, or passed over all. */
  datatype Call = Call(before: Cursor, misses: nat, served: bool, after: Cursor)

  ghost predicate IsCall(c: Call, n: nat) {
    && c.before.at < n && (if c.served then c.misses < n else c.misses == n)
    && var b := Begin(c.before, n);
       c.after == if c.served then Cursor(Nth(b.at, c.misses, n), (if c.misses == 0 then b.budget else 0) + 1) else Cursor(b.at, 0)
  }

  ghost predicate IsHistory(calls: seq<Call>, n: nat) {
    && (forall i :: 0 <= i < |calls| ==> IsCall(calls[i], n))
    && (forall i {:trigger calls[i]} :: 0 < i < |calls| ==> calls[i].before == calls[i - 1].after)
  }

  /** The call probed shard `k` and got nothing. */
  ghost predicate PassedOver(c: Call, n: nat, k: nat)
    requires c.before.at < n && k < n
  {
    Distance(Begin(c.before, n).at, k, n) < c.misses
  }

  ghost predicate ServedFrom(c: Call, n: nat, k: nat)
    requires c.before.at < n && k < n
  {
    c.served && Distance(Begin(c.before, n).at, k, n) == c.misses
  }

  /** How many deliveries from other shards can still come before shard `k` is reached. */
  function Patience(c: Cursor, n: nat, k: nat): (p: nat)
    requires c.at < n && k < n
    ensures p <= 32 * (n - 1)
  {
    var b := Begin(c, n);
    var d := Distance(b.at, k, n);
    if d == 0 then 0 else VISIT_BUDGET - b.budget + VISIT_BUDGET * (d - 1)
  }

  /** A call that finds shard `k` neither empty nor served is served by another one, and uses up patience. */
  lemma CallUsesPatience(c: Call, n: nat, k: nat)
    requires IsCall(c, n) && k < n && !PassedOver(c, n, k) && !ServedFrom(c, n, k)
    ensures c.served && c.after.at < n
    ensures Patience(c.after, n, k) < Patience(c.before, n, k)
  {
    var b := Begin(c.before, n);
    var d := Distance(b.at, k, n);
    assert d > c.misses;
    assert Distance(c.after.at, k, n) == d - c.misses;
    if c.after.budget >= VISIT_BUDGET {
      assert Distance(Begin(c.after, n).at, k, n) == d - c.misses - 1;
    }
  }

  /** Fairness, for every cursor, budget and refill pattern: during any stretch of calls in which shard `k`
      has something (no call passes over it) and is not served, every call delivers from another shard, and
      there are at most `32 * (n - 1)` of them. */
  lemma {:induction false} WaitIsBounded(calls: seq<Call>, n: nat, k: nat, i: nat, j: nat)
    requires IsHistory(calls, n) && k < n && i <= j < |calls|
    requires forall x :: i <= x < j ==> !PassedOver(calls[x], n, k) && !ServedFrom(calls[x], n, k)
    ensures forall x :: i <= x < j ==> calls[x].served
    ensures j - i + Patience(calls[j].before, n, k) <= Patience(calls[i].before, n, k) <= 32 * (n - 1)
    ensures j - i <= 32 * (n - 1)
  {
    if i < j {
      WaitIsBounded(calls, n, k, i, j - 1);
      CallUsesPatience(calls[j - 1], n, k);
    }
  }

  /** ... so the next call that does not pass over it serves it. */
  lemma ServedInTime(calls: seq<Call>, n: nat, k: nat, i: nat)
    requires IsHistory(calls, n) && k < n && i + 32 * (n - 1) < |calls|
    requires forall x :: i <= x <= i + 32 * (n - 1) ==> !PassedOver(calls[x], n, k)
    ensures exists x :: i <= x <= i + 32 * (n - 1) && ServedFrom(calls[x], n, k)
  {
    if forall x :: i <= x <= i + 32 * (n - 1) ==> !ServedFrom(calls[x], n, k) {
      var j := i + 32 * (n - 1);
      WaitIsBounded(calls, n, k, i, j);
      CallUsesPatience(calls[j], n, k);
    }
  }

  // ---------- the bound is exact ----------

  /** Every producer keeps its shard full: the receiver takes 32 from each in turn. */
  function Busy(x: nat): Cursor {
    if x == 0 then Cursor(0, 0) else Cursor((x - 1) / VISIT_BUDGET, (x - 1) % VISIT_BUDGET + 1)
  }

  /** The last shard waits for exactly `32 * (n - 1)` deliveries from the others (`Sharded.Receiver.WaitToTheBound` is
      such a history on the class). */
  lemma BoundIsExact(n: nat) returns (calls: seq<Call>)
    requires n > 0
    ensures IsHistory(calls, n) && |calls| == 32 * (n - 1) + 1
    ensures forall x :: 0 <= x < |calls| ==> !PassedOver(calls[x], n, n - 1)
    ensures forall x :: 0 <= x < |calls| - 1 ==> calls[x].served && !ServedFrom(calls[x], n, n - 1)
    ensures ServedFrom(calls[|calls| - 1], n, n - 1)
  {
    calls := seq(32 * (n - 1) + 1, (x: nat) => Call(Busy(x), 0, true, Busy(x + 1)));
    forall x | 0 <= x < |calls|
      ensures IsCall(calls[x], n) && Begin(calls[x].before, n).at == x / VISIT_BUDGET
    {
      BusyCall(x, n);
    }
  }

  lemma BusyCall(x: nat, n: nat)
    requires x <= 32 * (n - 1) && n > 0
    ensures IsCall(Call(Busy(x), 0, true, Busy(x + 1)), n) && Begin(Busy(x), n) == Cursor(x / VISIT_BUDGET, x % VISIT_BUDGET)
  {
  }

  // ---------- drain does not share the bound ----------

  function Sum(s: seq<nat>): nat {
    if s == [] then 0 else Sum(s[..|s| - 1]) + s[|s| - 1]
  }

  /** One call of `drain`: what it took from the shards it visited, in turn. */
  datatype DrainCall = DrainCall(before: Cursor, takes: seq<nat>, unwound: bool, after: Cursor)

  /** The call stopped within the last shard it visited: `max` was reached, or the callback unwound. */
  ghost predicate Stopped(c: DrainCall, max: nat) {
    |c.takes| > 0 && (c.unwound || Sum(c.takes) == max)
  }

  /** No shard gives more than its capacity, and the next one is visited only while `max` is not reached. */
  ghost predicate TakesOK(takes: seq<nat>, max: nat, per: nat) {
    && (forall i :: 0 <= i < |takes| ==> takes[i] <= per)
    && (forall i :: 0 < i < |takes| ==> Sum(takes[..i]) < max)
  }

  /** Every shard is visited at most once. A call that stops within a shard leaves the cursor there, with the
      budget as it was if that is where it began. */
  ghost predicate IsDrainCall(c: DrainCall, n: nat, max: nat, per: nat) {
    && c.before.at < n && |c.takes| <= n && Sum(c.takes) <= max && TakesOK(c.takes, max, per)
    && (max == 0 ==> c.takes == []) && (max > 0 && !Stopped(c, max) ==> |c.takes| == n)
    && (c.unwound ==> |c.takes| > 0 && c.takes[|c.takes| - 1] > 0)
    && c.after == if c.takes == [] then c.before
                  else if Stopped(c, max) then Cursor(Nth(c.before.at, |c.takes| - 1, n), if |c.takes| == 1 then c.before.budget else 0)
                  else Cursor(Nth(c.before.at, |c.takes|, n), 0)
  }

  /** The call got no further than the shard where it began. */
  ghost predicate Stays(c: DrainCall) {
    |c.takes| == 1
  }

  lemma SumOfOne(take: nat)
    ensures Sum([take]) == take
  {
    assert [take][..0] == [];
  }

  /** A call that asks for more than a shard can hold, and whose callback returns, goes on to another shard. */
  lemma DrainMovesOn(c: DrainCall, n: nat, max: nat, per: nat)
    requires IsDrainCall(c, n, max, per) && !c.unwound && n > 1 && max > per
    ensures |c.takes| >= 2
  {
    if |c.takes| == 1 {
      assert c.takes == [c.takes[0]];
      SumOfOne(c.takes[0]);
    }
  }

  /** When a drain can stay on one shard: if its callback returns, exactly when `max` is at most the capacity of a
      shard; and if it unwinds, always. A caller can check `max` before the call. */
  lemma DrainStaysExactlyWhen(n: nat, max: nat, per: nat)
    requires n > 1 && max > 0 && per > 0
    ensures (exists c :: IsDrainCall(c, n, max, per) && !c.unwound && Stays(c)) <==> max <= per
    ensures exists c :: IsDrainCall(c, n, max, per) && c.unwound && Stays(c) && c.after == c.before
  {
    var zero := Cursor(0, 0);
    SumOfOne(max);
    SumOfOne(1);
    if max <= per {
      var c := DrainCall(zero, [max], false, zero);
      assert IsDrainCall(c, n, max, per) && !c.unwound && Stays(c);
    } else {
      forall c | IsDrainCall(c, n, max, per) && !c.unwound ensures !Stays(c) {
        DrainMovesOn(c, n, max, per);
      }
    }
    var u := DrainCall(zero, [1], true, zero);
    assert IsDrainCall(u, n, max, per) && u.unwound && Stays(u) && u.after == u.before;
  }

  /** Consecutive calls of `drain` whose callbacks return. */
  ghost predicate IsDrainHistory(calls: seq<DrainCall>, n: nat, max: nat, per: nat) {
    && (forall i :: 0 <= i < |calls| ==> IsDrainCall(calls[i], n, max, per) && !calls[i].unwound)
    && (forall i {:trigger calls[i]} :: 0 < i < |calls| ==> calls[i].before == calls[i - 1].after)
  }

  ghost predicate Visited(c: DrainCall, n: nat, k: nat)
    requires c.before.at < n && k < n
  {
    Distance(c.before.at, k, n) < |c.takes|
  }

  /** A call that does not reach shard `k` comes closer to it. */
  lemma DrainComesCloser(c: DrainCall, n: nat, max: nat, per: nat, k: nat)
    requires IsDrainCall(c, n, max, per) && !c.unwound && n > 1 && max > per && k < n && !Visited(c, n, k)
    ensures c.after.at < n && Distance(c.after.at, k, n) < Distance(c.before.at, k, n)
  {
    DrainMovesOn(c, n, max, per);
  }

  lemma {:induction false} DrainDistance(calls: seq<DrainCall>, n: nat, max: nat, per: nat, k: nat, i: nat)
    requires IsDrainHistory(calls, n, max, per) && n > 1 && max > per && k < n && i < |calls|
    requires forall x :: 0 <= x < i ==> !Visited(calls[x], n, k)
    ensures Distance(calls[i].before.at, k, n) + i <= n - 1
  {
    if i > 0 {
      DrainDistance(calls, n, max, per, k, i - 1);
      DrainComesCloser(calls[i - 1], n, max, per, k);
      assert calls[i].before == calls[i - 1].after;
    }
  }

  /** So with `max` above the capacity of a shard every shard is visited within `n - 1` drains, from any cursor. */
  lemma DrainReachesAll(calls: seq<DrainCall>, n: nat, max: nat, per: nat, k: nat)
    requires IsDrainHistory(calls, n, max, per) && n > 1 && max > per && k < n && |calls| >= n - 1
    ensures exists x :: 0 <= x < n - 1 && Visited(calls[x], n, k)
  {
    if forall x :: 0 <= x < n - 1 ==> !Visited(calls[x], n, k) {
      DrainDistance(calls, n, max, per, k, n - 2);
      DrainMovesOn(calls[n - 2], n, max, per);
      assert Visited(calls[n - 2], n, k);
    }
  }
}

/**
 The integer arithmetic the rings rely on: 64-bit `usize`, saturating addition, the `as i64`
 cast, and the equivalence of `seq & mask` and `seq >> shift` with remainder and quotient.

 `SlotOf` and `RoundOf` are the remainder and the quotient of a sequence number by the
 capacity, defined by repeated subtraction; the ring models are written with them.
 */
module Arith {
  const USIZE_MAX: nat := 0xFFFF_FFFF_FFFF_FFFF
  const I64_LIMIT: nat := 0x8000_0000_0000_0000

  /** `usize::saturating_add`, given the exact sum. */
  function Saturate(sum: nat): (r: nat)
    ensures r <= USIZE_MAX && r <= sum
  {
    if sum <= USIZE_MAX then sum else USIZE_MAX
  }

  /** The cast `u as i64` of a 64-bit unsigned value. */
  function AsI64(u: nat): int {
    if u < I64_LIMIT then u else u - 2 * I64_LIMIT
  }

  /** Slot index of a sequence number. */
  function SlotOf(seqNo: nat, cap: nat): (i: nat)
    requires cap > 0
    ensures i < cap
  {
    if seqNo < cap then seqNo else SlotOf(seqNo - cap, cap)
  }

  /** Round (lap) number of a sequence number. */
  function RoundOf(seqNo: nat, cap: nat): (r: nat)
    requires cap > 0
    ensures r <= seqNo
  {
    if seqNo < cap then 0 else 1 + RoundOf(seqNo - cap, cap)
  }

  /** What a publish of `seqNo` stores in its slot. */
  function Tag(seqNo: nat, cap: nat): int
    requires cap > 0
  {
    AsI64(RoundOf(seqNo, cap))
  }

  /** What the slot of `seqNo` holds until `seqNo` is published. */
  function StaleTag(seqNo: nat, cap: nat): int
    requires cap > 0
  {
    if seqNo < cap then -1 else Tag(seqNo - cap, cap)
  }

  /** A sequence number is recovered from its round and its slot. */
  lemma {:induction false} SlotAndRoundDecompose(seqNo: nat, cap: nat)
    requires cap > 0
    ensures seqNo == RoundOf(seqNo, cap) * cap + SlotOf(seqNo, cap)
  {
    if seqNo >= cap {
      SlotAndRoundDecompose(seqNo - cap, cap);
      assert RoundOf(seqNo, cap) * cap == RoundOf(seqNo - cap, cap) * cap + cap;
    }
  }

  /** Within one lap all slots are different. */
  lemma {:induction false} SlotsDifferWithinALap(a: nat, b: nat, cap: nat)
    requires cap > 0 && a < b < a + cap
    ensures SlotOf(a, cap) != SlotOf(b, cap)
  {
    if a >= cap {
      SlotsDifferWithinALap(a - cap, b - cap, cap);
    } else if b >= cap {
      assert SlotOf(b, cap) == b - cap;
    }
  }

  /** ... so no two sequences of the lap that starts at `head` have the same slot. */
  lemma OtherSlots(q: nat, head: nat, cap: nat)
    requires cap > 0 && head <= q < head + cap
    ensures forall p :: head <= p < head + cap && p != q ==> SlotOf(p, cap) != SlotOf(q, cap)
  {
    forall p | head <= p < head + cap && p != q ensures SlotOf(p, cap) != SlotOf(q, cap) {
      if p < q { SlotsDifferWithinALap(p, q, cap); } else { SlotsDifferWithinALap(q, p, cap); }
    }
  }

  /** The next occupant of a slot is one lap later and waits on the tag its predecessor published. */
  lemma NextLap(seqNo: nat, cap: nat)
    requires cap > 0
    ensures SlotOf(seqNo + cap, cap) == SlotOf(seqNo, cap)
    ensures RoundOf(seqNo + cap, cap) == RoundOf(seqNo, cap) + 1
    ensures StaleTag(seqNo + cap, cap) == Tag(seqNo, cap)
  {
  }

  /** The cast is injective on `usize`, so two different rounds never look alike. */
  lemma CastIsInjective(a: nat, b: nat)
    requires a <= USIZE_MAX && b <= USIZE_MAX
    ensures AsI64(a) == AsI64(b) <==> a == b
  {
  }

  /** No sequence up to `usize::MAX` can be mistaken for its predecessor in the slot, nor for the
      never-published mark -1, at any capacity including 1. */
  lemma TagIsFresh(seqNo: nat, cap: nat)
    requires cap > 0 && seqNo <= USIZE_MAX
    ensures Tag(seqNo, cap) != StaleTag(seqNo, cap)
  {
    if seqNo < cap {
      assert RoundOf(seqNo, cap) == 0;
    } else {
      CastIsInjective(RoundOf(seqNo, cap), RoundOf(seqNo - cap, cap));
    }
  }

  /** A claimed sequence is at most `usize::MAX - 1`, and then its tag is never the mark -1. */
  lemma {:induction false} TagIsNeverTheMark(seqNo: nat, cap: nat)
    requires cap > 0
    requires seqNo < USIZE_MAX
    ensures Tag(seqNo, cap) != -1
  {
    assert RoundOf(seqNo, cap) <= seqNo;
  }

  /** ... and the bound is exact: at capacity 1 the tag of `usize::MAX` would be -1. */
  lemma {:induction false} TagOfMaxIsTheMark()
    ensures USIZE_MAX == 0xFFFF_FFFF_FFFF_FFFF && Tag(USIZE_MAX, 1) == -1
  {
    RoundAtCapacityOne(USIZE_MAX);
  }

  lemma {:induction false} RoundAtCapacityOne(seqNo: nat)
    ensures RoundOf(seqNo, 1) == seqNo
  {
    SlotAndRoundDecompose(seqNo, 1);
  }

  // ---------- bit operations ----------

  function Pow2(k: nat): (p: nat)
    ensures p > 0
  {
    if k == 0 then 1 else 2 * Pow2(k - 1)
  }

  /** `a >> k`, one bit at a time. */
  function Shr(a: nat, k: nat): nat {
    if k == 0 then a else Shr(a / 2, k - 1)
  }

  /** `a & b`, one bit at a time. */
  function And(a: nat, b: nat): nat {
    if a == 0 || b == 0 then 0 else (a % 2) * (b % 2) + 2 * And(a / 2, b / 2)
  }

  /** Halving a sequence number and the capacity keeps the round and halves the slot. */
  lemma {:induction false} Halve(a: nat, c: nat)
    requires c > 0
    ensures RoundOf(a, 2 * c) == RoundOf(a / 2, c)
    ensures SlotOf(a, 2 * c) == a % 2 + 2 * SlotOf(a / 2, c)
  {
    if a >= 2 * c {
      Halve(a - 2 * c, c);
      assert (a - 2 * c) / 2 == a / 2 - c;
      assert (a - 2 * c) % 2 == a % 2;
    } else {
      assert a / 2 < c;
    }
  }

  /** `seq >> shift` is the round. */
  lemma {:induction false} ShiftIsRound(a: nat, shift: nat)
    ensures Shr(a, shift) == RoundOf(a, Pow2(shift))
  {
    if shift == 0 {
      RoundAtCapacityOne(a);
    } else {
      ShiftIsRound(a / 2, shift - 1);
      Halve(a, Pow2(shift - 1));
    }
  }

  lemma {:induction false} SlotAtCapacityOne(seqNo: nat)
    ensures SlotOf(seqNo, 1) == 0
  {
  }

  lemma {:induction false} SlotOfZero(cap: nat)
    requires cap > 0
    ensures SlotOf(0, cap) == 0
  {
  }

  /** `seq & mask` is the slot, with `mask == cap - 1`. */
  lemma {:induction false} MaskIsSlot(a: nat, shift: nat)
    ensures And(a, Pow2(shift) - 1) == SlotOf(a, Pow2(shift))
  {
    if shift == 0 {
      SlotAtCapacityOne(a);
    } else {
      var c := Pow2(shift - 1);
      Halve(a, c);
      MaskIsSlot(a / 2, shift - 1);
      assert (2 * c - 1) % 2 == 1 && (2 * c - 1) / 2 == c - 1;
      if a == 0 {
        SlotOfZero(c);
      } else if c == 1 {
        SlotAtCapacityOne(a / 2);
      }
    }
  }
}

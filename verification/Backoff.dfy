/** The claimer's exponential backoff, in nanoseconds of a 64-bit duration. */
module Backoff {

  const SECOND: int := 1_000_000_000
  const MAX_DURATION: int := 0x7FFF_FFFF_FFFF_FFFF

  // int64 arithmetic wraps around.
  function Wrap(n: int): int {
    (n + 0x8000_0000_0000_0000) % 0x1_0000_0000_0000_0000 - 0x8000_0000_0000_0000
  }

  function Advance(current: int, max: int): int {
    if current < max then
      var doubled := Wrap(current * 2);
      if doubled > max then max else doubled
    else current
  }

  function Pow2(k: nat): nat {
    if k == 0 then 1 else 2 * Pow2(k - 1)
  }

  // The delay of the k-th call after construction or reset.
  function Nth(max: int, k: nat): int {
    if k == 0 then SECOND else Advance(Nth(max, k - 1), max)
  }

  function ClosedForm(max: int, k: nat): int {
    if SECOND * Pow2(k) < max then SECOND * Pow2(k) else max
  }

  // The largest ceiling the doubling reaches without overflow: 1s * 2^33.
  const LIMIT: int := SECOND * 0x2_0000_0000

  lemma {:induction false} PowSum(a: nat, b: nat)
    ensures Pow2(a + b) == Pow2(a) * Pow2(b)
  {
    if a > 0 {
      PowSum(a - 1, b);
      assert Pow2(a + b) == 2 * Pow2(a - 1 + b);
    }
  }

  lemma {:induction false} PowPositive(k: nat)
    ensures Pow2(k) >= 1
  {
    if k > 0 {
      PowPositive(k - 1);
    }
  }

  lemma {:induction false} PowClimbs(a: nat, b: nat)
    requires a <= b
    ensures Pow2(a) <= Pow2(b)
  {
    if a < b {
      PowClimbs(a, b - 1);
      PowPositive(b - 1);
    }
  }

  lemma Pow32()
    ensures Pow2(32) == 0x1_0000_0000
  {
    assert Pow2(8) == 256;
    PowSum(8, 8);
    PowSum(16, 16);
  }

  // No power of two lies strictly between 2^32 and 2^33.
  lemma PowGap(k: nat)
    ensures Pow2(k) < 0x2_0000_0000 ==> Pow2(k) <= 0x1_0000_0000
  {
    Pow32();
    if k <= 32 {
      PowClimbs(k, 32);
    } else {
      PowClimbs(33, k);
    }
  }

  lemma {:induction false} DoublesToCeiling(max: int, k: nat)
    requires SECOND <= max <= LIMIT
    ensures Nth(max, k) == ClosedForm(max, k)
  {
    if k > 0 {
      DoublesToCeiling(max, k - 1);
      PowGap(k - 1);
      PowPositive(k - 1);
    }
  }

  lemma {:induction false} DoublesBelowLimit(max: int, k: nat)
    requires LIMIT < max <= MAX_DURATION && k <= 33
    ensures Nth(max, k) == SECOND * Pow2(k) && Pow2(k) <= 0x2_0000_0000
  {
    Pow32();
    if k > 0 {
      DoublesBelowLimit(max, k - 1);
      PowClimbs(k - 1, 32);
      PowPositive(k - 1);
    }
  }

  /** The k-th delay is min(1s * 2^k, max) for every k, if and only if max is at most 1s * 2^33: above
      it the thirty-fourth doubling overflows. */
  lemma ClosedFormIff(max: int)
    requires SECOND <= max <= MAX_DURATION
    ensures (forall k: nat :: Nth(max, k) == ClosedForm(max, k)) <==> max <= LIMIT
  {
    if max <= LIMIT {
      forall k: nat ensures Nth(max, k) == ClosedForm(max, k) {
        DoublesToCeiling(max, k);
      }
    } else {
      DoublesBelowLimit(max, 33);
      Pow32();
      assert Nth(max, 33) == LIMIT;
      assert Nth(max, 34) < 0 < ClosedForm(max, 34);
    }
  }

  /** Delays never decrease and never exceed the ceiling. */
  lemma {:induction false} DelaysClimb(max: int, j: nat, k: nat)
    requires SECOND <= max <= LIMIT && j <= k
    ensures SECOND <= Nth(max, j) <= Nth(max, k) <= max
  {
    DoublesToCeiling(max, k);
    PowPositive(k);
    if j < k {
      DelaysClimb(max, j, k - 1);
      DoublesToCeiling(max, k - 1);
      PowPositive(k - 1);
    }
  }

  class ExponentialBackoff {
    const min: int
    const max: int
    var current: int
    ghost var calls: nat

    constructor (ceiling: int)
      requires ceiling <= MAX_DURATION
      ensures Valid() && calls == 0 && max == if ceiling < SECOND then SECOND else ceiling
    {
      min, max := SECOND, if ceiling < SECOND then SECOND else ceiling;
      current, calls := SECOND, 0;
    }

    ghost predicate Valid()
      reads this
    {
      min == SECOND <= max <= MAX_DURATION && current == Nth(max, calls)
    }

    method Next() returns (delay: int)
      requires Valid()
      modifies this
      ensures Valid() && calls == old(calls) + 1
      ensures delay == Nth(max, old(calls))
      ensures max <= LIMIT ==> delay == ClosedForm(max, old(calls))
    {
      if max <= LIMIT {
        DoublesToCeiling(max, calls);
      }
      delay := current;
      if current < max {
        current := Wrap(current * 2);
        if current > max {
          current := max;
        }
      }
      calls := calls + 1;
    }

    method Reset()
      requires Valid()
      modifies this
      ensures Valid() && calls == 0
    {
      current, calls := min, 0;
    }
  }
}

/** Payouts from a pool in proportion to a recorded total, claim by claim. */
module Pools {
  import opened Arithmetic
  import opened StakeTypes

  /** What `count` claims were paid and what the `remaining` parts of `total` may still claim
      stays within the pool, up to half a unit per claim; both sides scaled by twice the
      total. */
  predicate PoolBounded(pool: Balance, total: Balance, paid: Balance, count: nat, remaining: Balance) {
    && remaining <= total
    && (total == 0 ==> paid == 0)
    && 2 * (total * paid) + 2 * (pool * remaining) <= 2 * (pool * total) + total * count
  }

  lemma FreshPool(pool: Balance, total: Balance, remaining: Balance)
    requires remaining <= total
    ensures PoolBounded(pool, total, 0, 0, remaining)
  {
    MulIsMonotone(remaining, total, pool);
  }

  lemma PoolShrinks(pool: Balance, total: Balance, paid: Balance, count: nat, remaining: Balance, less: Balance)
    requires PoolBounded(pool, total, paid, count, remaining) && less <= remaining
    ensures PoolBounded(pool, total, paid, count, less)
  {
    MulIsMonotone(less, remaining, pool);
  }

  /** Paying one claim its part of the pool keeps the rest bounded. */
  lemma PoolStep(pool: Balance, total: Balance, paid: Balance, count: nat, remaining: Balance, part: Balance)
    requires PoolBounded(pool, total, paid, count, remaining) && part <= remaining && total > 0
    ensures PoolBounded(pool, total, paid + ProRata(PERBILL, part, total, pool), count + 1, remaining - part)
  {
    var pay := ProRata(PERBILL, part, total, pool);
    ProRataError(PERBILL, part, total, pool);
    PotentialStep(total, pool, paid, pay, count, remaining, part);
  }

  lemma PotentialStep(total: nat, pool: nat, paid: nat, pay: nat, count: nat, remaining: nat, part: nat)
    requires 2 * (total * paid) + 2 * (pool * remaining) <= 2 * (pool * total) + total * count
    requires 2 * (total * pay) <= 2 * (part * pool) + total && part <= remaining
    ensures 2 * (total * (paid + pay)) + 2 * (pool * (remaining - part)) <= 2 * (pool * total) + total * (count + 1)
  {
    assert total * (paid + pay) == total * paid + total * pay;
    assert pool * (remaining - part) == pool * remaining - part * pool;
    assert total * (count + 1) == total * count + total;
  }

  /** All claims together exceed the pool by at most half a unit each. */
  lemma PaidWithinPool(pool: Balance, total: Balance, paid: Balance, count: nat, remaining: Balance)
    requires PoolBounded(pool, total, paid, count, remaining)
    ensures 2 * paid <= 2 * pool + count
  {
    if total > 0 {
      assert (2 * pool + count) * total == 2 * (pool * total) + total * count;
      assert 2 * paid * total == 2 * (total * paid);
      CancelFactor(total, 2 * paid, 2 * pool + count);
    }
  }

  /** `pay` is `part / whole` of the pool: at most half a unit above it, and at most half a unit
      and a billionth of the pool below it. */
  predicate IsShare(part: Balance, whole: Balance, pool: Balance, pay: Balance) {
    && 2 * (whole * pay) <= 2 * (part * pool) + whole
    && 2 * (PERBILL * (part * pool)) <= 2 * (PERBILL * (whole * pay)) + 2 * (whole * pool) + PERBILL * whole
  }

  lemma ProRataIsShare(part: Balance, whole: Balance, pool: Balance)
    requires 0 < whole && part <= whole
    ensures IsShare(part, whole, pool, ProRata(PERBILL, part, whole, pool))
  {
    ProRataError(PERBILL, part, whole, pool);
    ProRataShortfall(PERBILL, part, whole, pool);
  }
}

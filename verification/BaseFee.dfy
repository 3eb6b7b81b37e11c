/** The dynamic EVM base fee: a clamped controller that moves the fee towards an ideal value
    by at most a limited step per block. */
module BaseFee {
  import opened Arithmetic
  import opened StakeTypes

  const U128_MAX: nat := 0xFFFF_FFFF_FFFF_FFFF_FFFF_FFFF_FFFF_FFFF
  const U256_MAX: nat := 0xFFFF_FFFF_FFFF_FFFF_FFFF_FFFF_FFFF_FFFF_FFFF_FFFF_FFFF_FFFF_FFFF_FFFF_FFFF_FFFF

  /** A fee fits 256 bits. */
  type Fee = f: nat | f <= U256_MAX witness 0

  datatype RawLimits = Limits(minFee: Fee, maxFee: Fee, stepLimitRatio: nat) {
    /** The checks of `integrity_test`; a ratio has at most one whole. */
    predicate Valid() {
      minFee <= maxFee <= U128_MAX && stepLimitRatio <= PERQUINTILL
    }
  }

  type Limits = l: RawLimits | l.Valid() witness Limits(0, 0, 0)

  /** Multiplication and addition that stop at the largest value of the type. */
  function SatMul(a: nat, b: nat): nat {
    Min(a * b, U128_MAX)
  }

  function SatAdd(a: Fee, b: Fee): Fee {
    Min(a + b, U256_MAX)
  }

  function Ideal(adjustmentFactor: nat, weightFactor: nat): Fee {
    SatMul(Min(FixedMul(adjustmentFactor, weightFactor), U128_MAX), 25) / 98974
  }

  /** The largest step from `fee`; the fee is cut to 128 bits for it. */
  function Step(l: Limits, fee: Fee): nat {
    MulNearest(PERQUINTILL, l.stepLimitRatio, Min(fee, U128_MAX))
  }

  predicate InRange(l: Limits, fee: Fee) {
    l.minFee <= fee <= l.maxFee
  }

  lemma StepFits(l: Limits, fee: Fee)
    ensures Step(l, fee) <= fee && Step(l, fee) <= U128_MAX
  {
    MulNearestAtMost(PERQUINTILL, l.stepLimitRatio, Min(fee, U128_MAX));
  }

  /** The configured bounds only apply to a fee that is within them. */
  function LowerLimit(l: Limits, fee: Fee): Fee {
    StepFits(l, fee);
    if InRange(l, fee) then Max(l.minFee, SatSub(fee, Step(l, fee))) else SatSub(fee, Step(l, fee))
  }

  function UpperLimit(l: Limits, fee: Fee): Fee {
    StepFits(l, fee);
    if InRange(l, fee) then Min(l.maxFee, SatAdd(fee, Step(l, fee))) else SatAdd(fee, Step(l, fee))
  }

  function Clamp(x: Fee, low: Fee, high: Fee): Fee {
    if x < low then low else if x > high then high else x
  }

  /** The fee of the next block. */
  function Adjust(l: Limits, fee: Fee, ideal: Fee): Fee {
    Clamp(ideal, LowerLimit(l, fee), UpperLimit(l, fee))
  }

  // ---------- the ideal and the step ----------

  /** Where nothing saturates, the ideal fee is the exact quotient, rounded down. */
  lemma IdealIsQuotient(adjustmentFactor: nat, weightFactor: nat)
    requires 25 * (adjustmentFactor * weightFactor / FIXED_DIV) <= U128_MAX
    ensures var ideal, product := Ideal(adjustmentFactor, weightFactor), adjustmentFactor * weightFactor / FIXED_DIV;
            98974 * ideal <= 25 * product < 98974 * (ideal + 1)
  {
    QuotientBounds(25 * (adjustmentFactor * weightFactor / FIXED_DIV), 98974);
  }

  /** It never falls when the adjustment factor rises. */
  lemma IdealIsMonotone(adjustmentFactor: nat, more: nat, weightFactor: nat)
    requires adjustmentFactor <= more
    ensures Ideal(adjustmentFactor, weightFactor) <= Ideal(more, weightFactor)
  {
    FixedMulIsMonotone(adjustmentFactor, more, weightFactor);
    DivIsMonotone(SatMul(Min(FixedMul(adjustmentFactor, weightFactor), U128_MAX), 25),
                  SatMul(Min(FixedMul(more, weightFactor), U128_MAX), 25), 98974);
  }

  /** The largest step is the configured ratio of the fee, to the nearest integer. */
  lemma StepIsNearest(l: Limits, fee: Fee)
    requires fee <= U128_MAX
    ensures 2 * (PERQUINTILL * Step(l, fee)) <= 2 * (l.stepLimitRatio * fee) + PERQUINTILL
    ensures 2 * (l.stepLimitRatio * fee) <= 2 * (PERQUINTILL * Step(l, fee)) + PERQUINTILL
  {
    MulNearestError(PERQUINTILL, l.stepLimitRatio, fee);
    MulNearestShortfall(PERQUINTILL, l.stepLimitRatio, fee);
  }

  // ---------- bounds ----------

  lemma BoundsAreNeverInverted(l: Limits, fee: Fee)
    ensures LowerLimit(l, fee) <= fee <= UpperLimit(l, fee)
  {
    StepFits(l, fee);
  }

  lemma AdjustStaysInRange(l: Limits, fee: Fee, ideal: Fee)
    requires InRange(l, fee)
    ensures InRange(l, Adjust(l, fee, ideal))
  {
    BoundsAreNeverInverted(l, fee);
  }

  /** A block with its ideal fee, or a fee set by root. */
  datatype Event = Block(ideal: Fee) | SetFee(fee: Fee)

  function SetBaseFee(l: Limits, current: Fee, fee: Fee): Option<Fee> {
    if InRange(l, fee) then Some(fee) else None
  }

  function Next(l: Limits, fee: Fee, event: Event): Fee {
    match event
    case Block(ideal) => Adjust(l, fee, ideal)
    case SetFee(newFee) => var r := SetBaseFee(l, fee, newFee); if r.Some? then r.value else fee
  }

  function After(l: Limits, fee: Fee, events: seq<Event>): Fee
    decreases |events|
  {
    if |events| == 0 then fee else After(l, Next(l, fee, events[0]), events[1..])
  }

  /** Once the fee is within its bounds it stays there, whatever the adjustment factors. */
  lemma {:induction false} RunStaysInRange(l: Limits, fee: Fee, events: seq<Event>)
    requires InRange(l, fee)
    ensures InRange(l, After(l, fee, events))
    decreases |events|
  {
    if |events| > 0 {
      if events[0].Block? {
        AdjustStaysInRange(l, fee, events[0].ideal);
      }
      RunStaysInRange(l, Next(l, fee, events[0]), events[1..]);
    }
  }

  // ---------- convergence ----------

  /** What the fee tends to: the ideal, within the configured bounds. */
  function Target(l: Limits, ideal: Fee): Fee {
    Clamp(ideal, l.minFee, l.maxFee)
  }

  function Iterate(l: Limits, fee: Fee, ideal: Fee, blocks: nat): Fee
    decreases blocks
  {
    if blocks == 0 then fee else Adjust(l, Iterate(l, fee, ideal, blocks - 1), ideal)
  }

  /** The configured bounds do not get in the way: the fee or the ideal is within them. */
  predicate Settled(l: Limits, fee: Fee, ideal: Fee) {
    InRange(l, fee) || InRange(l, ideal)
  }

  /** One block closes the distance to the target by a full step, and never overshoots. */
  lemma AdjustApproaches(l: Limits, fee: Fee, ideal: Fee)
    requires Settled(l, fee, ideal)
    ensures var t, step := Target(l, ideal), Step(l, fee);
            Adjust(l, fee, ideal) == (if fee <= t then Min(t, fee + step) else Max(t, fee - Min(step, fee)))
  {
    StepFits(l, fee);
  }

  lemma StepIsMonotone(l: Limits, fee: Fee, more: Fee)
    requires fee <= more
    ensures Step(l, fee) <= Step(l, more)
  {
    MulNearestIsMonotone(PERQUINTILL, l.stepLimitRatio, Min(fee, U128_MAX), Min(more, U128_MAX));
  }

  function Distance(a: nat, b: nat): nat {
    if a <= b then b - a else a - b
  }

  /** A step is possible everywhere on the way from `fee` to the target. */
  predicate CanReach(l: Limits, fee: Fee, ideal: Fee) {
    var t := Target(l, ideal);
    || fee == t
    || (fee < t && Step(l, fee) >= 1)
    || (fee > t && Step(l, t + 1) >= 1)
  }

  /** Where a step is possible on the way, every block comes closer, on the same side. */
  lemma StepsAreTaken(l: Limits, fee: Fee, ideal: Fee)
    requires Settled(l, fee, ideal) && CanReach(l, fee, ideal) && fee != Target(l, ideal)
    ensures var t, after := Target(l, ideal), Adjust(l, fee, ideal);
            && Distance(after, t) < Distance(fee, t) && CanReach(l, after, ideal)
            && (fee < t ==> fee < after <= t) && (fee > t ==> t <= after < fee)
  {
    var t, after := Target(l, ideal), Adjust(l, fee, ideal);
    AdjustApproaches(l, fee, ideal);
    StepFits(l, fee);
    if fee < t {
      StepIsMonotone(l, fee, after);
    } else {
      StepIsMonotone(l, t + 1, fee);
    }
  }

  lemma SettledStays(l: Limits, fee: Fee, ideal: Fee)
    requires Settled(l, fee, ideal)
    ensures Settled(l, Adjust(l, fee, ideal), ideal)
  {
    if InRange(l, fee) {
      AdjustStaysInRange(l, fee, ideal);
    }
  }

  /** One block leaves the fee within reach, and closer unless it is there already. */
  lemma ComesCloser(l: Limits, fee: Fee, ideal: Fee)
    requires Settled(l, fee, ideal) && CanReach(l, fee, ideal)
    ensures var t, after := Target(l, ideal), Adjust(l, fee, ideal);
            Settled(l, after, ideal) && CanReach(l, after, ideal) && Distance(after, t) <= SatSub(Distance(fee, t), 1)
  {
    SettledStays(l, fee, ideal);
    if fee == Target(l, ideal) {
      AdjustApproaches(l, fee, ideal);
    } else {
      StepsAreTaken(l, fee, ideal);
    }
  }

  /** Then the target is reached in at most as many blocks as the fee is away from it. */
  lemma {:induction false} Converges(l: Limits, fee: Fee, ideal: Fee, blocks: nat)
    requires Settled(l, fee, ideal) && CanReach(l, fee, ideal) && blocks >= Distance(fee, Target(l, ideal))
    ensures Iterate(l, fee, ideal, blocks) == Target(l, ideal)
    decreases blocks
  {
    if blocks > 0 {
      ComesCloser(l, fee, ideal);
      IterateFromFront(l, fee, ideal, blocks - 1);
      Converges(l, Adjust(l, fee, ideal), ideal, blocks - 1);
    }
  }

  lemma {:induction false} IterateFromFront(l: Limits, fee: Fee, ideal: Fee, blocks: nat)
    ensures Iterate(l, fee, ideal, blocks + 1) == Iterate(l, Adjust(l, fee, ideal), ideal, blocks)
  {
    if blocks > 0 {
      IterateFromFront(l, fee, ideal, blocks - 1);
    }
  }

  /** A ratio that rounds to nothing at `start` cannot cover the distance from `start + d`. */
  lemma StepFallsShort(one: nat, ratio: nat, start: nat, d: nat, step: nat)
    requires start >= 1 && d >= 1 && ratio <= one && 2 * (ratio * start) <= one && one > 0
    requires 2 * (one * step) <= 2 * (ratio * start + ratio * d) + one
    ensures step <= d
  {
    assert ratio < one by {
      MulIsMonotone(1, start, ratio);
    }
    MulIsMonotone(ratio + 1, one, d);
    assert (ratio + 1) * d == ratio * d + d;
    assert 2 * (one * step) < 2 * (one * (d + 1));
    if step >= d + 1 {
      MulIsMonotone(d + 1, step, one);
    }
  }

  /** Where no step is possible right above the target, no larger step skips that spot. */
  lemma NoJumpOverTheGap(l: Limits, fee: Fee, t: Fee)
    requires t <= U128_MAX && t + 1 < fee && Step(l, t + 1) == 0
    ensures Step(l, fee) < fee - t
  {
    if t + 1 < U128_MAX {
      ShortStep(l, Min(fee, U128_MAX), t);
    }
  }

  lemma ShortStep(l: Limits, fee: Fee, t: Fee)
    requires t + 1 < fee <= U128_MAX && Step(l, t + 1) == 0
    ensures Step(l, fee) < fee - t
  {
    MulNearestError(PERQUINTILL, l.stepLimitRatio, fee);
    RoundsToNothing(l.stepLimitRatio, t + 1);
    SplitProduct(l.stepLimitRatio, fee, t + 1);
    StepFallsShort(PERQUINTILL, l.stepLimitRatio, t + 1, fee - t - 1, Step(l, fee));
  }

  lemma RoundsToNothing(ratio: nat, n: nat)
    requires MulNearest(PERQUINTILL, ratio, n) == 0
    ensures 2 * (ratio * n) <= PERQUINTILL
  {
  }

  lemma SplitProduct(r: nat, a: nat, b: nat)
    requires b <= a
    ensures r * a == r * b + r * (a - b)
  {
  }

  lemma StuckOnItsSide(l: Limits, fee: Fee, ideal: Fee)
    requires Settled(l, fee, ideal) && !CanReach(l, fee, ideal)
    ensures !CanReach(l, Adjust(l, fee, ideal), ideal)
  {
    var t := Target(l, ideal);
    AdjustApproaches(l, fee, ideal);
    if fee > t && fee > t + 1 {
      NoJumpOverTheGap(l, fee, t);
    }
  }

  lemma {:induction false} NeverReaches(l: Limits, fee: Fee, ideal: Fee, blocks: nat)
    requires Settled(l, fee, ideal) && !CanReach(l, fee, ideal)
    ensures var after := Iterate(l, fee, ideal, blocks);
            Settled(l, after, ideal) && !CanReach(l, after, ideal) && after != Target(l, ideal)
    decreases blocks
  {
    if blocks > 0 {
      NeverReaches(l, fee, ideal, blocks - 1);
      StuckOnItsSide(l, Iterate(l, fee, ideal, blocks - 1), ideal);
      SettledStays(l, Iterate(l, fee, ideal, blocks - 1), ideal);
    }
  }

  /** With a constant ideal, and the fee or the ideal within the bounds, the target is reached
      at some block exactly when the fee is there already, or a step of at least one is
      possible: from the fee itself on the way up, from right above the target on the way
      down. */
  lemma ReachesTargetIff(l: Limits, fee: Fee, ideal: Fee)
    requires Settled(l, fee, ideal)
    ensures (exists blocks :: Iterate(l, fee, ideal, blocks) == Target(l, ideal)) <==> CanReach(l, fee, ideal)
  {
    if CanReach(l, fee, ideal) {
      Converges(l, fee, ideal, Distance(fee, Target(l, ideal)));
    } else {
      forall blocks: nat
        ensures Iterate(l, fee, ideal, blocks) != Target(l, ideal)
      {
        NeverReaches(l, fee, ideal, blocks);
      }
    }
  }

  // ---------- a fee that starts outside its bounds ----------

  /** How far the fee is from its bounds. */
  function Outside(l: Limits, fee: Fee): nat {
    if fee < l.minFee then l.minFee - fee else SatSub(fee, l.maxFee)
  }

  /** A step is possible everywhere on the way from `fee` to its bounds. */
  predicate CanEnter(l: Limits, fee: Fee) {
    || InRange(l, fee)
    || (fee < l.minFee && Step(l, fee) >= 1)
    || (fee > l.maxFee && Step(l, l.maxFee + 1) >= 1)
  }

  /** A block brings the fee closer to its bounds, or within them. */
  lemma ComesCloserToRange(l: Limits, fee: Fee, ideal: Fee)
    requires InRange(l, ideal) && !InRange(l, fee) && CanEnter(l, fee)
    ensures var after := Adjust(l, fee, ideal);
            CanEnter(l, after) && Outside(l, after) < Outside(l, fee)
  {
    var after := Adjust(l, fee, ideal);
    AdjustApproaches(l, fee, ideal);
    if fee < l.minFee {
      StepIsMonotone(l, fee, after);
    } else {
      StepIsMonotone(l, l.maxFee + 1, fee);
    }
  }

  /** Within some number of blocks the fee is within its bounds. */
  ghost predicate Enters(l: Limits, fee: Fee, ideal: Fee) {
    exists blocks: nat :: Iterate(l, fee, ideal, blocks) in Range(l)
  }

  ghost function Range(l: Limits): iset<Fee> {
    iset fee: Fee | InRange(l, fee)
  }

  lemma {:induction false} EntersRange(l: Limits, fee: Fee, ideal: Fee)
    requires InRange(l, ideal) && CanEnter(l, fee)
    ensures Enters(l, fee, ideal)
    decreases Outside(l, fee)
  {
    if InRange(l, fee) {
      assert Iterate(l, fee, ideal, 0) in Range(l);
    } else {
      ComesCloserToRange(l, fee, ideal);
      EntersRange(l, Adjust(l, fee, ideal), ideal);
      EntersFromFront(l, fee, ideal);
    }
  }

  lemma EntersFromFront(l: Limits, fee: Fee, ideal: Fee)
    requires Enters(l, Adjust(l, fee, ideal), ideal)
    ensures Enters(l, fee, ideal)
  {
    var blocks: nat :| Iterate(l, Adjust(l, fee, ideal), ideal, blocks) in Range(l);
    IterateFromFront(l, fee, ideal, blocks);
    assert Iterate(l, fee, ideal, blocks + 1) in Range(l);
  }

  lemma StuckOutside(l: Limits, fee: Fee, ideal: Fee)
    requires InRange(l, ideal) && !CanEnter(l, fee)
    ensures var after := Adjust(l, fee, ideal);
            !InRange(l, after) && !CanEnter(l, after)
  {
    AdjustApproaches(l, fee, ideal);
    if fee > l.maxFee + 1 {
      NoJumpOverTheGap(l, fee, l.maxFee);
    }
  }

  lemma {:induction false} NeverEntersRange(l: Limits, fee: Fee, ideal: Fee, blocks: nat)
    requires InRange(l, ideal) && !CanEnter(l, fee)
    ensures var after := Iterate(l, fee, ideal, blocks);
            !InRange(l, after) && !CanEnter(l, after)
    decreases blocks
  {
    if blocks > 0 {
      NeverEntersRange(l, fee, ideal, blocks - 1);
      StuckOutside(l, Iterate(l, fee, ideal, blocks - 1), ideal);
    }
  }

  /** With a constant ideal within the bounds, any fee gets within them at some block exactly
      when it is there already, or a step of at least one is possible: from a fee below the
      bounds itself, or from right above the bounds for a fee above them. */
  lemma EntersRangeIff(l: Limits, fee: Fee, ideal: Fee)
    requires InRange(l, ideal)
    ensures Enters(l, fee, ideal) <==> CanEnter(l, fee)
  {
    if CanEnter(l, fee) {
      EntersRange(l, fee, ideal);
    } else {
      forall blocks: nat
        ensures Iterate(l, fee, ideal, blocks) !in Range(l)
      {
        NeverEntersRange(l, fee, ideal, blocks);
      }
    }
  }

  /** An ideal on the same side of the bounds as the fee keeps the fee outside of them. */
  lemma {:induction false} IdealKeepsFeeOutside(l: Limits, fee: Fee, ideal: Fee, blocks: nat)
    requires (fee < l.minFee && ideal < l.minFee) || (fee > l.maxFee && ideal > l.maxFee)
    ensures var after := Iterate(l, fee, ideal, blocks);
            if fee < l.minFee then after < l.minFee else after > l.maxFee
    decreases blocks
  {
    if blocks > 0 {
      IdealKeepsFeeOutside(l, fee, ideal, blocks - 1);
      BoundsAreNeverInverted(l, Iterate(l, fee, ideal, blocks - 1));
    }
  }

  /** A large step towards an ideal beyond the bounds can pass over all of them. */
  lemma StepCanPassOverTheRange()
    ensures var l: Limits := Limits(10, 11, PERQUINTILL);
            9 < l.minFee && Adjust(l, 9, 100) == 18 > l.maxFee
  {
  }

  // ---------- the pallet ----------

  class BaseFeePallet {
    const limits: Limits
    const weightFactor: nat
    var baseFeePerGas: Fee

    constructor (l: Limits, weight: nat, fee: Fee)
      ensures limits == l && weightFactor == weight && baseFeePerGas == fee
    {
      limits, weightFactor, baseFeePerGas := l, weight, fee;
    }

    method OnFinalize(adjustmentFactor: nat)
      modifies this
      ensures baseFeePerGas == Adjust(limits, old(baseFeePerGas), Ideal(adjustmentFactor, weightFactor))
      ensures InRange(limits, old(baseFeePerGas)) ==> InRange(limits, baseFeePerGas)
    {
      var fee := baseFeePerGas;
      var step := MulNearest(PERQUINTILL, limits.stepLimitRatio, Min(fee, U128_MAX));
      StepFits(limits, fee);
      var lower, upper := SatSub(fee, step), SatAdd(fee, step);
      if fee >= limits.minFee && fee <= limits.maxFee {
        lower, upper := Max(limits.minFee, lower), Min(limits.maxFee, upper);
      }
      var ideal := Ideal(adjustmentFactor, weightFactor);
      baseFeePerGas := Clamp(ideal, lower, upper);
      if InRange(limits, fee) {
        AdjustStaysInRange(limits, fee, ideal);
      }
    }

    method SetBaseFeePerGas(fee: Fee) returns (ok: bool)
      modifies this
      ensures ok == InRange(limits, fee)
      ensures baseFeePerGas == if ok then fee else old(baseFeePerGas)
    {
      ok := fee >= limits.minFee && fee <= limits.maxFee;
      if ok {
        baseFeePerGas := fee;
      }
    }
  }
}

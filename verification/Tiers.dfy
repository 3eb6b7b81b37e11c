/** Ranked tiers, the rank of a stake within its tier, and the tier configuration. */
module Tiers {
  import opened Arithmetic
  import opened StakeTypes

  const MAX_RANK: nat := 10

  // ---------- ranked tiers ----------

  /** A tier and a rank within it, as stored for an assigned dApp. */
  datatype RankedTier = RankedTier(tier: nat, rank: nat) {
    static function NewSaturated(tier: nat, rank: nat): RankedTier {
      RankedTier(Min(tier, 15), Min(rank, MAX_RANK))
    }

    static function New(tier: nat, rank: nat): Option<RankedTier> {
      if rank > MAX_RANK || tier > 15 then None else Some(RankedTier(tier, rank))
    }

    /** The stored byte: the rank in the upper four bits, the tier in the lower four. */
    function Pack(): nat {
      16 * rank + tier
    }

    static function Unpack(raw: nat): RankedTier {
      RankedTier(raw % 16, Min(raw / 16, MAX_RANK))
    }
  }

  /** What is constructed fits a byte and is read back unchanged, and the checked and the
      saturating constructor agree exactly where nothing is saturated. */
  lemma PackingRoundTrip(tier: nat, rank: nat)
    ensures var ranked := RankedTier.NewSaturated(tier, rank);
            && ranked.Pack() < 256 && RankedTier.Unpack(ranked.Pack()) == ranked
            && (RankedTier.New(tier, rank) == Some(ranked) <==> tier <= 15 && rank <= MAX_RANK)
            && (RankedTier.New(tier, rank) == None <==> tier > 15 || rank > MAX_RANK)
  {
  }

  /** Rank of a dApp inside a tier: one per tenth of the distance between the bounds. A
      quotient that does not fit a byte counts as zero. */
  function FindRank(lower: Balance, upper: Balance, amount: Balance): nat {
    if upper == 0 then 0
    else
      var step := SatSub(upper, lower) / MAX_RANK;
      if step == 0 then 0
      else
        var quotient := SatSub(amount, lower) / step;
        Min(if quotient <= 255 then quotient else 0, MAX_RANK)
  }

  /** More stake never means a lower rank, exactly as long as the tier has no steps, the
      quotient of the larger stake fits a byte, or that of the smaller one is zero or does
      not fit either. */
  lemma RankIsMonotoneIffQuotientFits(lower: Balance, upper: Balance, a: Balance, b: Balance)
    requires a <= b
    ensures var step := SatSub(upper, lower) / MAX_RANK;
            FindRank(lower, upper, a) <= FindRank(lower, upper, b)
            <==> step == 0 || SatSub(b, lower) / step <= 255
                 || SatSub(a, lower) / step == 0 || SatSub(a, lower) / step > 255
  {
    var step := SatSub(upper, lower) / MAX_RANK;
    if step > 0 {
      DivIsMonotone(SatSub(a, lower), SatSub(b, lower), step);
    }
  }

  /** A stake 256 steps above the lower bound has rank zero, one step less the top rank. */
  lemma RankDropsAtOverflow()
    ensures FindRank(0, 10, 255) == MAX_RANK && FindRank(0, 10, 256) == 0
  {
  }

  /** Below 256 steps the rank is the number of whole steps above the lower bound, up to the
      largest rank; from there on, and in a tier without steps, it is zero. */
  lemma RankCountsSteps(lower: Balance, upper: Balance, amount: Balance)
    ensures var step := SatSub(upper, lower) / MAX_RANK;
            var rank := FindRank(lower, upper, amount);
            if step == 0 || amount >= lower + 256 * step then rank == 0
            else && rank <= MAX_RANK && (rank > 0 ==> lower + rank * step <= amount)
                 && (rank < MAX_RANK ==> amount < lower + (rank + 1) * step)
  {
    var step := SatSub(upper, lower) / MAX_RANK;
    if step > 0 {
      WholeSteps(lower, step, amount, SatSub(amount, lower) / step);
    }
  }

  lemma WholeSteps(lower: Balance, step: nat, amount: Balance, quotient: nat)
    requires step > 0 && quotient == SatSub(amount, lower) / step
    ensures quotient <= 255 <==> amount < lower + 256 * step
    ensures var rank := Min(quotient, MAX_RANK);
            && (rank > 0 ==> lower + rank * step <= amount)
            && (rank < MAX_RANK ==> amount < lower + (rank + 1) * step)
  {
    QuotientBounds(SatSub(amount, lower), step);
    StepsReach(step, SatSub(amount, lower), quotient, 256);
    StepsReach(step, SatSub(amount, lower), quotient, Min(quotient, MAX_RANK));
  }

  lemma StepsReach(step: nat, distance: nat, quotient: nat, k: nat)
    requires step * quotient <= distance < step * (quotient + 1)
    ensures k <= quotient <==> k * step <= distance
  {
    if k <= quotient {
      MulIsMonotone(k, quotient, step);
    } else {
      MulIsMonotone(quotient + 1, k, step);
    }
  }

  // ---------- tier configuration ----------

  datatype TierThreshold =
    | FixedPercentage(required: nat)
    | DynamicPercentage(percentage: nat, minimumRequired: nat)
  {
    function Threshold(issuance: Balance): Balance {
      match this
      case FixedPercentage(required) => MulNearest(PERBILL, required, issuance)
      case DynamicPercentage(percentage, _) => MulNearest(PERBILL, percentage, issuance)
    }
  }

  datatype TierParameters = TierParameters(
    rewardPortion: seq<nat>,
    slotDistribution: seq<nat>,
    tierThresholds: seq<TierThreshold>)
  {
    predicate IsValid(numberOfTiers: nat) {
      && PartsFit(rewardPortion, 0) && PartsFit(slotDistribution, 0)
      && |rewardPortion| == |slotDistribution| == |tierThresholds| == numberOfTiers
    }
  }

  /** Checked addition of all parts, starting from `sum`, never exceeds one whole. */
  predicate PartsFit(parts: seq<nat>, sum: nat) {
    sum <= PERMILL && (|parts| == 0 || PartsFit(parts[1..], sum + parts[0]))
  }

  datatype TiersConfiguration = TiersConfiguration(
    slotsPerTier: seq<nat>,
    rewardPortion: seq<nat>,
    tierThresholds: seq<Balance>)
  {
    predicate IsValid(numberOfTiers: nat) {
      |slotsPerTier| == |rewardPortion| == |tierThresholds| == numberOfTiers
    }
  }

  /** `factor * price + 50` slots, saturated to 16 bits; `price` is in units of 10^-18. */
  function NumberOfSlots(factor: nat, price: nat): nat {
    Min(Min(FixedMul(price, factor), 0xFFFF_FFFF_FFFF_FFFF) + 50, 0xFFFF)
  }

  /** Threshold of a dynamic tier after the number of slots went from `base` to `slots`. */
  function AdjustedThreshold(base: nat, slots: nat, amount: Balance): Balance
    requires slots > 0
  {
    if slots >= base then
      SatSub(amount, FixedMul(FixedRatio(slots - base, slots), amount))
    else
      amount + FixedMul(FixedRatio(base - slots, slots), amount)
  }

  function NewThreshold(base: nat, slots: nat, issuance: Balance, threshold: TierThreshold): Balance
    requires slots > 0
  {
    match threshold
    case DynamicPercentage(percentage, minimumRequired) =>
      Max(AdjustedThreshold(base, slots, MulNearest(PERBILL, percentage, issuance)),
          MulNearest(PERBILL, minimumRequired, issuance))
    case FixedPercentage(required) => MulNearest(PERBILL, required, issuance)
  }

  function CalculateNew(params: TierParameters, factor: nat, basePrice: nat, price: nat, issuance: Balance): TiersConfiguration {
    var base := Max(NumberOfSlots(factor, basePrice), 1);
    var slots := Max(NumberOfSlots(factor, price), 1);
    TiersConfiguration(
      seq(|params.slotDistribution|, i requires 0 <= i < |params.slotDistribution| =>
        Min(MulNearest(PERMILL, params.slotDistribution[i], slots), 0xFFFF)),
      params.rewardPortion,
      seq(|params.tierThresholds|, i requires 0 <= i < |params.tierThresholds| =>
        NewThreshold(base, slots, issuance, params.tierThresholds[i])))
  }

  lemma NumberOfSlotsIsMonotone(factor: nat, p: nat, q: nat)
    requires p <= q
    ensures NumberOfSlots(factor, p) <= NumberOfSlots(factor, q)
  {
    FixedMulIsMonotone(p, q, factor);
  }

  /** The number of slots is 50 and one more for every whole unit of `factor * price`, as long
      as it stays below the largest number of 16 bits. */
  lemma SlotsFollowPrice(factor: nat, price: nat)
    ensures var n := NumberOfSlots(factor, price);
            && 50 <= n <= 0xFFFF && FIXED_DIV * (n - 50) <= price * factor
            && (n < 0xFFFF ==> price * factor < FIXED_DIV * (n - 49))
  {
    QuotientBounds(price * factor, FIXED_DIV);
    var n, units := NumberOfSlots(factor, price), FixedMul(price, factor);
    if n < 0xFFFF {
      assert n == units + 50;
    } else {
      MulIsMonotone(n - 50, units, FIXED_DIV);
    }
  }

  lemma {:induction false} EveryPartFits(parts: seq<nat>, sum: nat, i: nat)
    requires PartsFit(parts, sum) && i < |parts|
    ensures parts[i] <= PERMILL
  {
    if i > 0 {
      EveryPartFits(parts[1..], sum + parts[0], i - 1);
    }
  }

  /** The slots of a tier are its part of the number of slots, to the nearest integer, and a
      higher price never lowers them. */
  lemma TierSlotsFollowPrice(params: TierParameters, factor: nat, basePrice: nat, price: nat, higher: nat, issuance: Balance, t: nat)
    requires PartsFit(params.slotDistribution, 0) && price <= higher && t < |params.slotDistribution|
    ensures var slots := CalculateNew(params, factor, basePrice, price, issuance).slotsPerTier[t];
            var product := params.slotDistribution[t] * NumberOfSlots(factor, price);
            && 2 * (PERMILL * slots) <= 2 * product + PERMILL
            && 2 * product <= 2 * (PERMILL * slots) + PERMILL
            && slots <= CalculateNew(params, factor, basePrice, higher, issuance).slotsPerTier[t]
  {
    var part, n, more := params.slotDistribution[t], NumberOfSlots(factor, price), NumberOfSlots(factor, higher);
    NumberOfSlotsIsMonotone(factor, price, higher);
    EveryPartFits(params.slotDistribution, 0, t);
    MulNearestError(PERMILL, part, n);
    MulNearestShortfall(PERMILL, part, n);
    MulNearestAtMost(PERMILL, part, n);
    MulNearestIsMonotone(PERMILL, part, n, more);
  }

  /** A dynamic threshold is inversely proportional to the number of slots. */
  lemma AdjustedThresholdIsProportional(base: nat, slots: nat, amount: Balance)
    requires slots > 0
    ensures var adjusted := AdjustedThreshold(base, slots, amount);
            && FIXED_DIV * (slots * adjusted) <= FIXED_DIV * (base * amount) + FIXED_DIV * slots + slots * amount
            && FIXED_DIV * (base * amount) <= FIXED_DIV * (slots * adjusted) + FIXED_DIV * slots + slots * amount
  {
    var k := if slots >= base then slots - base else base - slots;
    var part := FixedMul(FixedRatio(k, slots), amount);
    FixedPartBounds(k, slots, amount);
    if slots >= base {
      assert k * amount == slots * amount - base * amount;
      CancelFactor(slots, part, amount);
      assert slots * (amount - part) == slots * amount - slots * part;
    } else {
      assert k * amount == base * amount - slots * amount;
      assert slots * (amount + part) == slots * amount + slots * part;
    }
  }

  /** The threshold of a fixed tier is its percentage of the issuance. That of a dynamic tier
      is its percentage, divided by how much the number of slots grew since the base price,
      or its minimum percentage if that is larger. */
  lemma ThresholdsFollowSlots(params: TierParameters, factor: nat, basePrice: nat, price: nat, issuance: Balance, t: nat)
    requires t < |params.tierThresholds|
    ensures var threshold := CalculateNew(params, factor, basePrice, price, issuance).tierThresholds[t];
            var base, slots := NumberOfSlots(factor, basePrice), NumberOfSlots(factor, price);
            match params.tierThresholds[t]
            case FixedPercentage(required) => threshold == MulNearest(PERBILL, required, issuance)
            case DynamicPercentage(percentage, minimumRequired) =>
              var amount, minimum := MulNearest(PERBILL, percentage, issuance), MulNearest(PERBILL, minimumRequired, issuance);
              && threshold >= minimum
              && FIXED_DIV * (base * amount) <= FIXED_DIV * (slots * threshold) + FIXED_DIV * slots + slots * amount
              && (threshold > minimum ==>
                    FIXED_DIV * (slots * threshold) <= FIXED_DIV * (base * amount) + FIXED_DIV * slots + slots * amount)
  {
    match params.tierThresholds[t]
    case FixedPercentage(_) =>
    case DynamicPercentage(percentage, minimumRequired) =>
      DynamicThreshold(NumberOfSlots(factor, basePrice), NumberOfSlots(factor, price), MulNearest(PERBILL, percentage, issuance),
                       MulNearest(PERBILL, minimumRequired, issuance));
  }

  lemma DynamicThreshold(base: nat, slots: nat, amount: Balance, minimum: Balance)
    requires slots > 0
    ensures var threshold := Max(AdjustedThreshold(base, slots, amount), minimum);
            && FIXED_DIV * (base * amount) <= FIXED_DIV * (slots * threshold) + FIXED_DIV * slots + slots * amount
            && (threshold > minimum ==>
                  FIXED_DIV * (slots * threshold) <= FIXED_DIV * (base * amount) + FIXED_DIV * slots + slots * amount)
  {
    AdjustedThresholdIsProportional(base, slots, amount);
    MulIsMonotone(AdjustedThreshold(base, slots, amount), Max(AdjustedThreshold(base, slots, amount), minimum), slots);
  }

  lemma AdjustedThresholdIsAntitone(base: nat, slots: nat, more: nat, amount: Balance)
    requires 0 < slots <= more
    ensures AdjustedThreshold(base, more, amount) <= AdjustedThreshold(base, slots, amount)
  {
    CrossDifferences(base, slots, more);
    if base <= slots {
      FixedRatioOrder(slots - base, slots, more - base, more);
      FixedMulIsMonotone(FixedRatio(slots - base, slots), FixedRatio(more - base, more), amount);
    } else if more < base {
      FixedRatioOrder(base - more, more, base - slots, slots);
      FixedMulIsMonotone(FixedRatio(base - more, more), FixedRatio(base - slots, slots), amount);
    }
  }

  lemma CrossDifferences(base: nat, slots: nat, more: nat)
    requires slots <= more
    ensures base <= slots ==> (slots - base) * more <= (more - base) * slots
    ensures more <= base ==> (base - more) * slots <= (base - slots) * more
  {
    MulIsMonotone(slots, more, base);
    if base <= slots {
      assert (slots - base) * more == slots * more - base * more;
      assert (more - base) * slots == more * slots - base * slots;
    }
    if more <= base {
      assert (base - more) * slots == base * slots - more * slots;
      assert (base - slots) * more == base * more - slots * more;
    }
  }

  /** A higher native price never raises a threshold, and no dynamic threshold falls below
      its minimum percentage of the issuance. */
  lemma HigherPriceNeverRaisesThresholds(params: TierParameters, factor: nat, basePrice: nat, price: nat, higher: nat, issuance: Balance, t: nat)
    requires price <= higher && t < |params.tierThresholds|
    ensures var low := CalculateNew(params, factor, basePrice, price, issuance);
            var high := CalculateNew(params, factor, basePrice, higher, issuance);
            && high.tierThresholds[t] <= low.tierThresholds[t]
            && (params.tierThresholds[t].DynamicPercentage? ==>
                  high.tierThresholds[t] >= MulNearest(PERBILL, params.tierThresholds[t].minimumRequired, issuance))
  {
    NumberOfSlotsIsMonotone(factor, price, higher);
    var base := Max(NumberOfSlots(factor, basePrice), 1);
    var slots := Max(NumberOfSlots(factor, price), 1);
    var more := Max(NumberOfSlots(factor, higher), 1);
    match params.tierThresholds[t]
    case FixedPercentage(_) =>
    case DynamicPercentage(percentage, _) =>
      AdjustedThresholdIsAntitone(base, slots, more, MulNearest(PERBILL, percentage, issuance));
  }
}

/** The inflation pallet: how the emission of one cycle is split into block rewards and
    reward pools, and that together they stay within it. */
module Inflation {
  import opened Arithmetic
  import opened StakeTypes

  /** `CycleConfiguration` with its derived counts. */
  datatype CycleConfiguration = CycleConfiguration(
    periodsPerCycle: nat,
    erasPerVoting: nat,
    erasPerBuildAndEarn: nat,
    blocksPerEra: nat)
  {
    predicate IsValid() {
      periodsPerCycle > 0 && erasPerVoting > 0 && erasPerBuildAndEarn > 0 && blocksPerEra > 0
    }

    function BlocksPerCycle(): nat {
      blocksPerEra * ((erasPerVoting + erasPerBuildAndEarn) * periodsPerCycle)
    }

    function BuildAndEarnErasPerCycle(): nat {
      erasPerBuildAndEarn * periodsPerCycle
    }

    function ErasPerCycle(): nat {
      (erasPerBuildAndEarn + 1) * periodsPerCycle
    }
  }

  /** Checked addition of all parts, starting from `sum`. */
  function CheckedSum(parts: seq<nat>, sum: nat): Option<nat> {
    if |parts| == 0 then Some(sum)
    else if sum + parts[0] > PERQUINTILL then None
    else CheckedSum(parts[1..], sum + parts[0])
  }

  datatype InflationParameters = InflationParameters(
    maxInflationRate: nat,
    treasuryPart: nat,
    collatorsPart: nat,
    dappsPart: nat,
    baseStakersPart: nat,
    adjustableStakersPart: nat,
    bonusPart: nat,
    idealStakingRate: nat)
  {
    function Parts(): seq<nat> {
      [treasuryPart, collatorsPart, dappsPart, baseStakersPart, adjustableStakersPart, bonusPart]
    }

    predicate IsValid() {
      CheckedSum(Parts(), 0) == Some(PERQUINTILL)
    }
  }

  const DEFAULT_PARAMETERS := InflationParameters(
    70_000_000_000_000_000, 50_000_000_000_000_000, 30_000_000_000_000_000, 200_000_000_000_000_000,
    250_000_000_000_000_000, 350_000_000_000_000_000, 120_000_000_000_000_000, 500_000_000_000_000_000)

  datatype InflationConfiguration = InflationConfiguration(
    recalculationEra: EraNumber,
    issuanceSafetyCap: Balance,
    collatorRewardPerBlock: Balance,
    treasuryRewardPerBlock: Balance,
    dappRewardPoolPerEra: Balance,
    baseStakerRewardPoolPerEra: Balance,
    adjustableStakerRewardPoolPerEra: Balance,
    bonusRewardPoolPerPeriod: Balance,
    idealStakingRate: nat)
  {
    function BlockReward(): Balance {
      collatorRewardPerBlock + treasuryRewardPerBlock
    }

    /** The staker pool and the dApp pool of an era, the former growing with the staked part
        of the issuance up to the ideal rate. */
    function EraPools(staked: Balance, issuance: Balance): (Balance, Balance) {
      var ratio := RatioDown(PERQUINTILL, staked, issuance);
      var factor := RatioDown(PERQUINTILL, ratio, idealStakingRate);
      (baseStakerRewardPoolPerEra + MulNearest(PERQUINTILL, factor, adjustableStakerRewardPoolPerEra), dappRewardPoolPerEra)
    }

    function MaxEraPools(): Balance {
      baseStakerRewardPoolPerEra + adjustableStakerRewardPoolPerEra + dappRewardPoolPerEra
    }
  }

  function MaxEmission(params: InflationParameters, issuance: Balance): Balance {
    MulNearest(PERQUINTILL, params.maxInflationRate, issuance)
  }

  /** A part of the emission, split over `count` payouts. */
  function Share(part: nat, emission: Balance, count: nat): Balance
    requires count > 0
  {
    MulNearest(PERQUINTILL, part, emission) / count
  }

  function Recalculate(params: InflationParameters, cycle: CycleConfiguration, issuance: Balance, nextEra: EraNumber): InflationConfiguration {
    var emission := MaxEmission(params, issuance);
    var blocks, eras, periods := Max(cycle.BlocksPerCycle(), 1), Max(cycle.BuildAndEarnErasPerCycle(), 1), Max(cycle.periodsPerCycle, 1);
    InflationConfiguration(
      nextEra + cycle.ErasPerCycle(),
      issuance + emission,
      Share(params.collatorsPart, emission, blocks),
      Share(params.treasuryPart, emission, blocks),
      Share(params.dappsPart, emission, eras),
      Share(params.baseStakersPart, emission, eras),
      Share(params.adjustableStakersPart, emission, eras),
      Share(params.bonusPart, emission, periods),
      params.idealStakingRate)
  }

  function Total(parts: seq<nat>): nat {
    if |parts| == 0 then 0 else parts[0] + Total(parts[1..])
  }

  /** The fold accepts exactly the parts that add up to one whole. */
  lemma {:induction false} ValidIffPartsAddUp(parts: seq<nat>, sum: nat)
    requires sum <= PERQUINTILL
    ensures CheckedSum(parts, sum) == (if sum + Total(parts) <= PERQUINTILL then Some(sum + Total(parts)) else None)
    decreases |parts|
  {
    if |parts| > 0 && sum + parts[0] <= PERQUINTILL {
      ValidIffPartsAddUp(parts[1..], sum + parts[0]);
    }
  }

  lemma PartsTotal(params: InflationParameters)
    requires params.IsValid()
    ensures params.treasuryPart + params.collatorsPart + params.dappsPart
            + params.baseStakersPart + params.adjustableStakersPart + params.bonusPart == PERQUINTILL
  {
    var parts := params.Parts();
    ValidIffPartsAddUp(parts, 0);
    assert parts[1..][1..] == parts[2..] && parts[2..][1..] == parts[3..] && parts[3..][1..] == parts[4..]
        && parts[4..][1..] == parts[5..] && parts[5..][1..] == parts[6..];
    assert Total(parts[6..]) == 0;
    assert Total(parts[5..]) == parts[5];
    assert Total(parts[4..]) == parts[4] + Total(parts[5..]);
    assert Total(parts[3..]) == parts[3] + Total(parts[4..]);
    assert Total(parts[2..]) == parts[2] + Total(parts[3..]);
    assert Total(parts[1..]) == parts[1] + Total(parts[2..]);
  }

  // ---------- the budget ----------

  /** Dividing a budget by a count and paying that many times stays within it. */
  lemma ShareFits(budget: Balance, count: nat, times: nat)
    requires count > 0 && times <= count
    ensures times * (budget / count) <= budget
  {
    MulIsMonotone(times, count, budget / count);
    assert budget == count * (budget / count) + budget % count;
  }

  /** Rounded parts of one whole exceed the whole by at most half a unit each. */
  lemma SixParts(emission: nat, a: nat, b: nat, c: nat, d: nat, e: nat, f: nat)
    requires a + b + c + d + e + f == PERQUINTILL
    ensures MulNearest(PERQUINTILL, a, emission) + MulNearest(PERQUINTILL, b, emission) + MulNearest(PERQUINTILL, c, emission)
            + MulNearest(PERQUINTILL, d, emission) + MulNearest(PERQUINTILL, e, emission) + MulNearest(PERQUINTILL, f, emission)
            <= emission + 3
  {
    MulNearestError(PERQUINTILL, a, emission);
    MulNearestError(PERQUINTILL, b, emission);
    MulNearestError(PERQUINTILL, c, emission);
    MulNearestError(PERQUINTILL, d, emission);
    MulNearestError(PERQUINTILL, e, emission);
    MulNearestError(PERQUINTILL, f, emission);
    var sum := MulNearest(PERQUINTILL, a, emission) + MulNearest(PERQUINTILL, b, emission) + MulNearest(PERQUINTILL, c, emission)
               + MulNearest(PERQUINTILL, d, emission) + MulNearest(PERQUINTILL, e, emission) + MulNearest(PERQUINTILL, f, emission);
    SixProducts(a, b, c, d, e, f, emission);
    assert 2 * (PERQUINTILL * sum) <= 2 * (PERQUINTILL * emission) + 6 * PERQUINTILL;
  }

  lemma SixProducts(a: nat, b: nat, c: nat, d: nat, e: nat, f: nat, n: nat)
    ensures a * n + b * n + c * n + d * n + e * n + f * n == (a + b + c + d + e + f) * n
  {
  }

  /** Every reward is the largest that its own part of the emission covers for as often as it
      is paid in a cycle. */
  lemma RewardsAreLargest(params: InflationParameters, cycle: CycleConfiguration, issuance: Balance, nextEra: EraNumber)
    requires cycle.IsValid()
    ensures var c, emission := Recalculate(params, cycle, issuance, nextEra), MulNearest(PERQUINTILL, params.maxInflationRate, issuance);
            var periods := cycle.periodsPerCycle;
            var eras := cycle.erasPerBuildAndEarn * periods;
            var blocks := cycle.blocksPerEra * ((cycle.erasPerVoting + cycle.erasPerBuildAndEarn) * periods);
            && blocks * c.collatorRewardPerBlock <= MulNearest(PERQUINTILL, params.collatorsPart, emission) < blocks * (c.collatorRewardPerBlock + 1)
            && blocks * c.treasuryRewardPerBlock <= MulNearest(PERQUINTILL, params.treasuryPart, emission) < blocks * (c.treasuryRewardPerBlock + 1)
            && eras * c.dappRewardPoolPerEra <= MulNearest(PERQUINTILL, params.dappsPart, emission) < eras * (c.dappRewardPoolPerEra + 1)
            && eras * c.baseStakerRewardPoolPerEra <= MulNearest(PERQUINTILL, params.baseStakersPart, emission)
               < eras * (c.baseStakerRewardPoolPerEra + 1)
            && eras * c.adjustableStakerRewardPoolPerEra <= MulNearest(PERQUINTILL, params.adjustableStakersPart, emission)
               < eras * (c.adjustableStakerRewardPoolPerEra + 1)
            && periods * c.bonusRewardPoolPerPeriod <= MulNearest(PERQUINTILL, params.bonusPart, emission)
               < periods * (c.bonusRewardPoolPerPeriod + 1)
            && c.idealStakingRate == params.idealStakingRate && c.issuanceSafetyCap == issuance + emission
  {
    var emission := MaxEmission(params, issuance);
    CountsArePositive(cycle);
    QuotientBounds(MulNearest(PERQUINTILL, params.collatorsPart, emission), cycle.BlocksPerCycle());
    QuotientBounds(MulNearest(PERQUINTILL, params.treasuryPart, emission), cycle.BlocksPerCycle());
    QuotientBounds(MulNearest(PERQUINTILL, params.dappsPart, emission), cycle.BuildAndEarnErasPerCycle());
    QuotientBounds(MulNearest(PERQUINTILL, params.baseStakersPart, emission), cycle.BuildAndEarnErasPerCycle());
    QuotientBounds(MulNearest(PERQUINTILL, params.adjustableStakersPart, emission), cycle.BuildAndEarnErasPerCycle());
    QuotientBounds(MulNearest(PERQUINTILL, params.bonusPart, emission), cycle.periodsPerCycle);
  }

  lemma CountsArePositive(cycle: CycleConfiguration)
    requires cycle.IsValid()
    ensures cycle.BlocksPerCycle() > 0 && cycle.BuildAndEarnErasPerCycle() > 0
  {
    MulIsMonotone(1, cycle.erasPerBuildAndEarn, cycle.periodsPerCycle);
    MulIsMonotone(1, cycle.erasPerVoting + cycle.erasPerBuildAndEarn, cycle.periodsPerCycle);
    MulIsMonotone(1, cycle.blocksPerEra, (cycle.erasPerVoting + cycle.erasPerBuildAndEarn) * cycle.periodsPerCycle);
  }

  /** The emission is the largest rate of the issuance, to the nearest integer. */
  lemma EmissionIsNearest(params: InflationParameters, issuance: Balance)
    ensures var emission := MaxEmission(params, issuance);
            && 2 * (PERQUINTILL * emission) <= 2 * (params.maxInflationRate * issuance) + PERQUINTILL
            && 2 * (params.maxInflationRate * issuance) <= 2 * (PERQUINTILL * emission) + PERQUINTILL
  {
    MulNearestError(PERQUINTILL, params.maxInflationRate, issuance);
    MulNearestShortfall(PERQUINTILL, params.maxInflationRate, issuance);
  }

  /** The staker pool of an era has all of the adjustable part once the ideal rate of the
      issuance is staked, and before that the adjustable part in proportion, up to rounding. */
  lemma StakerPoolFollowsStake(config: InflationConfiguration, staked: Balance, issuance: Balance)
    requires config.idealStakingRate <= PERQUINTILL
    ensures var (stakers, dapps) := config.EraPools(staked, issuance);
            var ideal, most := config.idealStakingRate, config.adjustableStakerRewardPoolPerEra;
            && dapps == config.dappRewardPoolPerEra && config.baseStakerRewardPoolPerEra <= stakers
            && var part := stakers - config.baseStakerRewardPoolPerEra;
               if ideal * issuance <= staked * PERQUINTILL then part == most
               else && 2 * (issuance * (ideal * part)) <= 2 * (PERQUINTILL * (staked * most)) + issuance * ideal
                    && 2 * (PERQUINTILL * (PERQUINTILL * (staked * most)))
                       <= 2 * (PERQUINTILL * (issuance * (ideal * part))) + 2 * (PERQUINTILL * (issuance * most))
                          + 2 * (issuance * (ideal * most)) + PERQUINTILL * (issuance * ideal)
  {
    var ideal, most, ratio := config.idealStakingRate, config.adjustableStakerRewardPoolPerEra, RatioDown(PERQUINTILL, staked, issuance);
    if issuance == 0 || staked > issuance {
      MulIsMonotone(issuance, staked, PERQUINTILL);
      MulIsMonotone(ideal, PERQUINTILL, issuance);
      WholeRatio(ideal);
      MulWhole(most);
    } else {
      RatioDownBound(PERQUINTILL, staked, issuance);
      RatioDownShortfall(PERQUINTILL, staked, issuance);
      if ideal * issuance <= staked * PERQUINTILL {
        IdealIsReached(ideal, issuance, staked, ratio);
        MulWhole(most);
      } else {
        IdealIsMissed(ideal, issuance, staked, ratio);
        ProRataError(PERQUINTILL, ratio, ideal, most);
        ProRataShortfall(PERQUINTILL, ratio, ideal, most);
        PartWithin(PERQUINTILL, ideal, issuance, staked, ratio, most, ProRata(PERQUINTILL, ratio, ideal, most));
      }
    }
  }

  lemma WholeRatio(ideal: nat)
    requires ideal <= PERQUINTILL
    ensures RatioDown(PERQUINTILL, PERQUINTILL, ideal) == PERQUINTILL
  {
    if ideal == PERQUINTILL {
      WholeQuotient(PERQUINTILL, PERQUINTILL);
    }
  }

  lemma IdealIsReached(ideal: nat, issuance: nat, staked: nat, ratio: nat)
    requires issuance > 0 && ideal * issuance <= staked * PERQUINTILL < ratio * issuance + issuance
    ensures RatioDown(PERQUINTILL, ratio, ideal) == PERQUINTILL
  {
    if ratio < ideal {
      MulIsMonotone(ratio + 1, ideal, issuance);
      assert false;
    } else if ratio == ideal && ideal > 0 {
      WholeQuotient(PERQUINTILL, ideal);
    }
  }

  lemma IdealIsMissed(ideal: nat, issuance: nat, staked: nat, ratio: nat)
    requires issuance > 0 && ratio * issuance <= staked * PERQUINTILL < ideal * issuance
    ensures ratio < ideal
  {
    if ratio >= ideal {
      MulIsMonotone(ideal, ratio, issuance);
    }
  }

  lemma MulWhole(n: nat)
    ensures MulNearest(PERQUINTILL, PERQUINTILL, n) == n
  {
    WholeQuotient(n, PERQUINTILL);
  }

  /** The bounds of the inner ratio carried over to the pool. */
  lemma PartWithin(one: nat, ideal: nat, issuance: nat, staked: nat, ratio: nat, most: nat, part: nat)
    requires ratio * issuance <= staked * one <= ratio * issuance + issuance
    requires 2 * (ideal * part) <= 2 * (ratio * most) + ideal
    requires 2 * (one * (ratio * most)) <= 2 * (one * (ideal * part)) + 2 * (ideal * most) + one * ideal
    ensures 2 * (issuance * (ideal * part)) <= 2 * (one * (staked * most)) + issuance * ideal
    ensures 2 * (one * (one * (staked * most)))
            <= 2 * (one * (issuance * (ideal * part))) + 2 * (one * (issuance * most)) + 2 * (issuance * (ideal * most)) + one * (issuance * ideal)
  {
    StakedOverPool(one, issuance, staked, ratio, most);
    PartAtMost(one, ideal, issuance, ratio * most, part, one * (staked * most));
    PartAtLeast(one, ideal, issuance, ratio * most, part, one * (staked * most), most);
  }

  lemma StakedOverPool(one: nat, issuance: nat, staked: nat, ratio: nat, most: nat)
    requires ratio * issuance <= staked * one <= ratio * issuance + issuance
    ensures issuance * (ratio * most) <= one * (staked * most) <= issuance * (ratio * most) + issuance * most
  {
    MulIsMonotone(ratio * issuance, staked * one, most);
    MulIsMonotone(staked * one, ratio * issuance + issuance, most);
    RegroupProduct(issuance, ratio, most);
    RegroupProduct(one, staked, most);
    assert (ratio * issuance + issuance) * most == (ratio * issuance) * most + issuance * most;
  }

  lemma PartAtMost(one: nat, ideal: nat, issuance: nat, scaled: nat, part: nat, exact: nat)
    requires 2 * (ideal * part) <= 2 * scaled + ideal && issuance * scaled <= exact
    ensures 2 * (issuance * (ideal * part)) <= 2 * exact + issuance * ideal
  {
    MulIsMonotone(2 * (ideal * part), 2 * scaled + ideal, issuance);
    assert (2 * (ideal * part)) * issuance == 2 * (issuance * (ideal * part));
    assert (2 * scaled + ideal) * issuance == 2 * (issuance * scaled) + issuance * ideal;
  }

  lemma PartAtLeast(one: nat, ideal: nat, issuance: nat, scaled: nat, part: nat, exact: nat, most: nat)
    requires 2 * (one * scaled) <= 2 * (one * (ideal * part)) + 2 * (ideal * most) + one * ideal
    requires exact <= issuance * scaled + issuance * most
    ensures 2 * (one * exact)
            <= 2 * (one * (issuance * (ideal * part))) + 2 * (one * (issuance * most)) + 2 * (issuance * (ideal * most)) + one * (issuance * ideal)
  {
    MulIsMonotone(2 * (one * scaled), 2 * (one * (ideal * part)) + 2 * (ideal * most) + one * ideal, issuance);
    MulIsMonotone(exact, issuance * scaled + issuance * most, one);
    assert (issuance * scaled + issuance * most) * one == one * (issuance * scaled) + one * (issuance * most);
    assert (2 * (one * scaled)) * issuance == 2 * (one * (issuance * scaled));
    SpreadThree(one, ideal, issuance, ideal * part, ideal * most);
  }

  lemma SpreadThree(one: nat, ideal: nat, issuance: nat, x: nat, y: nat)
    ensures (2 * (one * x) + 2 * y + one * ideal) * issuance == 2 * (one * (issuance * x)) + 2 * (issuance * y) + one * (issuance * ideal)
  {
    assert (one * x) * issuance == one * (issuance * x);
    assert (one * ideal) * issuance == one * (issuance * ideal);
  }

  lemma EraPoolsBounded(config: InflationConfiguration, staked: Balance, issuance: Balance)
    ensures config.EraPools(staked, issuance).0 + config.EraPools(staked, issuance).1 <= config.MaxEraPools()
  {
    var ratio := RatioDown(PERQUINTILL, staked, issuance);
    RatioDownAtMost(PERQUINTILL, ratio, config.idealStakingRate);
    MulNearestAtMost(PERQUINTILL, RatioDown(PERQUINTILL, ratio, config.idealStakingRate), config.adjustableStakerRewardPoolPerEra);
  }

  /** What a configuration can pay out over the given numbers of blocks, eras and periods. */
  function Payable(config: InflationConfiguration, blocks: nat, eras: nat, periods: nat): Balance {
    blocks * config.BlockReward() + eras * config.MaxEraPools() + periods * config.bonusRewardPoolPerPeriod
  }

  /** A configuration paid for no more than one cycle stays within its emission, up to the
      rounding of six products. */
  lemma CycleStaysWithinEmission(params: InflationParameters, cycle: CycleConfiguration, issuance: Balance, nextEra: EraNumber,
                                 blocks: nat, eras: nat, periods: nat)
    requires params.IsValid() && cycle.IsValid()
    requires blocks <= cycle.BlocksPerCycle() && eras <= cycle.BuildAndEarnErasPerCycle() && periods <= cycle.periodsPerCycle
    ensures Payable(Recalculate(params, cycle, issuance, nextEra), blocks, eras, periods) <= MaxEmission(params, issuance) + 3
  {
    var config := Recalculate(params, cycle, issuance, nextEra);
    var emission := MaxEmission(params, issuance);
    var b, n, p := Max(cycle.BlocksPerCycle(), 1), Max(cycle.BuildAndEarnErasPerCycle(), 1), Max(cycle.periodsPerCycle, 1);
    PartsTotal(params);
    SixParts(emission, params.treasuryPart, params.collatorsPart, params.dappsPart, params.baseStakersPart,
             params.adjustableStakersPart, params.bonusPart);
    ShareFits(MulNearest(PERQUINTILL, params.collatorsPart, emission), b, blocks);
    ShareFits(MulNearest(PERQUINTILL, params.treasuryPart, emission), b, blocks);
    ShareFits(MulNearest(PERQUINTILL, params.dappsPart, emission), n, eras);
    ShareFits(MulNearest(PERQUINTILL, params.baseStakersPart, emission), n, eras);
    ShareFits(MulNearest(PERQUINTILL, params.adjustableStakersPart, emission), n, eras);
    ShareFits(MulNearest(PERQUINTILL, params.bonusPart, emission), p, periods);
    SpreadPayable(config, blocks, eras);
  }

  lemma SpreadPayable(config: InflationConfiguration, blocks: nat, eras: nat)
    ensures blocks * config.BlockReward() == blocks * config.collatorRewardPerBlock + blocks * config.treasuryRewardPerBlock
    ensures eras * config.MaxEraPools()
            == eras * config.baseStakerRewardPoolPerEra + eras * config.adjustableStakerRewardPoolPerEra + eras * config.dappRewardPoolPerEra
  {
  }
}

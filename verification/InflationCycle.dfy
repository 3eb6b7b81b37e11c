/** The inflation pallet driven by the era clock of dApp staking, block by block: how many
    blocks, eras and periods are really paid under one inflation configuration. */
module InflationCycle {
  import opened Arithmetic
  import opened StakeTypes
  import opened Calendar
  import opened Inflation

  type Cycle = c: CycleConfiguration | c.IsValid() witness CycleConfiguration(1, 1, 1, 1)

  /** What was paid under one configuration since it took effect, starting with the period
      `firstPeriod`, and the emission the configuration was calculated for. */
  datatype Tally = Tally(
    firstPeriod: PeriodNumber,
    emission: Balance,
    blocks: nat,
    eraPools: nat,
    bonusPools: nat,
    granted: Balance)

  datatype Chain = Chain(
    now: BlockNumber,
    clock: ProtocolState,
    params: InflationParameters,
    config: InflationConfiguration,
    pending: Option<EraNumber>,
    tally: Tally,
    finished: seq<Tally>)

  /** What a block takes from outside: the stake and issuance when it starts, the issuance
      when it ends, and parameters set by root, if any. */
  datatype BlockInputs = BlockInputs(
    staked: Balance,
    issuance: Balance,
    finalIssuance: Balance,
    newParams: Option<InflationParameters>)

  function VotingLength(cycle: Cycle): BlockNumber {
    cycle.blocksPerEra * cycle.erasPerVoting
  }

  /** The era clock when a new era starts in block `now`. */
  function NextClock(cycle: Cycle, now: BlockNumber, clock: ProtocolState): ProtocolState {
    var era, info := clock.era, clock.periodInfo;
    if info.subperiod == Voting then
      clock.AdvanceToNextSubperiod(era + 1 + cycle.erasPerBuildAndEarn, now + cycle.blocksPerEra).(era := era + 1)
    else if info.IsNextPeriod(era + 1) then
      clock.AdvanceToNextSubperiod(era + 2, now + VotingLength(cycle)).(era := era + 1)
    else clock.(era := era + 1, nextEraStart := now + cycle.blocksPerEra)
  }

  function GenesisChain(cycle: Cycle, params: InflationParameters, issuance: Balance): Chain {
    Chain(0, ProtocolState(1, VotingLength(cycle) + 1, PeriodInfo(1, Voting, 2), false), params,
          Recalculate(DEFAULT_PARAMETERS, cycle, issuance, 1), None,
          Tally(1, MaxEmission(DEFAULT_PARAMETERS, issuance), 0, 0, 0, 0), [])
  }

  /** `block_before_new_era`, when the next block starts a new era. */
  function Notify(s: Chain): Chain {
    if s.clock.nextEraStart == s.now + 1 && s.config.recalculationEra <= s.clock.era + 1
    then s.(pending := Some(s.clock.era + 1)) else s
  }

  /** The pools that the end of the current era asks for. */
  function GrantPools(s: Chain, staked: Balance, issuance: Balance): Tally {
    var info := s.clock.periodInfo;
    if info.subperiod == Voting then s.tally
    else
      var (stakers, dapps) := s.config.EraPools(staked, issuance);
      var ends := info.IsNextPeriod(s.clock.era + 1);
      s.tally.(eraPools := s.tally.eraPools + 1,
               bonusPools := if ends then s.tally.bonusPools + 1 else s.tally.bonusPools,
               granted := s.tally.granted + stakers + dapps + if ends then s.config.bonusRewardPoolPerPeriod else 0)
  }

  function Initialize(cycle: Cycle, s: Chain, inputs: BlockInputs): Chain {
    var paid := s.(now := s.now + 1,
                   tally := s.tally.(blocks := s.tally.blocks + 1, granted := s.tally.granted + s.config.BlockReward()));
    var told := Notify(paid);
    if !told.clock.IsNewEra(told.now) then told
    else told.(tally := GrantPools(told, inputs.staked, inputs.issuance), clock := NextClock(cycle, told.now, told.clock))
  }

  function Finalize(cycle: Cycle, s: Chain, issuance: Balance): Chain {
    match s.pending
    case None => s
    case Some(nextEra) =>
      s.(config := Recalculate(s.params, cycle, issuance, nextEra),
         pending := None,
         tally := Tally(s.clock.periodInfo.number + 1, MaxEmission(s.params, issuance), 0, 0, 0, 0),
         finished := s.finished + [s.tally])
  }

  /** Only valid parameters are accepted. */
  function SetParams(s: Chain, newParams: Option<InflationParameters>): Chain {
    if newParams.Some? && newParams.value.IsValid() then s.(params := newParams.value) else s
  }

  function Block(cycle: Cycle, s: Chain, inputs: BlockInputs): Chain {
    Finalize(cycle, SetParams(Initialize(cycle, s, inputs), inputs.newParams), inputs.finalIssuance)
  }

  function After(cycle: Cycle, s: Chain, blocks: seq<BlockInputs>): Chain
    decreases |blocks|
  {
    if |blocks| == 0 then s else Block(cycle, After(cycle, s, blocks[..|blocks| - 1]), blocks[|blocks| - 1])
  }

  // ---------- block calendar ----------

  /** Length of `eras` Build&Earn eras in blocks. */
  function EraBlocks(cycle: Cycle, eras: nat): BlockNumber {
    if eras == 0 then 0 else EraBlocks(cycle, eras - 1) + cycle.blocksPerEra
  }

  /** First block of a period. */
  function StartBlock(cycle: Cycle, period: PeriodNumber): BlockNumber {
    if period <= 1 then 1
    else StartBlock(cycle, period - 1) + VotingLength(cycle) + EraBlocks(cycle, cycle.erasPerBuildAndEarn)
  }

  /** Build&Earn eras in the periods before `period`. */
  function ErasBefore(cycle: Cycle, period: PeriodNumber): nat {
    if period <= 1 then 0 else ErasBefore(cycle, period - 1) + cycle.erasPerBuildAndEarn
  }

  /** First block of the current era, the `j`-th one after the Voting era of its period. */
  function EraStart(cycle: Cycle, period: PeriodNumber, j: nat): BlockNumber {
    if j == 0 then StartBlock(cycle, period) else StartBlock(cycle, period) + VotingLength(cycle) + EraBlocks(cycle, j - 1)
  }

  /** Number of Build&Earn eras the current period has entered. */
  function Entered(cycle: Cycle, clock: ProtocolState): nat
    requires clock.periodInfo.number >= 1
  {
    SatSub(clock.era, FinalEra(cycle.erasPerBuildAndEarn, clock.periodInfo.number - 1) + 1)
  }

  ghost predicate TimeOk(cycle: Cycle, now: BlockNumber, clock: ProtocolState) {
    var period := clock.periodInfo.number;
    && !clock.maintenance && ClockOk(cycle.erasPerBuildAndEarn, clock.era, clock.periodInfo)
    && clock.nextEraStart == StartBlock(cycle, period) + VotingLength(cycle) + EraBlocks(cycle, Entered(cycle, clock))
    && EraStart(cycle, period, Entered(cycle, clock)) <= now + 1
    && (now > 0 ==> EraStart(cycle, period, Entered(cycle, clock)) <= now)
    && now < clock.nextEraStart
  }

  lemma EraBlocksGrow(cycle: Cycle, j: nat)
    ensures EraBlocks(cycle, j + 1) == EraBlocks(cycle, j) + cycle.blocksPerEra
  {
  }

  lemma VotingIsPositive(cycle: Cycle)
    ensures VotingLength(cycle) >= 1
  {
    MulIsMonotone(1, cycle.blocksPerEra, cycle.erasPerVoting);
  }

  /** A block that starts no new era. */
  lemma QuietBlock(cycle: Cycle, now: BlockNumber, clock: ProtocolState)
    requires TimeOk(cycle, now, clock) && now + 1 < clock.nextEraStart
    ensures TimeOk(cycle, now + 1, clock)
  {
  }

  /** A block that starts a new era keeps the clock on the calendar. */
  lemma NewEraBlock(cycle: Cycle, now: BlockNumber, clock: ProtocolState)
    requires TimeOk(cycle, now, clock) && now + 1 == clock.nextEraStart
    ensures TimeOk(cycle, now + 1, NextClock(cycle, now + 1, clock))
    ensures var after, period := NextClock(cycle, now + 1, clock), clock.periodInfo.number;
            && after.era == clock.era + 1
            && (if LastOfPeriod(clock) then after.periodInfo.number == period + 1 && Entered(cycle, after) == 0
                                            && clock.nextEraStart == StartBlock(cycle, period + 1)
                else after.periodInfo.number == period && Entered(cycle, after) == Entered(cycle, clock) + 1)
  {
    VotingIsPositive(cycle);
    EraBlocksGrow(cycle, Entered(cycle, clock));
  }

  predicate LastOfPeriod(clock: ProtocolState) {
    clock.periodInfo.IsNextPeriod(clock.era + 1)
  }

  // ---------- closed forms ----------

  lemma {:induction false} ErasOfPeriods(cycle: Cycle, period: PeriodNumber, n: nat)
    ensures FinalEra(cycle.erasPerBuildAndEarn, period + n) == FinalEra(cycle.erasPerBuildAndEarn, period) + (cycle.erasPerBuildAndEarn + 1) * n
  {
    if n > 0 {
      ErasOfPeriods(cycle, period, n - 1);
      OneMoreTime(cycle.erasPerBuildAndEarn + 1, n - 1);
    }
  }

  lemma OneMoreTime(a: nat, n: nat)
    ensures a * (n + 1) == a * n + a
  {
  }

  lemma {:induction false} BuildAndEarnErasOfPeriods(cycle: Cycle, period: PeriodNumber, n: nat)
    requires period >= 1
    ensures ErasBefore(cycle, period + n) == ErasBefore(cycle, period) + cycle.erasPerBuildAndEarn * n
  {
    if n > 0 {
      BuildAndEarnErasOfPeriods(cycle, period, n - 1);
      OneMoreTime(cycle.erasPerBuildAndEarn, n - 1);
    }
  }

  lemma {:induction false} EraBlocksAre(cycle: Cycle, j: nat)
    ensures EraBlocks(cycle, j) == cycle.blocksPerEra * j
  {
    if j > 0 {
      EraBlocksAre(cycle, j - 1);
      OneMoreTime(cycle.blocksPerEra, j - 1);
    }
  }

  lemma {:induction false} BlocksOfPeriods(cycle: Cycle, period: PeriodNumber, n: nat)
    requires period >= 1
    ensures StartBlock(cycle, period + n)
            == StartBlock(cycle, period) + (cycle.blocksPerEra * (cycle.erasPerVoting + cycle.erasPerBuildAndEarn)) * n
  {
    if n > 0 {
      BlocksOfPeriods(cycle, period, n - 1);
      EraBlocksAre(cycle, cycle.erasPerBuildAndEarn);
      OneMoreTime(cycle.blocksPerEra * (cycle.erasPerVoting + cycle.erasPerBuildAndEarn), n - 1);
    }
  }

  /** From the first period of a cycle to the first of the next one are exactly the blocks of
      a cycle. */
  lemma CycleBlocks(cycle: Cycle, period: PeriodNumber)
    requires period >= 1
    ensures StartBlock(cycle, period + cycle.periodsPerCycle) == StartBlock(cycle, period) + cycle.BlocksPerCycle()
  {
    BlocksOfPeriods(cycle, period, cycle.periodsPerCycle);
    Reassociate(cycle.blocksPerEra, cycle.erasPerVoting + cycle.erasPerBuildAndEarn, cycle.periodsPerCycle);
  }

  lemma Reassociate(a: nat, b: nat, c: nat)
    ensures (a * b) * c == a * (b * c)
  {
  }

  lemma {:induction false} StartBlockGrows(cycle: Cycle, p: PeriodNumber, q: PeriodNumber)
    requires 1 <= p <= q
    ensures StartBlock(cycle, p) + (q - p) <= StartBlock(cycle, q)
    decreases q - p
  {
    if p < q {
      StartBlockGrows(cycle, p, q - 1);
      VotingIsPositive(cycle);
    }
  }

  lemma {:induction false} EraBlocksGrows(cycle: Cycle, i: nat, j: nat)
    requires i <= j
    ensures EraBlocks(cycle, i) + (j - i) <= EraBlocks(cycle, j)
    decreases j - i
  {
    if i < j {
      EraBlocksGrows(cycle, i, j - 1);
    }
  }

  // ---------- the tally of the active configuration ----------

  /** Whatever is paid for up to a cycle stays within the emission. */
  ghost predicate Budgeted(cycle: Cycle, config: InflationConfiguration, emission: Balance) {
    forall blocks: nat, eras: nat, periods: nat ::
      blocks <= cycle.BlocksPerCycle() && eras <= cycle.BuildAndEarnErasPerCycle() && periods <= cycle.periodsPerCycle ==>
        Payable(config, blocks, eras, periods) <= emission + 3
  }

  lemma RecalculatedIsBudgeted(cycle: Cycle, params: InflationParameters, issuance: Balance, nextEra: EraNumber)
    requires params.IsValid()
    ensures Budgeted(cycle, Recalculate(params, cycle, issuance, nextEra), MaxEmission(params, issuance))
  {
    forall blocks: nat, eras: nat, periods: nat
      | blocks <= cycle.BlocksPerCycle() && eras <= cycle.BuildAndEarnErasPerCycle() && periods <= cycle.periodsPerCycle
      ensures Payable(Recalculate(params, cycle, issuance, nextEra), blocks, eras, periods) <= MaxEmission(params, issuance) + 3
    {
      CycleStaysWithinEmission(params, cycle, issuance, nextEra, blocks, eras, periods);
    }
  }

  /** All but the first configuration also pay the last era and period of the cycle before. */
  function Carried(firstPeriod: PeriodNumber): nat {
    if firstPeriod <= 1 then 0 else 1
  }

  /** Which pools have been asked for since the configuration took effect. */
  ghost predicate PoolsOk(cycle: Cycle, clock: ProtocolState, t: Tally)
    requires clock.periodInfo.number >= 1
  {
    var p, f := clock.periodInfo.number, t.firstPeriod;
    if p < f then t.eraPools == 0 && t.bonusPools == 0
    else t.eraPools + ErasBefore(cycle, f) == Carried(f) + ErasBefore(cycle, p) + SatSub(Entered(cycle, clock), 1)
         && t.bonusPools + f == Carried(f) + p
  }

  ghost predicate ActiveOk(cycle: Cycle, s: Chain) {
    var p, f := s.clock.periodInfo.number, s.tally.firstPeriod;
    && TimeOk(cycle, s.now, s.clock) && s.pending.None? && s.params.IsValid()
    && 1 <= f <= p + 1 && p < f + cycle.periodsPerCycle
    && (p < f ==> s.now + 1 == s.clock.nextEraStart && LastOfPeriod(s.clock))
    && s.config.recalculationEra == FinalEra(cycle.erasPerBuildAndEarn, f - 1 + cycle.periodsPerCycle) + 1
    && StartBlock(cycle, f) + s.tally.blocks == s.now + 1 < StartBlock(cycle, f + cycle.periodsPerCycle)
  }

  /** What was granted is payable for what was counted, and a cycle of that is budgeted. */
  ghost predicate BudgetOk(cycle: Cycle, config: InflationConfiguration, t: Tally) {
    && t.granted <= Payable(config, t.blocks, t.eraPools, t.bonusPools)
    && Budgeted(cycle, config, t.emission)
  }

  /** A configuration that has been replaced was in force for exactly one cycle of blocks,
      paid at most one cycle of pools, and granted at most its emission, up to the rounding
      of six products. */
  predicate FinishedOk(cycle: Cycle, t: Tally) {
    && t.blocks == cycle.BlocksPerCycle()
    && t.eraPools <= cycle.BuildAndEarnErasPerCycle()
    && t.bonusPools <= cycle.periodsPerCycle
    && t.granted <= t.emission + 3
  }

  ghost predicate ChainOk(cycle: Cycle, s: Chain) {
    && ActiveOk(cycle, s) && PoolsOk(cycle, s.clock, s.tally) && BudgetOk(cycle, s.config, s.tally)
    && s.tally.firstPeriod == 1 + cycle.periodsPerCycle * |s.finished|
    && forall i :: 0 <= i < |s.finished| ==> FinishedOk(cycle, s.finished[i])
  }

  lemma PayableGrows(config: InflationConfiguration, blocks: nat, eras: nat, periods: nat)
    ensures Payable(config, blocks + 1, eras, periods) == Payable(config, blocks, eras, periods) + config.BlockReward()
    ensures Payable(config, blocks, eras + 1, periods) == Payable(config, blocks, eras, periods) + config.MaxEraPools()
    ensures Payable(config, blocks, eras, periods + 1) == Payable(config, blocks, eras, periods) + config.bonusRewardPoolPerPeriod
  {
  }

  // ---------- one block ----------

  /** The last block before the next cycle is exactly the one in which the recalculation is
      asked for. */
  lemma AskedAtCycleEnd(cycle: Cycle, now: BlockNumber, clock: ProtocolState, f: PeriodNumber)
    requires TimeOk(cycle, now, clock) && clock.nextEraStart == now + 2
    requires 1 <= f <= clock.periodInfo.number < f + cycle.periodsPerCycle
    ensures FinalEra(cycle.erasPerBuildAndEarn, f - 1 + cycle.periodsPerCycle) + 1 <= clock.era + 1
            <==> now + 2 == StartBlock(cycle, f + cycle.periodsPerCycle)
    ensures now + 2 == StartBlock(cycle, f + cycle.periodsPerCycle) ==>
              && clock.periodInfo.number + 1 == f + cycle.periodsPerCycle && LastOfPeriod(clock)
              && Entered(cycle, clock) == cycle.erasPerBuildAndEarn
  {
    var p, B := clock.periodInfo.number, cycle.erasPerBuildAndEarn;
    FinalEraIsMonotone(B, p, f - 1 + cycle.periodsPerCycle);
    StartBlockGrows(cycle, p + 1, f + cycle.periodsPerCycle);
    EraBlocksGrows(cycle, Entered(cycle, clock), B);
  }

  /** Within a block that starts no era, only the block reward is added. */
  lemma QuietKeepsActive(cycle: Cycle, s: Chain)
    requires ActiveOk(cycle, s) && s.now + 1 < s.clock.nextEraStart
    requires s.now + 2 < StartBlock(cycle, s.tally.firstPeriod + cycle.periodsPerCycle)
    ensures ActiveOk(cycle, s.(now := s.now + 1, tally := Rewarded(s)))
  {
    QuietBlock(cycle, s.now, s.clock);
  }

  /** The tally once the block reward is paid. */
  function Rewarded(s: Chain): Tally {
    s.tally.(blocks := s.tally.blocks + 1, granted := s.tally.granted + s.config.BlockReward())
  }

  lemma RewardKeepsBudget(cycle: Cycle, s: Chain)
    requires BudgetOk(cycle, s.config, s.tally)
    ensures BudgetOk(cycle, s.config, Rewarded(s))
  {
    PayableGrows(s.config, s.tally.blocks, s.tally.eraPools, s.tally.bonusPools);
  }

  /** The pools asked for when an era ends. */
  lemma GrantKeepsPools(cycle: Cycle, now: BlockNumber, clock: ProtocolState, t: Tally, after: Tally)
    requires TimeOk(cycle, now, clock) && now + 1 == clock.nextEraStart
    requires 1 <= t.firstPeriod <= clock.periodInfo.number + 1 && (clock.periodInfo.number < t.firstPeriod ==> LastOfPeriod(clock))
    requires PoolsOk(cycle, clock, t) && after.firstPeriod == t.firstPeriod
    requires after.eraPools == t.eraPools + (if clock.periodInfo.subperiod == Voting then 0 else 1)
    requires after.bonusPools == t.bonusPools + (if LastOfPeriod(clock) then 1 else 0)
    ensures PoolsOk(cycle, NextClock(cycle, now + 1, clock), after)
  {
    NewEraBlock(cycle, now, clock);
  }

  lemma GrantKeepsBudget(cycle: Cycle, s: Chain, staked: Balance, issuance: Balance)
    requires BudgetOk(cycle, s.config, s.tally)
    ensures BudgetOk(cycle, s.config, GrantPools(s, staked, issuance))
  {
    EraPoolsBounded(s.config, staked, issuance);
    PayableGrows(s.config, s.tally.blocks, s.tally.eraPools, s.tally.bonusPools);
    PayableGrows(s.config, s.tally.blocks, s.tally.eraPools + 1, s.tally.bonusPools);
  }

  lemma GrantCounts(s: Chain, staked: Balance, issuance: Balance)
    ensures var t := GrantPools(s, staked, issuance);
            && t.firstPeriod == s.tally.firstPeriod && t.blocks == s.tally.blocks
            && t.eraPools == s.tally.eraPools + (if s.clock.periodInfo.subperiod == Voting then 0 else 1)
            && t.bonusPools == s.tally.bonusPools + (if LastOfPeriod(s.clock) then 1 else 0)
  {
  }

  /** An era that has just started lasts at least another block. */
  lemma ErasLastTwoBlocks(cycle: Cycle, now: BlockNumber, clock: ProtocolState)
    requires TimeOk(cycle, now, clock) && now + 1 == clock.nextEraStart && cycle.blocksPerEra >= 2
    ensures NextClock(cycle, now + 1, clock).nextEraStart >= now + 3
  {
    MulIsMonotone(1, cycle.erasPerVoting, cycle.blocksPerEra);
  }

  /** An era ends at the latest where the next period starts. */
  lemma EraEndsInPeriod(cycle: Cycle, now: BlockNumber, clock: ProtocolState)
    requires TimeOk(cycle, now, clock)
    ensures clock.nextEraStart <= StartBlock(cycle, clock.periodInfo.number + 1)
  {
    EraBlocksGrows(cycle, Entered(cycle, clock), cycle.erasPerBuildAndEarn);
  }

  /** With eras of at least two blocks, a block that starts an era is never the last one of
      a cycle. */
  lemma NewEraIsNotLast(cycle: Cycle, now: BlockNumber, clock: ProtocolState, f: PeriodNumber)
    requires TimeOk(cycle, now, clock) && now + 1 == clock.nextEraStart && cycle.blocksPerEra >= 2
    requires 1 <= f <= clock.periodInfo.number + 1 && clock.periodInfo.number < f + cycle.periodsPerCycle
    requires now + 1 < StartBlock(cycle, f + cycle.periodsPerCycle)
    ensures NextClock(cycle, now + 1, clock).periodInfo.number < f + cycle.periodsPerCycle
    ensures now + 2 < StartBlock(cycle, f + cycle.periodsPerCycle)
  {
    var after := NextClock(cycle, now + 1, clock);
    NewEraBlock(cycle, now, clock);
    ErasLastTwoBlocks(cycle, now, clock);
    EraEndsInPeriod(cycle, now + 1, after);
    StartBlockGrows(cycle, after.periodInfo.number + 1, f + cycle.periodsPerCycle);
  }

  lemma NewEraKeepsActive(cycle: Cycle, s: Chain, t: Tally)
    requires ActiveOk(cycle, s) && s.now + 1 == s.clock.nextEraStart && cycle.blocksPerEra >= 2
    requires t.firstPeriod == s.tally.firstPeriod && t.blocks == s.tally.blocks + 1
    ensures ActiveOk(cycle, s.(now := s.now + 1, tally := t, clock := NextClock(cycle, s.now + 1, s.clock)))
  {
    NewEraKeepsTime(cycle, s.now, s.clock, t.firstPeriod);
  }

  lemma NewEraKeepsTime(cycle: Cycle, now: BlockNumber, clock: ProtocolState, f: PeriodNumber)
    requires TimeOk(cycle, now, clock) && now + 1 == clock.nextEraStart && cycle.blocksPerEra >= 2
    requires 1 <= f <= clock.periodInfo.number + 1 && clock.periodInfo.number < f + cycle.periodsPerCycle
    requires clock.periodInfo.number < f ==> LastOfPeriod(clock)
    requires now + 1 < StartBlock(cycle, f + cycle.periodsPerCycle)
    ensures var after := NextClock(cycle, now + 1, clock);
            TimeOk(cycle, now + 1, after) && f <= after.periodInfo.number < f + cycle.periodsPerCycle
    ensures now + 2 < StartBlock(cycle, f + cycle.periodsPerCycle)
  {
    NewEraBlock(cycle, now, clock);
    NewEraIsNotLast(cycle, now, clock, f);
  }

  /** At the end of the cycle the tally is complete and the next one starts. */
  lemma CycleEnds(cycle: Cycle, s: Chain)
    requires ActiveOk(cycle, s) && PoolsOk(cycle, s.clock, s.tally) && BudgetOk(cycle, s.config, s.tally)
    requires s.clock.nextEraStart == s.now + 2
    requires s.now + 2 == StartBlock(cycle, s.tally.firstPeriod + cycle.periodsPerCycle)
    ensures FinishedOk(cycle, Rewarded(s))
  {
    var t := Rewarded(s);
    CompleteTally(cycle, s);
    RewardKeepsBudget(cycle, s);
    assert Payable(s.config, t.blocks, t.eraPools, t.bonusPools) <= t.emission + 3;
  }

  lemma CompleteTally(cycle: Cycle, s: Chain)
    requires ActiveOk(cycle, s) && PoolsOk(cycle, s.clock, s.tally) && s.clock.nextEraStart == s.now + 2
    requires s.now + 2 == StartBlock(cycle, s.tally.firstPeriod + cycle.periodsPerCycle)
    ensures var t := Rewarded(s);
            && t.blocks == cycle.BlocksPerCycle() && t.eraPools <= cycle.BuildAndEarnErasPerCycle()
            && t.bonusPools <= cycle.periodsPerCycle
  {
    var f, B, P := s.tally.firstPeriod, cycle.erasPerBuildAndEarn, cycle.periodsPerCycle;
    AskedAtCycleEnd(cycle, s.now, s.clock, f);
    CycleBlocks(cycle, f);
    BuildAndEarnErasOfPeriods(cycle, f, P - 1);
    OneMoreTime(B, P - 1);
  }

  lemma NextCycleStarts(cycle: Cycle, s: Chain, params: InflationParameters, issuance: Balance, finished: seq<Tally>)
    requires ActiveOk(cycle, s) && s.clock.nextEraStart == s.now + 2 && params.IsValid()
    requires s.now + 2 == StartBlock(cycle, s.tally.firstPeriod + cycle.periodsPerCycle)
    ensures ActiveOk(cycle, Chain(s.now + 1, s.clock, params, Recalculate(params, cycle, issuance, s.clock.era + 1), None,
                                  Tally(s.clock.periodInfo.number + 1, MaxEmission(params, issuance), 0, 0, 0, 0), finished))
  {
    var f, p := s.tally.firstPeriod, s.clock.periodInfo.number;
    AskedAtCycleEnd(cycle, s.now, s.clock, f);
    QuietBlock(cycle, s.now, s.clock);
    ErasOfPeriods(cycle, p, cycle.periodsPerCycle);
    StartBlockGrows(cycle, p + 1, p + 1 + cycle.periodsPerCycle);
  }

  lemma QuietBlockIs(cycle: Cycle, s: Chain, inputs: BlockInputs)
    requires ActiveOk(cycle, s) && s.now + 1 < s.clock.nextEraStart
    ensures var asked := s.clock.nextEraStart == s.now + 2 && s.config.recalculationEra <= s.clock.era + 1;
            Initialize(cycle, s, inputs)
            == s.(now := s.now + 1, tally := Rewarded(s), pending := if asked then Some(s.clock.era + 1) else None)
  {
  }

  lemma NewEraBlockIs(cycle: Cycle, s: Chain, inputs: BlockInputs)
    requires ActiveOk(cycle, s) && s.now + 1 == s.clock.nextEraStart
    ensures var paid := s.(now := s.now + 1, tally := Rewarded(s));
            Initialize(cycle, s, inputs)
            == s.(now := s.now + 1, tally := GrantPools(paid, inputs.staked, inputs.issuance), clock := NextClock(cycle, s.now + 1, s.clock))
  {
  }

  lemma SetParamsKeepsActive(cycle: Cycle, s: Chain, newParams: Option<InflationParameters>)
    requires ActiveOk(cycle, s)
    ensures ActiveOk(cycle, SetParams(s, newParams))
  {
  }

  lemma BlockKeepsOk(cycle: Cycle, s: Chain, inputs: BlockInputs)
    requires ChainOk(cycle, s) && cycle.blocksPerEra >= 2
    ensures ChainOk(cycle, Block(cycle, s, inputs))
  {
    var f, P := s.tally.firstPeriod, cycle.periodsPerCycle;
    if s.now + 1 == s.clock.nextEraStart {
      NewEraKeepsOk(cycle, s, inputs);
    } else if s.now + 2 == StartBlock(cycle, f + P) {
      LastBlockKeepsOk(cycle, s, inputs);
    } else {
      OtherBlockKeepsOk(cycle, s, inputs);
    }
  }

  lemma NewEraKeepsOk(cycle: Cycle, s: Chain, inputs: BlockInputs)
    requires ChainOk(cycle, s) && cycle.blocksPerEra >= 2 && s.now + 1 == s.clock.nextEraStart
    ensures ChainOk(cycle, Block(cycle, s, inputs))
  {
    var paid := s.(now := s.now + 1, tally := Rewarded(s));
    RewardKeepsBudget(cycle, s);
    GrantKeepsBudget(cycle, paid, inputs.staked, inputs.issuance);
    GrantCounts(paid, inputs.staked, inputs.issuance);
    var t := GrantPools(paid, inputs.staked, inputs.issuance);
    NewEraBlockIs(cycle, s, inputs);
    NewEraKeepsActive(cycle, s, t);
    GrantKeepsPools(cycle, s.now, s.clock, s.tally, t);
    SetParamsKeepsActive(cycle, Initialize(cycle, s, inputs), inputs.newParams);
  }

  /** In the block before the next cycle the configuration is replaced. */
  lemma LastBlockKeepsOk(cycle: Cycle, s: Chain, inputs: BlockInputs)
    requires ChainOk(cycle, s) && s.now + 1 < s.clock.nextEraStart
    requires s.now + 2 == StartBlock(cycle, s.tally.firstPeriod + cycle.periodsPerCycle)
    ensures ChainOk(cycle, Block(cycle, s, inputs))
  {
    var params, finished := SetParams(s, inputs.newParams).params, s.finished + [Rewarded(s)];
    EndIsInTime(cycle, s);
    AskedAtCycleEnd(cycle, s.now, s.clock, s.tally.firstPeriod);
    ReplacedConfigIs(cycle, s, inputs);
    CycleEnds(cycle, s);
    NextCycleStarts(cycle, s, params, inputs.finalIssuance, finished);
    FreshBudget(cycle, params, inputs.finalIssuance, s.clock.era + 1, s.clock.periodInfo.number + 1);
    OneMoreTime(cycle.periodsPerCycle, |s.finished|);
  }

  lemma FreshBudget(cycle: Cycle, params: InflationParameters, issuance: Balance, nextEra: EraNumber, firstPeriod: PeriodNumber)
    requires params.IsValid()
    ensures BudgetOk(cycle, Recalculate(params, cycle, issuance, nextEra), Tally(firstPeriod, MaxEmission(params, issuance), 0, 0, 0, 0))
  {
    RecalculatedIsBudgeted(cycle, params, issuance, nextEra);
  }

  lemma ReplacedConfigIs(cycle: Cycle, s: Chain, inputs: BlockInputs)
    requires ActiveOk(cycle, s) && s.clock.nextEraStart == s.now + 2 && s.config.recalculationEra <= s.clock.era + 1
    ensures var params := SetParams(s, inputs.newParams).params;
            Block(cycle, s, inputs)
            == Chain(s.now + 1, s.clock, params, Recalculate(params, cycle, inputs.finalIssuance, s.clock.era + 1), None,
                     Tally(s.clock.periodInfo.number + 1, MaxEmission(params, inputs.finalIssuance), 0, 0, 0, 0),
                     s.finished + [Rewarded(s)])
  {
    QuietBlockIs(cycle, s, inputs);
  }

  lemma EndIsInTime(cycle: Cycle, s: Chain)
    requires ActiveOk(cycle, s) && s.now + 1 < s.clock.nextEraStart
    requires s.now + 2 == StartBlock(cycle, s.tally.firstPeriod + cycle.periodsPerCycle)
    ensures s.clock.nextEraStart == s.now + 2 && s.tally.firstPeriod <= s.clock.periodInfo.number
  {
    var p := s.clock.periodInfo.number;
    StartBlockGrows(cycle, p + 1, s.tally.firstPeriod + cycle.periodsPerCycle);
    EraBlocksGrows(cycle, Entered(cycle, s.clock), cycle.erasPerBuildAndEarn);
  }

  lemma OtherBlockKeepsOk(cycle: Cycle, s: Chain, inputs: BlockInputs)
    requires ChainOk(cycle, s) && s.now + 1 < s.clock.nextEraStart
    requires s.now + 2 != StartBlock(cycle, s.tally.firstPeriod + cycle.periodsPerCycle)
    ensures ChainOk(cycle, Block(cycle, s, inputs))
  {
    NotAskedYet(cycle, s);
    QuietBlockIs(cycle, s, inputs);
    QuietKeepsActive(cycle, s);
    RewardKeepsBudget(cycle, s);
    SetParamsKeepsActive(cycle, s.(now := s.now + 1, tally := Rewarded(s)), inputs.newParams);
  }

  lemma NotAskedYet(cycle: Cycle, s: Chain)
    requires ActiveOk(cycle, s) && s.now + 1 < s.clock.nextEraStart
    requires s.now + 2 != StartBlock(cycle, s.tally.firstPeriod + cycle.periodsPerCycle)
    ensures s.clock.nextEraStart == s.now + 2 ==> s.config.recalculationEra > s.clock.era + 1
    ensures s.now + 2 < StartBlock(cycle, s.tally.firstPeriod + cycle.periodsPerCycle)
    ensures s == s.(pending := None)
  {
    if s.clock.nextEraStart == s.now + 2 {
      AskedAtCycleEnd(cycle, s.now, s.clock, s.tally.firstPeriod);
    }
  }

  lemma DefaultIsValid()
    ensures DEFAULT_PARAMETERS.IsValid()
  {
    var parts := DEFAULT_PARAMETERS.Parts();
    ValidIffPartsAddUp(parts, 0);
    assert parts[1..][1..] == parts[2..] && parts[2..][1..] == parts[3..] && parts[3..][1..] == parts[4..]
        && parts[4..][1..] == parts[5..] && parts[5..][1..] == parts[6..];
    assert Total(parts[6..]) == 0;
    assert Total(parts[5..]) == parts[5];
    assert Total(parts[4..]) == parts[4] + Total(parts[5..]);
    assert Total(parts[3..]) == parts[3] + Total(parts[4..]);
    assert Total(parts[2..]) == parts[2] + Total(parts[3..]);
    assert Total(parts[1..]) == parts[1] + Total(parts[2..]);
  }

  lemma GenesisChainIsOk(cycle: Cycle, params: InflationParameters, issuance: Balance)
    requires params.IsValid()
    ensures ChainOk(cycle, GenesisChain(cycle, params, issuance))
  {
    DefaultIsValid();
    FreshBudget(cycle, DEFAULT_PARAMETERS, issuance, 1, 1);
    ErasOfPeriods(cycle, 0, cycle.periodsPerCycle);
    StartBlockGrows(cycle, 1, 1 + cycle.periodsPerCycle);
    VotingIsPositive(cycle);
  }

  /** In every run, every replaced configuration was in force for exactly one cycle and kept
      within its budget; the active one has kept within it so far. */
  lemma {:induction false} EveryCycleStaysWithinBudget(cycle: Cycle, params: InflationParameters, issuance: Balance, blocks: seq<BlockInputs>)
    requires params.IsValid() && cycle.blocksPerEra >= 2
    ensures ChainOk(cycle, After(cycle, GenesisChain(cycle, params, issuance), blocks))
    decreases |blocks|
  {
    if |blocks| == 0 {
      GenesisChainIsOk(cycle, params, issuance);
    } else {
      EveryCycleStaysWithinBudget(cycle, params, issuance, blocks[..|blocks| - 1]);
      BlockKeepsOk(cycle, After(cycle, GenesisChain(cycle, params, issuance), blocks[..|blocks| - 1]), blocks[|blocks| - 1]);
    }
  }

  // ---------- when the recalculation comes on time ----------

  lemma {:induction false} BlocksAreCounted(cycle: Cycle, s: Chain, blocks: seq<BlockInputs>)
    ensures After(cycle, s, blocks).now == s.now + |blocks|
    decreases |blocks|
  {
    if |blocks| > 0 {
      BlocksAreCounted(cycle, s, blocks[..|blocks| - 1]);
    }
  }

  /** With eras of a single block, nothing asks for a recalculation before the next cycle. */
  ghost predicate NeverAsked(cycle: Cycle, s: Chain) {
    && TimeOk(cycle, s.now, s.clock) && s.pending.None? && s.finished == []
    && s.config.recalculationEra == FinalEra(cycle.erasPerBuildAndEarn, cycle.periodsPerCycle) + 1
  }

  /** Single-block eras never leave a block in which the next one is announced; only a longer
      Voting era does, and that one is too early in the cycle. */
  lemma NothingIsAsked(cycle: Cycle, s: Chain)
    requires cycle.blocksPerEra == 1 && NeverAsked(cycle, s) && s.now + 1 < StartBlock(cycle, cycle.periodsPerCycle + 1)
    requires s.clock.nextEraStart == s.now + 2
    ensures s.config.recalculationEra > s.clock.era + 1
  {
    EarlyPeriod(cycle, s.now, s.clock);
    FinalEraIsMonotone(cycle.erasPerBuildAndEarn, s.clock.periodInfo.number, cycle.periodsPerCycle);
  }

  lemma SingleBlockErasAreMissed(cycle: Cycle, s: Chain, inputs: BlockInputs)
    requires cycle.blocksPerEra == 1 && NeverAsked(cycle, s) && s.now + 1 < StartBlock(cycle, cycle.periodsPerCycle + 1)
    ensures NeverAsked(cycle, Block(cycle, s, inputs))
  {
    if s.clock.nextEraStart == s.now + 2 {
      NothingIsAsked(cycle, s);
    }
    if s.now + 1 == s.clock.nextEraStart {
      NewEraBlock(cycle, s.now, s.clock);
    } else {
      QuietBlock(cycle, s.now, s.clock);
    }
  }

  lemma EarlyPeriod(cycle: Cycle, now: BlockNumber, clock: ProtocolState)
    requires TimeOk(cycle, now, clock) && now + 1 < StartBlock(cycle, cycle.periodsPerCycle + 1)
    ensures clock.periodInfo.number <= cycle.periodsPerCycle
  {
    if clock.periodInfo.number > cycle.periodsPerCycle {
      StartBlockGrows(cycle, cycle.periodsPerCycle + 1, clock.periodInfo.number);
    }
  }

  lemma {:induction false} SingleBlockErasRunLate(cycle: Cycle, params: InflationParameters, issuance: Balance, blocks: seq<BlockInputs>)
    requires cycle.blocksPerEra == 1 && |blocks| < StartBlock(cycle, cycle.periodsPerCycle + 1)
    ensures NeverAsked(cycle, After(cycle, GenesisChain(cycle, params, issuance), blocks))
    decreases |blocks|
  {
    var genesis := GenesisChain(cycle, params, issuance);
    if |blocks| == 0 {
      ErasOfPeriods(cycle, 0, cycle.periodsPerCycle);
      VotingIsPositive(cycle);
    } else {
      var shorter := blocks[..|blocks| - 1];
      SingleBlockErasRunLate(cycle, params, issuance, shorter);
      BlocksAreCounted(cycle, genesis, shorter);
      SingleBlockErasAreMissed(cycle, After(cycle, genesis, shorter), blocks[|blocks| - 1]);
    }
  }

  /** After one cycle of blocks the first configuration has been replaced exactly when eras
      last at least two blocks: the observer is told in the block before a new era, which
      the handler never sees when every block starts one. */
  lemma RecalculatedOnTimeIff(cycle: Cycle, params: InflationParameters, issuance: Balance, blocks: seq<BlockInputs>)
    requires params.IsValid() && |blocks| == cycle.BlocksPerCycle()
    ensures |After(cycle, GenesisChain(cycle, params, issuance), blocks).finished| == 1 <==> cycle.blocksPerEra >= 2
  {
    var s := After(cycle, GenesisChain(cycle, params, issuance), blocks);
    CycleBlocks(cycle, 1);
    if cycle.blocksPerEra >= 2 {
      EveryCycleStaysWithinBudget(cycle, params, issuance, blocks);
      BlocksAreCounted(cycle, GenesisChain(cycle, params, issuance), blocks);
      OneCycleOver(cycle, s);
    } else {
      SingleBlockErasRunLate(cycle, params, issuance, blocks);
    }
  }

  lemma OneCycleOver(cycle: Cycle, s: Chain)
    requires ChainOk(cycle, s) && s.now + 1 == StartBlock(cycle, 1 + cycle.periodsPerCycle)
    ensures |s.finished| == 1
  {
    var f, P := s.tally.firstPeriod, cycle.periodsPerCycle;
    if |s.finished| >= 2 {
      MulIsMonotone(2, |s.finished|, P);
      StartBlockGrows(cycle, 1 + P, f);
    }
  }
}

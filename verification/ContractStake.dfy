/** `SingularStakingInfo`, one staker's stake on one contract, and `ContractStakeAmount`,
    the total staked on a contract. The latter only learns of an unstake through the
    `(era, amount)` pairs the former returns. */
module ContractStake {
  import opened Arithmetic
  import opened StakeTypes

  type EraPairs = seq<(EraNumber, Balance)>

  /** Takes out of the previous entry, if it is the current one, what the growth since then
      does not cover, and lists what was taken out of which era. */
  function TakeFromPrevious(previous: StakeAmount, total: Balance, unstaked: Balance, era: EraNumber, newEra: EraNumber)
    : (StakeAmount, EraPairs)
  {
    if previous.era == era then
      if total >= previous.total && unstaked > total - previous.total then
        var overflow: Balance := unstaked - (total - previous.total);
        (previous.Subtract(overflow), [(previous.era, overflow), (newEra, unstaked)])
      else (previous, [(newEra, unstaked)])
    else if newEra == era then
      var nextEra: EraNumber := newEra + 1;
      (previous, [(newEra, unstaked), (nextEra, unstaked)])
    else (previous, [(newEra, unstaked)])
  }

  datatype StakingInfo = StakingInfo(previousStaked: StakeAmount, staked: StakeAmount, loyalStaker: bool) {

    static function New(period: PeriodNumber, subperiod: Subperiod): StakingInfo {
      StakingInfo(NO_STAKE, NO_STAKE.(period := period), subperiod == Voting)
    }

    function Stake(amount: Balance, era: EraNumber, subperiod: Subperiod): StakingInfo {
      var previous := if staked.total == 0 then NO_STAKE else staked.(era := era);
      this.(previousStaked := previous, staked := staked.Add(amount, subperiod).(era := era + 1))
    }

    /** The entry for the era before `newEra`, before anything is taken out of it. */
    function PreviousAsOf(newEra: EraNumber): StakeAmount {
      var previousEra := SatSub(newEra, 1);
      if staked.era <= previousEra then staked.(era := previousEra)
      else if !previousStaked.IsEmpty() && previousStaked.era <= previousEra then previousStaked.(era := previousEra)
      else NO_STAKE
    }

    function Unstake(amount: Balance, era: EraNumber, subperiod: Subperiod): (StakingInfo, EraPairs) {
      var newEra := Max(staked.era, era);
      var newStaked := staked.Subtract(amount).(era := newEra);
      var unstaked := SatSub(staked.total, newStaked.total);
      var loyal := loyalStaker && match subperiod
        case Voting => newStaked.voting != 0
        case BuildAndEarn => newStaked.voting == staked.voting;
      var (newPrevious, pairs) := TakeFromPrevious(PreviousAsOf(newEra), staked.total, unstaked, era, newEra);
      if newStaked.IsEmpty() then (StakingInfo(NO_STAKE, NO_STAKE, loyal), pairs)
      else (StakingInfo(if newPrevious.IsEmpty() then NO_STAKE else newPrevious, newStaked, loyal), pairs)
    }
  }

  /** Shape of a stored entry in era `era` of period `period`. */
  predicate InfoOk(era: EraNumber, period: PeriodNumber, info: StakingInfo) {
    && !info.staked.IsEmpty()
    && 1 <= info.staked.period <= period
    && info.staked.era <= era + 1
    && (info.loyalStaker ==> info.staked.voting > 0)
    && (info.staked.era == era + 1 ==>
          && info.staked.period == period
          && info.previousStaked.total <= info.staked.total
          && (info.previousStaked == NO_STAKE || (!info.previousStaked.IsEmpty() && info.previousStaked.era == era)))
  }

  /** What the entry accounts for in the current era. */
  function CurrentPart(info: StakingInfo, era: EraNumber): Balance {
    if info.staked.era == era + 1 then info.previousStaked.total else info.staked.total
  }

  /** How much of an unstake of `amount` comes out of the current era. */
  function ReductionNow(info: StakingInfo, amount: Balance, era: EraNumber): Balance {
    if info.staked.era == era + 1 then SatSub(amount, SatSub(info.staked.total, info.previousStaked.total)) else amount
  }

  function PairsFor(era: EraNumber, now: Balance, amount: Balance): EraPairs {
    (if now > 0 then [(era, now)] else []) + [(era + 1, amount)]
  }

  lemma StakeKeepsInfo(info: StakingInfo, amount: Balance, era: EraNumber, period: PeriodInfo)
    requires amount > 0 && info.staked.era <= era + 1 && info.staked.period == period.number >= 1
    requires info.loyalStaker ==> info.staked.voting > 0 || period.subperiod == Voting
    ensures var after := info.Stake(amount, era, period.subperiod);
            && InfoOk(era, period.number, after)
            && after.staked.total == info.staked.total + amount
            && after.staked.era == era + 1 && after.staked.period == period.number
            && CurrentPart(after, era) == info.staked.total
            && after.loyalStaker == info.loyalStaker
            && after.staked.voting == info.staked.voting + if period.subperiod == Voting then amount else 0
  {
  }

  /** The pairs of an unstake always take the full amount out of the next era, and out of
      the current era exactly what the entry loses there. */
  lemma UnstakeKeepsInfo(info: StakingInfo, amount: Balance, era: EraNumber, period: PeriodInfo)
    requires era >= 1 && InfoOk(era, period.number, info) && info.staked.period == period.number
    requires 0 < amount <= info.staked.total
    ensures var (after, pairs) := info.Unstake(amount, era, period.subperiod);
            var now := ReductionNow(info, amount, era);
            && pairs == PairsFor(era, now, amount)
            && now <= CurrentPart(info, era)
            && now <= amount
            && after.staked.total + amount == info.staked.total
            && after.staked.voting == SatSub(info.staked.voting, SatSub(amount, info.staked.buildAndEarn))
            && (after.staked.IsEmpty() ==> CurrentPart(info, era) == now)
            && (!after.staked.IsEmpty() ==>
                  && InfoOk(era, period.number, after)
                  && after.staked.period == period.number
                  && CurrentPart(after, era) + now == CurrentPart(info, era)
                  && (after.staked.era == era + 1 <==> info.staked.era == era + 1))
            && (after.loyalStaker ==> info.loyalStaker)
            && (after.loyalStaker && period.subperiod == BuildAndEarn ==> after.staked.voting == info.staked.voting)
  {
    var (after, pairs) := info.Unstake(amount, era, period.subperiod);
    assert info.staked.Subtract(amount).total == info.staked.total - amount;
    if info.staked.era == era + 1 {
      if info.previousStaked == NO_STAKE {
        assert info.PreviousAsOf(era + 1) == NO_STAKE;
        assert pairs == [(era + 1, amount)];
      } else {
        assert info.PreviousAsOf(era + 1) == info.previousStaked;
        var delta := info.staked.total - info.previousStaked.total;
        if amount > delta {
          assert info.previousStaked.Subtract(amount - delta).total == info.previousStaked.total - (amount - delta);
          assert pairs == [(era, amount - delta), (era + 1, amount)];
        } else {
          assert pairs == [(era + 1, amount)];
        }
      }
    } else {
      assert info.PreviousAsOf(era).era != era;
      assert pairs == [(era, amount), (era + 1, amount)];
    }
  }

  datatype ContractStakeAmount = ContractStakeAmount(staked: StakeAmount, stakedFuture: Option<StakeAmount>) {

    /** The stake valid in `era` of `period`, if any. */
    function Get(era: EraNumber, period: PeriodNumber): Option<StakeAmount> {
      if stakedFuture.Some? && stakedFuture.value.era <= era then
        if stakedFuture.value.period == period then Some(stakedFuture.value.(era := era)) else None
      else if staked.era <= era && staked.period == period then Some(staked.(era := era))
      else None
    }

    /** Total staked in `period`, as of the next era. */
    function TotalStaked(period: PeriodNumber): Balance {
      if stakedFuture.Some? && stakedFuture.value.period == period then stakedFuture.value.total
      else if staked.period == period then staked.total
      else 0
    }

    function Stake(amount: Balance, period: PeriodInfo, era: EraNumber): ContractStakeAmount {
      if stakedFuture.Some? && stakedFuture.value.era == era + 1 then
        this.(stakedFuture := Some(stakedFuture.value.Add(amount, period.subperiod)))
      else
        var current := if stakedFuture.Some? && stakedFuture.value.period == period.number
                       then stakedFuture.value.(era := era) else staked;
        var base := if current.period == period.number then current else NO_STAKE;
        var future := base.Add(amount, period.subperiod).(era := era + 1, period := period.number);
        ContractStakeAmount(if current.period < period.number then NO_STAKE else current, Some(future))
    }

    /** Moves the entries of the current period up to the current era. */
    function Align(period: PeriodInfo, era: EraNumber): ContractStakeAmount {
      if stakedFuture.Some? && stakedFuture.value.era <= era && stakedFuture.value.period == period.number then
        ContractStakeAmount(stakedFuture.value.(era := era), None)
      else if staked.era < era && staked.period == period.number then
        this.(staked := staked.(era := era))
      else this
    }

    function ApplyPair(era: EraNumber, amount: Balance): ContractStakeAmount {
      if staked.era == era then this.(staked := staked.Subtract(amount))
      else if stakedFuture.Some? && stakedFuture.value.era == era then
        this.(stakedFuture := Some(stakedFuture.value.Subtract(amount)))
      else this
    }

    function ApplyPairs(pairs: EraPairs): ContractStakeAmount
      decreases |pairs|
    {
      if |pairs| == 0 then this else ApplyPair(pairs[0].0, pairs[0].1).ApplyPairs(pairs[1..])
    }

    function Cleanup(): ContractStakeAmount {
      ContractStakeAmount(
        if staked.IsEmpty() then NO_STAKE else staked,
        if stakedFuture.Some? && stakedFuture.value.IsEmpty() then None else stakedFuture)
    }

    function Unstake(pairs: EraPairs, period: PeriodInfo, era: EraNumber): ContractStakeAmount {
      Align(period, era).ApplyPairs(pairs).Cleanup()
    }
  }

  const NO_CONTRACT_STAKE := ContractStakeAmount(NO_STAKE, None)

  predicate ContractOk(era: EraNumber, period: PeriodNumber, c: ContractStakeAmount) {
    && (c.staked.IsEmpty() ==> c.staked == NO_STAKE)
    && c.staked.era <= era && c.staked.period <= period
    && (c.stakedFuture.Some? ==>
          && !c.stakedFuture.value.IsEmpty()
          && c.staked.period <= c.stakedFuture.value.period <= period
          && c.stakedFuture.value.era <= era + 1
          && (c.stakedFuture.value.era == era + 1 ==> c.stakedFuture.value.period == period))
  }

  /** There is a separate entry for the next era. */
  predicate Ahead(era: EraNumber, c: ContractStakeAmount) {
    c.stakedFuture.Some? && c.stakedFuture.value.era == era + 1
  }

  function CurrentShare(period: PeriodNumber, c: ContractStakeAmount): Balance {
    if c.staked.period == period then c.staked.total else 0
  }

  lemma StakeKeepsContract(c: ContractStakeAmount, amount: Balance, era: EraNumber, period: PeriodInfo)
    requires amount > 0 && period.number >= 1 && ContractOk(era, period.number, c)
    ensures var after := c.Stake(amount, period, era);
            && ContractOk(era, period.number, after) && Ahead(era, after)
            && after.TotalStaked(period.number) == c.TotalStaked(period.number) + amount
            && CurrentShare(period.number, after)
               == if Ahead(era, c) then CurrentShare(period.number, c) else c.TotalStaked(period.number)
  {
  }

  lemma AlignKeepsContract(c: ContractStakeAmount, era: EraNumber, period: PeriodInfo)
    requires era >= 1 && period.number >= 1 && ContractOk(era, period.number, c)
    ensures var after := c.Align(period, era);
            && ContractOk(era, period.number, after)
            && (Ahead(era, after) <==> Ahead(era, c))
            && after.TotalStaked(period.number) == c.TotalStaked(period.number)
            && (Ahead(era, c) ==> after.stakedFuture == c.stakedFuture
                                  && CurrentShare(period.number, after) == CurrentShare(period.number, c))
            && (!Ahead(era, c) ==> CurrentShare(period.number, after) == c.TotalStaked(period.number))
            && (after.staked.period == period.number ==> after.staked.era == era)
            && (!Ahead(era, after) && after.stakedFuture.Some? ==> after.stakedFuture.value.period < period.number)
  {
  }

  /** Reducing a contract by the pairs of an unstake reduces its total by the amount, as
      long as what is current never exceeds a share `part` that shrinks along. */
  lemma UnstakeKeepsContract(c: ContractStakeAmount, now: Balance, amount: Balance, era: EraNumber, period: PeriodInfo, part: Balance)
    requires era >= 1 && period.number >= 1 && ContractOk(era, period.number, c)
    requires 0 < amount <= c.TotalStaked(period.number) && now <= amount
    requires if Ahead(era, c)
             then CurrentShare(period.number, c) <= part && now <= part && part - now <= c.TotalStaked(period.number) - amount
             else now == amount
    ensures var after := c.Unstake(PairsFor(era, now, amount), period, era);
            && ContractOk(era, period.number, after)
            && after.TotalStaked(period.number) + amount == c.TotalStaked(period.number)
            && (Ahead(era, after) ==> Ahead(era, c) && CurrentShare(period.number, after) <= part - now)
            && (Ahead(era, c) && !Ahead(era, after) ==> after.TotalStaked(period.number) == 0)
  {
    AlignKeepsContract(c, era, period);
    var aligned := c.Align(period, era);
    var pairs := PairsFor(era, now, amount);
    ApplyPairsFor(aligned, era, now, amount);
    var first := if now > 0 then aligned.ApplyPair(era, now) else aligned;
    var second := first.ApplyPair(era + 1, amount);
    assert first.stakedFuture.Some? ==> first.stakedFuture == aligned.stakedFuture || !Ahead(era, c);
    assert c.Unstake(pairs, period, era) == second.Cleanup();
    if Ahead(era, c) {
      assert second.staked == first.staked;
      assert second.stakedFuture.value.total == c.stakedFuture.value.total - amount;
    } else {
      assert aligned.staked.period == period.number;
      assert second.staked.total == aligned.staked.total - amount;
    }
  }

  /** Reducing a contract by the pairs of an unstake takes them out of what is there, also
      when they exceed it. */
  lemma UnstakeShrinksContract(c: ContractStakeAmount, now: Balance, amount: Balance, era: EraNumber, period: PeriodInfo)
    requires era >= 1 && period.number >= 1 && ContractOk(era, period.number, c) && now <= amount
    ensures var after := c.Unstake(PairsFor(era, now, amount), period, era);
            var current := SatSub(if Ahead(era, c) then CurrentShare(period.number, c) else c.TotalStaked(period.number), now);
            && (Ahead(era, after) ==> Ahead(era, c) && CurrentShare(period.number, after) == current
                                      && after.TotalStaked(period.number) == c.TotalStaked(period.number) - amount)
            && (!Ahead(era, after) ==> after.TotalStaked(period.number) <= current)
  {
    AlignKeepsContract(c, era, period);
    var aligned := c.Align(period, era);
    ApplyPairsFor(aligned, era, now, amount);
    var first := if now > 0 then aligned.ApplyPair(era, now) else aligned;
    var second := first.ApplyPair(era + 1, amount);
    assert c.Unstake(PairsFor(era, now, amount), period, era) == second.Cleanup();
    assert CurrentShare(period.number, first) == SatSub(CurrentShare(period.number, aligned), now);
    assert second.staked == first.staked;
    assert first.stakedFuture == aligned.stakedFuture || !Ahead(era, c);
  }

  /** Any unstake, whatever its amounts, keeps the shape of the entries. */
  lemma UnstakeKeepsContractShape(c: ContractStakeAmount, now: Balance, amount: Balance, era: EraNumber, period: PeriodInfo)
    requires era >= 1 && period.number >= 1 && ContractOk(era, period.number, c)
    ensures ContractOk(era, period.number, c.Unstake(PairsFor(era, now, amount), period, era))
  {
    AlignKeepsContract(c, era, period);
    ApplyPairsFor(c.Align(period, era), era, now, amount);
  }

  lemma ApplyPairsFor(c: ContractStakeAmount, era: EraNumber, now: Balance, amount: Balance)
    ensures c.ApplyPairs(PairsFor(era, now, amount))
            == (if now > 0 then c.ApplyPair(era, now) else c).ApplyPair(era + 1, amount)
  {
    var pairs := PairsFor(era, now, amount);
    if now > 0 {
      var rest := pairs[1..];
      assert rest == [(era + 1, amount)] && rest[1..] == [];
      assert c.ApplyPair(era, now).ApplyPairs(rest) == c.ApplyPair(era, now).ApplyPair(era + 1, amount).ApplyPairs([]);
    } else {
      assert pairs == [(era + 1, amount)] && pairs[1..] == [];
    }
  }

  lemma AdvanceKeepsContract(c: ContractStakeAmount, era: EraNumber, period: PeriodNumber, newPeriod: PeriodNumber)
    requires ContractOk(era, period, c) && newPeriod >= period
    ensures ContractOk(era + 1, newPeriod, c) && !Ahead(era + 1, c)
    ensures newPeriod > period ==> c.TotalStaked(newPeriod) == 0
  {
  }
}

/** The era clock that drives the inflation cycle is the one of dApp staking. */
module CycleClock {
  import opened StakeTypes
  import opened RewardHistory
  import opened TierAssignment
  import opened Protocol
  import InflationCycle

  predicate SameCycle(cfg: Config, cycle: InflationCycle.Cycle) {
    && cycle.erasPerVoting == cfg.erasPerVoting
    && cycle.erasPerBuildAndEarn == cfg.erasPerBuildAndEarn
    && cycle.blocksPerEra == cfg.blocksPerEra
  }

  lemma ClockAfterVoting(cfg: Config, cycle: InflationCycle.Cycle, s: State)
    requires SameCycle(cfg, cycle) && s.protocol.periodInfo.subperiod == Voting
    ensures EndVoting(cfg, s).protocol == InflationCycle.NextClock(cycle, s.now, s.protocol)
  {
  }

  lemma ClockAfterPeriod(cfg: Config, cycle: InflationCycle.Cycle, s: State, bonusPool: Balance)
    requires SameCycle(cfg, cycle) && s.protocol.periodInfo.IsNextPeriod(s.protocol.era + 1)
    ensures EndPeriod(cfg, s, bonusPool).protocol == InflationCycle.NextClock(cycle, s.now, s.protocol)
  {
  }

  lemma ClockAfterEra(cfg: Config, cycle: InflationCycle.Cycle, s: State)
    requires SameCycle(cfg, cycle) && s.protocol.periodInfo.subperiod == BuildAndEarn && !s.protocol.periodInfo.IsNextPeriod(s.protocol.era + 1)
    ensures EndEra(cfg, s).protocol == InflationCycle.NextClock(cycle, s.now, s.protocol)
  {
  }

  lemma ClosedClock(cfg: Config, cycle: InflationCycle.Cycle, s: State, bonusPool: Balance, reward: EraReward,
                    tiers: map<EraNumber, DAppTierRewards>, config: TierConfig)
    requires SameCycle(cfg, cycle)
    ensures CloseEra(cfg, s, bonusPool, reward, tiers, config).protocol == InflationCycle.NextClock(cycle, s.now, s.protocol)
  {
    if s.protocol.periodInfo.subperiod == Voting {
      ClockAfterVoting(cfg, cycle, s);
    } else if s.protocol.periodInfo.IsNextPeriod(s.protocol.era + 1) {
      ClockAfterPeriod(cfg, cycle, s, bonusPool);
    } else {
      ClockAfterEra(cfg, cycle, s);
    }
  }

  /** A new era of dApp staking moves the era clock exactly as the inflation cycle does. */
  lemma ClockIsShared(cfg: Config, cycle: InflationCycle.Cycle, s: State, inputs: EraInputs)
    requires SameCycle(cfg, cycle)
    ensures NewEra(cfg, s, inputs).protocol == InflationCycle.NextClock(cycle, s.now, s.protocol)
  {
    ClosedClock(cfg, cycle, s, inputs.bonusPool, RewardOfEra(s, inputs), AssignTiers(cfg, s, inputs),
                NextTierConfig(cfg, s.tierConfig, inputs.price, inputs.issuance));
  }
}

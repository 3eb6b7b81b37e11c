/** The end of an era, of a Voting subperiod and of a period keep the invariant, and so does
    the pruning of expired history. */
module EraSteps {
  import opened Arithmetic
  import opened StakeTypes
  import opened MapSums
  import opened Pools
  import opened Calendar
  import opened Ledger
  import opened ContractStake
  import opened RewardHistory
  import opened TierAssignment
  import opened Protocol
  import opened Invariant
  import opened Frames

  // ---------- stakes ----------

  lemma AdvanceKeepsLedger(cfg: Config, era: EraNumber, period: PeriodNumber, l: AccountLedger, newPeriod: PeriodNumber)
    requires LedgerOk(cfg, era, period, l) && newPeriod >= period
    ensures LedgerOk(cfg, era + 1, newPeriod, l)
    ensures newPeriod > period ==> l.StakedAmount(newPeriod) == 0
  {
  }

  lemma AdvanceKeepsLedgers(cfg: Config, era: EraNumber, period: PeriodNumber, ledgers: Ledgers, newPeriod: PeriodNumber)
    requires LedgersOk(cfg, era, period, ledgers) && newPeriod >= period
    ensures LedgersOk(cfg, era + 1, newPeriod, ledgers)
  {
    forall a | a in ledgers
      ensures LedgerOk(cfg, era + 1, newPeriod, ledgers[a])
    {
      AdvanceKeepsLedger(cfg, era, period, ledgers[a], newPeriod);
    }
  }

  lemma AdvanceKeepsStakers(era: EraNumber, period: PeriodNumber, stakers: Stakers, newPeriod: PeriodNumber)
    requires StakersOk(era, period, stakers) && newPeriod >= period
    ensures StakersOk(era + 1, newPeriod, stakers)
  {
    forall k | k in stakers
      ensures InfoOk(era + 1, newPeriod, stakers[k])
    {
      assert InfoOk(era, period, stakers[k]);
    }
  }

  /** A new period starts without any stake. */
  lemma NewPeriodHasNoStakes(cfg: Config, era: EraNumber, period: PeriodNumber, ledgers: Ledgers, stakers: Stakers)
    requires LedgersOk(cfg, era, period, ledgers) && StakersOk(era, period, stakers)
    ensures StakesAgree(period + 1, ledgers, stakers, 0)
  {
    NoEntriesYet(era, period, stakers);
    forall a | a in ledgers
      ensures LedgerStake(period + 1)(a, ledgers[a]) == 0
    {
      AdvanceKeepsLedger(cfg, era, period, ledgers[a], period + 1);
    }
    SumOfZeros(ledgers, LedgerStake(period + 1));
    SumOfZeros(stakers, StakeIn(period + 1));
    forall a: AccountId
      ensures LedgerOf(ledgers, a).StakedAmount(period + 1) == Sum(stakers, StakeBy(a, period + 1))
    {
      LedgerOfIsOk(cfg, era, period, ledgers, a);
      AdvanceKeepsLedger(cfg, era, period, LedgerOf(ledgers, a), period + 1);
      SumOfZeros(stakers, StakeBy(a, period + 1));
    }
  }

  lemma NoEntriesYet(era: EraNumber, period: PeriodNumber, stakers: Stakers)
    requires StakersOk(era, period, stakers)
    ensures forall k :: k in stakers ==> stakers[k].staked.period <= period
    ensures forall k :: k in stakers ==> stakers[k].staked.era <= era + 1
  {
    forall k | k in stakers
      ensures stakers[k].staked.period <= period && stakers[k].staked.era <= era + 1
    {
      assert InfoOk(era, period, stakers[k]);
    }
  }

  // ---------- contracts ----------

  lemma AdvanceKeepsEntries(era: EraNumber, period: PeriodNumber, contracts: map<DAppId, ContractStakeAmount>, newPeriod: PeriodNumber)
    requires ContractEntriesOk(era, period, contracts) && newPeriod >= period
    ensures ContractEntriesOk(era + 1, newPeriod, contracts)
  {
    forall id | id in contracts
      ensures ContractOk(era + 1, newPeriod, contracts[id])
    {
      AdvanceKeepsContract(contracts[id], era, period, newPeriod);
    }
  }

  lemma NextEraKeepsContracts(era: EraNumber, period: PeriodNumber, integrated: map<SmartContract, DAppId>,
                              contracts: map<DAppId, ContractStakeAmount>, stakers: Stakers,
                              unregistered: map<SmartContract, PeriodNumber>)
    requires ContractsAgree(era, period, integrated, contracts, stakers, unregistered)
    requires ContractEntriesOk(era, period, contracts) && StakersOk(era, period, stakers)
    ensures ContractsAgree(era + 1, period, integrated, contracts, stakers, unregistered)
  {
    NoEntriesYet(era, period, stakers);
    forall c | c in integrated
      ensures ContractSound(era + 1, period, stakers, c, ContractOf(contracts, integrated[c]), Undisturbed(unregistered, period, c))
    {
      AdvanceKeepsContract(ContractOf(contracts, integrated[c]), era, period, period);
      SumCongruence(stakers, StakeNowOn(c, period, era + 1), StakeOn(c, period));
    }
  }

  lemma NextPeriodKeepsContracts(era: EraNumber, period: PeriodNumber, integrated: map<SmartContract, DAppId>,
                                 contracts: map<DAppId, ContractStakeAmount>, stakers: Stakers,
                                 unregistered: map<SmartContract, PeriodNumber>)
    requires ContractEntriesOk(era, period, contracts) && StakersOk(era, period, stakers)
    ensures ContractsAgree(era + 1, period + 1, integrated, contracts, stakers, unregistered)
  {
    NoEntriesYet(era, period, stakers);
    forall c | c in integrated
      ensures ContractSound(era + 1, period + 1, stakers, c, ContractOf(contracts, integrated[c]), Undisturbed(unregistered, period + 1, c))
    {
      AdvanceKeepsContract(ContractOf(contracts, integrated[c]), era, period, period + 1);
      SumOfZeros(stakers, StakeOn(c, period + 1));
    }
  }

  // ---------- voting stake ----------

  lemma {:induction false} NothingPaidYet(bonuses: seq<BonusReward>, period: PeriodNumber)
    requires forall i :: 0 <= i < |bonuses| ==> bonuses[i].period < period
    ensures LogSum(bonuses, BonusPaid(period)) == 0 && LogSum(bonuses, BonusCount(period)) == 0
  {
    if |bonuses| > 0 {
      NothingPaidYet(bonuses[..|bonuses| - 1], period);
    }
  }

  /** The recorded voting stake of a finished period covers all its entries, so nothing of
      the pool is promised twice. */
  lemma EndPeriodKeepsBonuses(era: EraNumber, info: PeriodInfo, ended: map<PeriodNumber, PeriodEndInfo>, bonuses: seq<BonusReward>,
                              stakers: Stakers, current: StakeAmount, next: StakeAmount, pool: Balance)
    requires BonusesOk(info.number, ended, bonuses, stakers)
    requires VotesCovered(era, info, stakers, current, next) && LastEra(era, info)
    ensures BonusesOk(info.number + 1, ended[info.number := PeriodEndInfo(pool, current.voting, era)], bonuses, stakers)
  {
    var end := PeriodEndInfo(pool, current.voting, era);
    NothingPaidYet(bonuses, info.number);
    FreshPool(end.bonusRewardPool, end.totalVpStake, Sum(stakers, VotingStake(info.number)));
    forall q | q in ended[info.number := end]
      ensures BonusBounded(ended[info.number := end][q], LogSum(bonuses, BonusPaid(q)), LogSum(bonuses, BonusCount(q)), Sum(stakers, VotingStake(q)))
    {
    }
  }

  // ---------- history ----------

  lemma OldestIsPast(cfg: Config, era: EraNumber, period: PeriodNumber)
    requires InPeriod(cfg.erasPerBuildAndEarn, era, period)
    ensures OldestValidEra(cfg, period) == 0 || OldestValidEra(cfg, period) < era
    ensures OldestValidEra(cfg, period) <= OldestValidEra(cfg, period + 1)
  {
    if period > cfg.rewardRetentionInPeriods + 1 {
      var oldest := period - cfg.rewardRetentionInPeriods - 1;
      FinalEraIsMonotone(cfg.erasPerBuildAndEarn, oldest, period - 1);
      FinalEraIsMonotone(cfg.erasPerBuildAndEarn, oldest, oldest + 1);
    }
  }

  lemma ExpiredPeriod(cfg: Config, period: PeriodNumber, ends: map<PeriodNumber, PeriodEndInfo>,
                      ended: map<PeriodNumber, PeriodEndInfo>, end: PeriodEndInfo)
    requires period >= 1 && PeriodEndsOk(cfg, period, ends, ended) && period > cfg.rewardRetentionInPeriods
    ensures var expired := period - cfg.rewardRetentionInPeriods;
            expired in ends[period := end] && ends[period := end][expired].finalEra == FinalEra(cfg.erasPerBuildAndEarn, expired)
  {
    var expired := period - cfg.rewardRetentionInPeriods;
    assert expired in ended && expired in ends;
  }

  lemma EndPeriodKeepsMarker(cfg: Config, era: EraNumber, period: PeriodNumber, ends: map<PeriodNumber, PeriodEndInfo>,
                             marker: CleanupMarker, ended: map<PeriodNumber, PeriodEndInfo>, end: PeriodEndInfo)
    requires InPeriod(cfg.erasPerBuildAndEarn, era, period)
    requires MarkerOk(cfg, period, marker) && PeriodEndsOk(cfg, period, ends, ended)
    ensures var marker' := ExpirePeriod(cfg, ends[period := end], marker, period + 1).1;
            && MarkerOk(cfg, period + 1, marker')
            && marker' == marker.(oldestValidEra := marker'.oldestValidEra)
  {
    OldestIsPast(cfg, era, period);
    if period > cfg.rewardRetentionInPeriods {
      ExpiredPeriod(cfg, period, ends, ended, end);
    } else {
      assert marker == marker.(oldestValidEra := marker.oldestValidEra);
    }
  }

  lemma EndPeriodKeepsEnds(cfg: Config, period: PeriodNumber, ends: map<PeriodNumber, PeriodEndInfo>,
                           marker: CleanupMarker, ended: map<PeriodNumber, PeriodEndInfo>, end: PeriodEndInfo)
    requires period >= 1 && end.finalEra == FinalEra(cfg.erasPerBuildAndEarn, period)
    requires PeriodEndsOk(cfg, period, ends, ended)
    ensures PeriodEndsOk(cfg, period + 1, ExpirePeriod(cfg, ends[period := end], marker, period + 1).0, ended[period := end])
  {
    if period > cfg.rewardRetentionInPeriods {
      ExpiredPeriod(cfg, period, ends, ended, end);
    }
  }

  lemma VotingKeepsTiers(cfg: Config, era: EraNumber, period: PeriodNumber, tiers: map<EraNumber, DAppTierRewards>, index: EraNumber)
    requires DAppTiersOk(cfg, era, tiers, index)
    requires InPeriod(cfg.erasPerBuildAndEarn, era, period) && era == FinalEra(cfg.erasPerBuildAndEarn, period - 1) + 1
    ensures DAppTiersOk(cfg, era + 1, tiers, index)
  {
    forall x: EraNumber, q: PeriodNumber | InPeriod(cfg.erasPerBuildAndEarn, x, q) && index <= x < era + 1
      ensures x in tiers <==> x > FinalEra(cfg.erasPerBuildAndEarn, q - 1) + 1
    {
      if x == era {
        PeriodOfEraIsUnique(cfg.erasPerBuildAndEarn, era, period, q);
      }
    }
  }

  lemma AssignmentKeepsTiers(cfg: Config, era: EraNumber, period: PeriodNumber, tiers: map<EraNumber, DAppTierRewards>, index: EraNumber, rewards: DAppTierRewards)
    requires DAppTiersOk(cfg, era, tiers, index) && index <= era && rewards.period == period
    requires InPeriod(cfg.erasPerBuildAndEarn, era, period) && era > FinalEra(cfg.erasPerBuildAndEarn, period - 1) + 1
    ensures DAppTiersOk(cfg, era + 1, tiers[era := rewards], index)
  {
    var tiers' := tiers[era := rewards];
    forall x: EraNumber, q: PeriodNumber | InPeriod(cfg.erasPerBuildAndEarn, x, q) && index <= x < era + 1
      ensures x in tiers' <==> x > FinalEra(cfg.erasPerBuildAndEarn, q - 1) + 1
    {
      if x == era {
        PeriodOfEraIsUnique(cfg.erasPerBuildAndEarn, era, period, q);
      }
    }
    forall x: EraNumber, q: PeriodNumber | InPeriod(cfg.erasPerBuildAndEarn, x, q) && x in tiers'
      ensures tiers'[x].period == q
    {
      if x == era {
        PeriodOfEraIsUnique(cfg.erasPerBuildAndEarn, era, period, q);
      }
    }
  }

  // ---------- payouts ----------

  lemma {:induction false} NothingPaidForEra(paid: seq<DAppReward>, era: EraNumber, tier: nat)
    requires forall i :: 0 <= i < |paid| ==> paid[i].era < era
    ensures LogSum(paid, DAppPaid(era, tier)) == 0
  {
    if |paid| > 0 {
      NothingPaidForEra(paid[..|paid| - 1], era, tier);
    }
  }

  /** The liability of a new assignment fits the share of every tier. */
  ghost predicate FitsShares(cfg: Config, rewards: DAppTierRewards, pool: Balance) {
    forall t: nat :: OwnNumber(|cfg.tierParams.rewardPortion|, t) ==>
      Liability(rewards, t) <= MulNearest(PERMILL, cfg.tierParams.rewardPortion[t], pool)
  }

  lemma AssignmentFitsShares(cfg: Config, c: TierConfig, ranking: Ranking, period: PeriodNumber, pool: Balance)
    requires c.rewardPortion == cfg.tierParams.rewardPortion && Distinct(ranking)
    ensures FitsShares(cfg, TierRewards(c, cfg.rankingEnabled, ranking, period, pool), pool)
  {
    forall t: nat | OwnNumber(|cfg.tierParams.rewardPortion|, t)
      ensures Liability(TierRewards(c, cfg.rankingEnabled, ranking, period, pool), t)
              <= MulNearest(PERMILL, cfg.tierParams.rewardPortion[t], pool)
    {
      LiabilityWithinShare(c, cfg.rankingEnabled, ranking, period, pool, t);
    }
  }

  lemma AssignmentKeepsShares(cfg: Config, history: History, tiers: map<EraNumber, DAppTierRewards>, paid: seq<DAppReward>,
                              era: EraNumber, reward: EraReward, rewards: DAppTierRewards)
    requires TierSharesOk(cfg, history, tiers, paid) && DAppPaidOnce(era, tiers, paid)
    requires FitsShares(cfg, rewards, reward.dappRewardPool)
    ensures TierSharesOk(cfg, history[era := reward], tiers[era := rewards], paid)
    ensures DAppPaidOnce(era + 1, tiers[era := rewards], paid)
  {
    forall x: EraNumber, t: nat | x in history[era := reward] && OwnNumber(|cfg.tierParams.rewardPortion|, t)
      ensures LogSum(paid, DAppPaid(x, t)) + LiabilityOfEra(tiers[era := rewards], x, t)
              <= MulNearest(PERMILL, cfg.tierParams.rewardPortion[t], history[era := reward][x].dappRewardPool)
    {
      if x == era {
        NothingPaidForEra(paid, era, t);
      }
    }
  }

  lemma VotingKeepsShares(cfg: Config, history: History, tiers: map<EraNumber, DAppTierRewards>, paid: seq<DAppReward>, era: EraNumber, reward: EraReward)
    requires TierSharesOk(cfg, history, tiers, paid) && DAppPaidOnce(era, tiers, paid) && era !in tiers
    ensures TierSharesOk(cfg, history[era := reward], tiers, paid)
    ensures DAppPaidOnce(era + 1, tiers, paid)
  {
    forall x: EraNumber, t: nat | x in history[era := reward] && OwnNumber(|cfg.tierParams.rewardPortion|, t)
      ensures LogSum(paid, DAppPaid(x, t)) + LiabilityOfEra(tiers, x, t)
              <= MulNearest(PERMILL, cfg.tierParams.rewardPortion[t], history[era := reward][x].dappRewardPool)
    {
      if x == era {
        NothingPaidForEra(paid, era, t);
      }
    }
  }

  // ---------- the three transitions ----------

  /** The period information of the next era. */
  function NextInfo(cfg: Config, era: EraNumber, info: PeriodInfo): PeriodInfo {
    if info.subperiod == Voting then PeriodInfo(info.number, BuildAndEarn, era + 1 + cfg.erasPerBuildAndEarn)
    else if LastEra(era, info) then PeriodInfo(info.number + 1, Voting, era + 2)
    else info
  }

  function NextTotals(era: EraNumber, info: PeriodInfo, totals: EraInfo): EraInfo {
    totals.MigrateToNextEra(if info.subperiod == Voting then Some(BuildAndEarn) else if LastEra(era, info) then Some(Voting) else None)
  }

  /** What the end of an era does to the parts of the state that have to do with stakes. */
  predicate EndsEra(cfg: Config, s: State, t: State) {
    && t.now == s.now && t.protocol.era == s.protocol.era + 1
    && t.protocol.periodInfo == NextInfo(cfg, s.protocol.era, s.protocol.periodInfo)
    && t.eraInfo == NextTotals(s.protocol.era, s.protocol.periodInfo, s.eraInfo)
    && t.ledgers == s.ledgers && t.freezes == s.freezes && t.stakers == s.stakers
    && t.integrated == s.integrated && t.nextDAppId == s.nextDAppId && t.contracts == s.contracts
    && t.trace.unregistered == s.trace.unregistered && t.trace.bonuses == s.trace.bonuses
  }

  /** What it records about the period, if that ends. */
  predicate RecordsEnd(cfg: Config, era: EraNumber, info: PeriodInfo, end: PeriodEndInfo,
                       ends: map<PeriodNumber, PeriodEndInfo>, marker: CleanupMarker, ended: map<PeriodNumber, PeriodEndInfo>,
                       ends': map<PeriodNumber, PeriodEndInfo>, marker': CleanupMarker, ended': map<PeriodNumber, PeriodEndInfo>)
  {
    if LastEra(era, info) then
      && ended' == ended[info.number := end]
      && (ends', marker') == ExpirePeriod(cfg, ends[info.number := end], marker, info.number + 1)
    else ended' == ended && ends' == ends && marker' == marker
  }

  /** The votes it records when the Voting subperiod ends. */
  predicate RecordsVotes(info: PeriodInfo, stakers: Stakers, votes: map<PeriodNumber, map<StakerKey, Balance>>,
                         votes': map<PeriodNumber, map<StakerKey, Balance>>)
  {
    votes' == if info.subperiod == Voting then votes[info.number := VotesOf(stakers, info.number)] else votes
  }

  function EndOf(s: State, bonusPool: Balance): PeriodEndInfo {
    PeriodEndInfo(bonusPool, s.eraInfo.currentStakeAmount.voting, s.protocol.era)
  }

  predicate RecordsPeriod(cfg: Config, s: State, t: State, bonusPool: Balance) {
    && RecordsEnd(cfg, s.protocol.era, s.protocol.periodInfo, EndOf(s, bonusPool), s.periodEnds, s.marker, s.trace.ended,
                  t.periodEnds, t.marker, t.trace.ended)
    && RecordsVotes(s.protocol.periodInfo, s.stakers, s.trace.votes, t.trace.votes)
  }

  predicate RecordsReward(cfg: Config, s: State, t: State, reward: EraReward) {
    && t.spans == Record(cfg.eraRewardSpanLength, s.spans, s.protocol.era, reward)
    && t.trace.rewards == s.trace.rewards[s.protocol.era := reward]
  }

  predicate KeepsPayouts(s: State, t: State) {
    && t.trace.dappRewards == s.trace.dappRewards
    && t.trace.stakerRewards == s.trace.stakerRewards && t.trace.unlocks == s.trace.unlocks
  }

  predicate Closes(cfg: Config, s: State, t: State, bonusPool: Balance, reward: EraReward) {
    EndsEra(cfg, s, t) && RecordsPeriod(cfg, s, t, bonusPool) && RecordsReward(cfg, s, t, reward) && KeepsPayouts(s, t)
  }

  lemma CloseVoting(cfg: Config, s: State, bonusPool: Balance, reward: EraReward, tiers: map<EraNumber, DAppTierRewards>, config: TierConfig)
    requires s.protocol.periodInfo.subperiod == Voting
    ensures Closes(cfg, s, CloseEra(cfg, s, bonusPool, reward, tiers, config), bonusPool, reward)
  {
  }

  lemma ClosePeriod(cfg: Config, s: State, bonusPool: Balance, reward: EraReward, tiers: map<EraNumber, DAppTierRewards>, config: TierConfig)
    requires LastEra(s.protocol.era, s.protocol.periodInfo)
    ensures Closes(cfg, s, CloseEra(cfg, s, bonusPool, reward, tiers, config), bonusPool, reward)
  {
  }

  lemma CloseInnerEra(cfg: Config, s: State, bonusPool: Balance, reward: EraReward, tiers: map<EraNumber, DAppTierRewards>, config: TierConfig)
    requires s.protocol.periodInfo.subperiod == BuildAndEarn && !LastEra(s.protocol.era, s.protocol.periodInfo)
    ensures Closes(cfg, s, CloseEra(cfg, s, bonusPool, reward, tiers, config), bonusPool, reward)
  {
  }

  lemma CloseEraCloses(cfg: Config, s: State, bonusPool: Balance, reward: EraReward, tiers: map<EraNumber, DAppTierRewards>, config: TierConfig)
    ensures Closes(cfg, s, CloseEra(cfg, s, bonusPool, reward, tiers, config), bonusPool, reward)
  {
    if s.protocol.periodInfo.subperiod == Voting {
      CloseVoting(cfg, s, bonusPool, reward, tiers, config);
    } else if LastEra(s.protocol.era, s.protocol.periodInfo) {
      ClosePeriod(cfg, s, bonusPool, reward, tiers, config);
    } else {
      CloseInnerEra(cfg, s, bonusPool, reward, tiers, config);
    }
  }

  /** What every block leaves as it is. */
  predicate Passes(s: State, t: State) {
    && t.now == s.now + 1 && s.protocol.era <= t.protocol.era && s.protocol.periodInfo.number <= t.protocol.periodInfo.number
    && t.ledgers == s.ledgers && t.freezes == s.freezes && t.stakers == s.stakers
    && t.integrated == s.integrated && t.nextDAppId == s.nextDAppId && t.contracts == s.contracts
    && t.trace.unregistered == s.trace.unregistered && t.trace.bonuses == s.trace.bonuses && t.trace.dappRewards == s.trace.dappRewards
    && t.trace.stakerRewards == s.trace.stakerRewards && t.trace.unlocks == s.trace.unlocks
  }

  lemma NewEraPasses(cfg: Config, s: State, inputs: EraInputs, t: State)
    requires t == NewEra(cfg, s.(now := s.now + 1), inputs)
    ensures Passes(s, t)
  {
    var started := s.(now := s.now + 1);
    CloseEraCloses(cfg, started, inputs.bonusPool, RewardOfEra(started, inputs), AssignTiers(cfg, started, inputs),
                   NextTierConfig(cfg, started.tierConfig, inputs.price, inputs.issuance));
    assert EndsEra(cfg, started, t) && KeepsPayouts(started, t);
  }

  lemma BlockPasses(cfg: Config, s: State, inputs: EraInputs, t: State)
    requires t == OnInitialize(cfg, s, inputs)
    ensures Passes(s, t)
  {
    if !s.protocol.maintenance && s.protocol.IsNewEra(s.now + 1) {
      NewEraPasses(cfg, s, inputs, t);
    }
  }

  lemma ClockAdvances(cfg: Config, era: EraNumber, info: PeriodInfo)
    requires ClockOk(cfg.erasPerBuildAndEarn, era, info)
    ensures ClockOk(cfg.erasPerBuildAndEarn, era + 1, NextInfo(cfg, era, info))
  {
  }

  lemma EndKeepsStakes(cfg: Config, era: EraNumber, info: PeriodInfo, ledgers: Ledgers, stakers: Stakers, totals: EraInfo)
    requires LedgersOk(cfg, era, info.number, ledgers) && StakersOk(era, info.number, stakers)
    requires StakesAgree(info.number, ledgers, stakers, totals.nextStakeAmount.total)
    ensures StakesAgree(NextInfo(cfg, era, info).number, ledgers, stakers, NextTotals(era, info, totals).nextStakeAmount.total)
  {
    if LastEra(era, info) {
      NewPeriodHasNoStakes(cfg, era, info.number, ledgers, stakers);
    }
  }

  lemma EndKeepsStakeInv(cfg: Config, s: State, t: State)
    requires Inv(cfg, s) && EndsEra(cfg, s, t)
    ensures StakeInv(cfg, t)
  {
    assert Holds(Stakes, cfg, s);
    var era, info := s.protocol.era, s.protocol.periodInfo;
    ClockAdvances(cfg, era, info);
    AdvanceKeepsLedgers(cfg, era, info.number, s.ledgers, t.protocol.periodInfo.number);
    AdvanceKeepsStakers(era, info.number, s.stakers, t.protocol.periodInfo.number);
    EndKeepsStakes(cfg, era, info, s.ledgers, s.stakers, s.eraInfo);
  }

  /** Contracts agree with the entries under the next era and period. */
  lemma EndKeepsContracts(era: EraNumber, period: PeriodNumber, next: PeriodNumber, integrated: map<SmartContract, DAppId>,
                          contracts: map<DAppId, ContractStakeAmount>, stakers: Stakers, unregistered: map<SmartContract, PeriodNumber>)
    requires next == period || next == period + 1
    requires StakersOk(era, period, stakers) && ContractEntriesOk(era, period, contracts)
    requires ContractsAgree(era, period, integrated, contracts, stakers, unregistered)
    ensures ContractEntriesOk(era + 1, next, contracts)
    ensures ContractsAgree(era + 1, next, integrated, contracts, stakers, unregistered)
  {
    AdvanceKeepsEntries(era, period, contracts, next);
    if next > period {
      NextPeriodKeepsContracts(era, period, integrated, contracts, stakers, unregistered);
    } else {
      NextEraKeepsContracts(era, period, integrated, contracts, stakers, unregistered);
    }
  }

  lemma EndKeepsContractInv(cfg: Config, s: State, t: State)
    requires Inv(cfg, s) && EndsEra(cfg, s, t)
    ensures ContractInv(t)
  {
    assert StakersOk(s.protocol.era, s.protocol.periodInfo.number, s.stakers) by { InvStakes(cfg, s); }
    InvContracts(cfg, s);
    MovedContracts(s, t);
  }

  lemma MovedContracts(s: State, t: State)
    requires ContractInv(s) && StakersOk(s.protocol.era, s.protocol.periodInfo.number, s.stakers)
    requires t.protocol.era == s.protocol.era + 1 && t.stakers == s.stakers
    requires t.protocol.periodInfo.number == s.protocol.periodInfo.number || t.protocol.periodInfo.number == s.protocol.periodInfo.number + 1
    requires t.integrated == s.integrated && t.nextDAppId == s.nextDAppId && t.contracts == s.contracts
    requires t.trace.unregistered == s.trace.unregistered
    ensures ContractInv(t)
  {
    EndKeepsContracts(s.protocol.era, s.protocol.periodInfo.number, t.protocol.periodInfo.number, s.integrated, s.contracts, s.stakers,
                      s.trace.unregistered);
  }

  lemma EndKeepsVotesCovered(cfg: Config, era: EraNumber, info: PeriodInfo, stakers: Stakers, totals: EraInfo)
    requires VotesCovered(era, info, stakers, totals.currentStakeAmount, totals.nextStakeAmount)
    requires StakersOk(era, info.number, stakers)
    ensures var totals' := NextTotals(era, info, totals);
            VotesCovered(era + 1, NextInfo(cfg, era, info), stakers, totals'.currentStakeAmount, totals'.nextStakeAmount)
  {
    if LastEra(era, info) {
      NoEntriesYet(era, info.number, stakers);
      SumOfZeros(stakers, VotingStake(info.number + 1));
    }
  }

  lemma EndKeepsLoyalty(cfg: Config, era: EraNumber, info: PeriodInfo, stakers: Stakers,
                        votes: map<PeriodNumber, map<StakerKey, Balance>>, votes': map<PeriodNumber, map<StakerKey, Balance>>)
    requires LoyaltyOk(info, stakers, votes) && RecordsVotes(info, stakers, votes, votes')
    requires StakersOk(era, info.number, stakers)
    ensures LoyaltyOk(NextInfo(cfg, era, info), stakers, votes')
  {
    NoEntriesYet(era, info.number, stakers);
  }

  lemma EndKeepsVoteInv(cfg: Config, s: State, t: State, bonusPool: Balance)
    requires Inv(cfg, s) && EndsEra(cfg, s, t) && RecordsPeriod(cfg, s, t, bonusPool)
    ensures VoteInv(t)
  {
    InvStakes(cfg, s);
    assert Holds(Votes, cfg, s);
    var era, info := s.protocol.era, s.protocol.periodInfo;
    EndKeepsVotesCovered(cfg, era, info, s.stakers, s.eraInfo);
    EndKeepsLoyalty(cfg, era, info, s.stakers, s.trace.votes, t.trace.votes);
    if LastEra(era, info) {
      EndPeriodKeepsBonuses(era, info, s.trace.ended, s.trace.bonuses, s.stakers, s.eraInfo.currentStakeAmount,
                            s.eraInfo.nextStakeAmount, bonusPool);
    }
  }

  lemma RecordKeepsMarker(cfg: Config, era: EraNumber, info: PeriodInfo, end: PeriodEndInfo,
                          ends: map<PeriodNumber, PeriodEndInfo>, marker: CleanupMarker, ended: map<PeriodNumber, PeriodEndInfo>,
                          ends': map<PeriodNumber, PeriodEndInfo>, marker': CleanupMarker, ended': map<PeriodNumber, PeriodEndInfo>)
    requires ClockOk(cfg.erasPerBuildAndEarn, era, info)
    requires MarkerOk(cfg, info.number, marker) && PeriodEndsOk(cfg, info.number, ends, ended)
    requires RecordsEnd(cfg, era, info, end, ends, marker, ended, ends', marker', ended')
    ensures MarkerOk(cfg, NextInfo(cfg, era, info).number, marker')
    ensures marker' == marker.(oldestValidEra := marker'.oldestValidEra)
  {
    if LastEra(era, info) {
      EndPeriodKeepsMarker(cfg, era, info.number, ends, marker, ended, end);
    } else {
      assert marker == marker.(oldestValidEra := marker.oldestValidEra);
    }
  }

  lemma RecordKeepsEnds(cfg: Config, era: EraNumber, info: PeriodInfo, end: PeriodEndInfo,
                        ends: map<PeriodNumber, PeriodEndInfo>, marker: CleanupMarker, ended: map<PeriodNumber, PeriodEndInfo>,
                        ends': map<PeriodNumber, PeriodEndInfo>, marker': CleanupMarker, ended': map<PeriodNumber, PeriodEndInfo>)
    requires ClockOk(cfg.erasPerBuildAndEarn, era, info) && end.finalEra == era
    requires PeriodEndsOk(cfg, info.number, ends, ended)
    requires RecordsEnd(cfg, era, info, end, ends, marker, ended, ends', marker', ended')
    ensures PeriodEndsOk(cfg, NextInfo(cfg, era, info).number, ends', ended')
  {
    if LastEra(era, info) {
      EndPeriodKeepsEnds(cfg, info.number, ends, marker, ended, end);
    }
  }

  lemma EndKeepsEnds(cfg: Config, s: State, t: State, bonusPool: Balance)
    requires Inv(cfg, s) && EndsEra(cfg, s, t) && RecordsPeriod(cfg, s, t, bonusPool)
    ensures MarkerOk(cfg, t.protocol.periodInfo.number, t.marker)
    ensures PeriodEndsOk(cfg, t.protocol.periodInfo.number, t.periodEnds, t.trace.ended)
    ensures t.marker == s.marker.(oldestValidEra := t.marker.oldestValidEra)
  {
    InvClock(cfg, s);
    InvEnds(cfg, s);
    RecordKeepsMarker(cfg, s.protocol.era, s.protocol.periodInfo, EndOf(s, bonusPool), s.periodEnds, s.marker, s.trace.ended,
                      t.periodEnds, t.marker, t.trace.ended);
    RecordKeepsEnds(cfg, s.protocol.era, s.protocol.periodInfo, EndOf(s, bonusPool), s.periodEnds, s.marker, s.trace.ended,
                    t.periodEnds, t.marker, t.trace.ended);
  }

  lemma EndKeepsSpans(cfg: Config, s: State, reward: EraReward)
    requires Inv(cfg, s)
    ensures SpansOk(cfg.eraRewardSpanLength, s.protocol.era + 1, Record(cfg.eraRewardSpanLength, s.spans, s.protocol.era, reward),
                    s.marker.eraRewardIndex, s.trace.rewards[s.protocol.era := reward])
  {
    assert s.protocol.era >= 1 by { InvClock(cfg, s); }
    InvSpans(cfg, s);
    RecordRefines(cfg.eraRewardSpanLength, s.protocol.era, s.spans, s.marker.eraRewardIndex, s.trace.rewards, reward);
  }

  lemma EndKeepsHistoryInv(cfg: Config, s: State, t: State, bonusPool: Balance, reward: EraReward)
    requires Inv(cfg, s) && EndsEra(cfg, s, t) && RecordsPeriod(cfg, s, t, bonusPool) && RecordsReward(cfg, s, t, reward)
    requires DAppTiersOk(cfg, s.protocol.era + 1, t.dappTiers, s.marker.dappTiersIndex)
    ensures HistoryInv(cfg, t)
  {
    EndKeepsEnds(cfg, s, t, bonusPool);
    EndKeepsSpans(cfg, s, reward);
  }

  lemma IndexIsPast(cfg: Config, s: State)
    requires Inv(cfg, s)
    ensures s.marker.dappTiersIndex <= s.protocol.era
  {
    InvClock(cfg, s);
    InvEnds(cfg, s);
    OldestIsPast(cfg, s.protocol.era, s.protocol.periodInfo.number);
  }

  /** The tier assignments after the era are those of its finished eras. */
  lemma AssignmentKeepsTiersOk(cfg: Config, s: State, inputs: EraInputs)
    requires Inv(cfg, s)
    ensures DAppTiersOk(cfg, s.protocol.era + 1, AssignTiers(cfg, s, inputs), s.marker.dappTiersIndex)
  {
    if s.protocol.periodInfo.subperiod == Voting {
      VotingKeepsTiersOk(cfg, s);
    } else {
      StoreKeepsTiersOk(cfg, s, TierRewards(s.tierConfig, cfg.rankingEnabled, inputs.ranking, s.protocol.periodInfo.number, inputs.dappPool));
    }
  }

  lemma VotingKeepsTiersOk(cfg: Config, s: State)
    requires Inv(cfg, s) && s.protocol.periodInfo.subperiod == Voting
    ensures DAppTiersOk(cfg, s.protocol.era + 1, s.dappTiers, s.marker.dappTiersIndex)
  {
    InvClock(cfg, s);
    InvTiers(cfg, s);
    VotingKeepsTiers(cfg, s.protocol.era, s.protocol.periodInfo.number, s.dappTiers, s.marker.dappTiersIndex);
  }

  lemma StoreKeepsTiersOk(cfg: Config, s: State, rewards: DAppTierRewards)
    requires Inv(cfg, s) && s.protocol.periodInfo.subperiod == BuildAndEarn && rewards.period == s.protocol.periodInfo.number
    ensures DAppTiersOk(cfg, s.protocol.era + 1, s.dappTiers[s.protocol.era := rewards], s.marker.dappTiersIndex)
  {
    InvClock(cfg, s);
    InvTiers(cfg, s);
    IndexIsPast(cfg, s);
    AssignmentKeepsTiers(cfg, s.protocol.era, s.protocol.periodInfo.number, s.dappTiers, s.marker.dappTiersIndex, rewards);
  }

  lemma AssignmentKeepsPayouts(cfg: Config, s: State, inputs: EraInputs)
    requires Inv(cfg, s) && (s.protocol.periodInfo.subperiod == BuildAndEarn ==> Distinct(inputs.ranking))
    ensures var tiers := AssignTiers(cfg, s, inputs);
            && TierSharesOk(cfg, s.trace.rewards[s.protocol.era := RewardOfEra(s, inputs)], tiers, s.trace.dappRewards)
            && DAppPaidOnce(s.protocol.era + 1, tiers, s.trace.dappRewards)
  {
    assert Holds(Payouts, cfg, s);
    var era, period := s.protocol.era, s.protocol.periodInfo.number;
    if s.protocol.periodInfo.subperiod == Voting {
      assert era !in s.dappTiers by { InvTiers(cfg, s); }
      VotingKeepsShares(cfg, s.trace.rewards, s.dappTiers, s.trace.dappRewards, era, RewardOfEra(s, inputs));
    } else {
      AssignmentFitsShares(cfg, s.tierConfig, inputs.ranking, period, inputs.dappPool);
      AssignmentKeepsShares(cfg, s.trace.rewards, s.dappTiers, s.trace.dappRewards, era, RewardOfEra(s, inputs),
                            AssignTiers(cfg, s, inputs)[era]);
    }
  }

  lemma NewConfigKeepsPortions(cfg: Config, current: TierConfig, price: nat, issuance: Balance)
    requires current.rewardPortion == cfg.tierParams.rewardPortion
    ensures NextTierConfig(cfg, current, price, issuance).rewardPortion == cfg.tierParams.rewardPortion
  {
  }

  lemma EndKeepsPayoutInv(cfg: Config, s: State, t: State)
    requires Inv(cfg, s) && EndsEra(cfg, s, t) && KeepsPayouts(s, t)
    requires t.tierConfig.rewardPortion == cfg.tierParams.rewardPortion
    requires TierSharesOk(cfg, t.trace.rewards, t.dappTiers, t.trace.dappRewards)
    requires DAppPaidOnce(s.protocol.era + 1, t.dappTiers, t.trace.dappRewards)
    ensures PayoutInv(cfg, t)
  {
    assert StakerPaidOnce(s.protocol.era, s.ledgers, s.trace.stakerRewards) && UnlocksOk(cfg, s.ledgers, s.trace.unlocks)
      by { assert Holds(Payouts, cfg, s); }
  }

  lemma EndKeepsInv(cfg: Config, s: State, t: State, bonusPool: Balance, reward: EraReward)
    requires Inv(cfg, s) && Closes(cfg, s, t, bonusPool, reward)
    requires t.tierConfig.rewardPortion == cfg.tierParams.rewardPortion
    requires DAppTiersOk(cfg, s.protocol.era + 1, t.dappTiers, s.marker.dappTiersIndex)
    requires TierSharesOk(cfg, t.trace.rewards, t.dappTiers, t.trace.dappRewards)
    requires DAppPaidOnce(s.protocol.era + 1, t.dappTiers, t.trace.dappRewards)
    ensures Inv(cfg, t)
  {
    EndKeepsStakeInv(cfg, s, t);
    EndKeepsContractInv(cfg, s, t);
    EndKeepsVoteInv(cfg, s, t, bonusPool);
    EndKeepsHistoryInv(cfg, s, t, bonusPool, reward);
    EndKeepsPayoutInv(cfg, s, t);
    InvFromParts(cfg, t);
  }

  lemma ClosedIs(cfg: Config, s: State, bonusPool: Balance, reward: EraReward, tiers: map<EraNumber, DAppTierRewards>, config: TierConfig)
    ensures var t := CloseEra(cfg, s, bonusPool, reward, tiers, config);
            t.dappTiers == tiers && t.tierConfig == config
  {
  }

  lemma CloseKeepsInv(cfg: Config, s: State, bonusPool: Balance, reward: EraReward, tiers: map<EraNumber, DAppTierRewards>, config: TierConfig)
    requires Inv(cfg, s) && config.rewardPortion == cfg.tierParams.rewardPortion
    requires DAppTiersOk(cfg, s.protocol.era + 1, tiers, s.marker.dappTiersIndex)
    requires TierSharesOk(cfg, s.trace.rewards[s.protocol.era := reward], tiers, s.trace.dappRewards)
    requires DAppPaidOnce(s.protocol.era + 1, tiers, s.trace.dappRewards)
    ensures Inv(cfg, CloseEra(cfg, s, bonusPool, reward, tiers, config))
  {
    CloseEraCloses(cfg, s, bonusPool, reward, tiers, config);
    ClosedIs(cfg, s, bonusPool, reward, tiers, config);
    EndKeepsInv(cfg, s, CloseEra(cfg, s, bonusPool, reward, tiers, config), bonusPool, reward);
  }

  lemma NewEraKeepsInv(cfg: Config, s: State, inputs: EraInputs)
    requires Inv(cfg, s) && (s.protocol.periodInfo.subperiod == BuildAndEarn ==> Distinct(inputs.ranking))
    ensures Inv(cfg, NewEra(cfg, s, inputs))
  {
    assert s.tierConfig.rewardPortion == cfg.tierParams.rewardPortion by { assert Holds(Payouts, cfg, s); }
    NewConfigKeepsPortions(cfg, s.tierConfig, inputs.price, inputs.issuance);
    AssignmentKeepsTiersOk(cfg, s, inputs);
    AssignmentKeepsPayouts(cfg, s, inputs);
    CloseKeepsInv(cfg, s, inputs.bonusPool, RewardOfEra(s, inputs), AssignTiers(cfg, s, inputs),
                  NextTierConfig(cfg, s.tierConfig, inputs.price, inputs.issuance));
  }

  lemma BlockKeepsInv(cfg: Config, s: State)
    requires Inv(cfg, s)
    ensures Inv(cfg, s.(now := s.now + 1))
  {
    InvParts(cfg, s);
    InvFromParts(cfg, s.(now := s.now + 1));
  }

  lemma OnInitializeKeepsInv(cfg: Config, s: State, inputs: EraInputs)
    requires Inv(cfg, s) && (EndsBuildAndEarnEra(s) ==> Distinct(inputs.ranking))
    ensures Inv(cfg, OnInitialize(cfg, s, inputs))
  {
    var started := s.(now := s.now + 1);
    BlockKeepsInv(cfg, s);
    if !s.protocol.maintenance && s.protocol.IsNewEra(started.now) {
      NewEraKeepsInv(cfg, started, inputs);
    }
  }

  // ---------- pruning ----------

  lemma PruneKeepsTiers(cfg: Config, era: EraNumber, tiers: map<EraNumber, DAppTierRewards>, index: EraNumber, oldest: EraNumber)
    requires DAppTiersOk(cfg, era, tiers, index) && index <= oldest
    ensures var (tiers', index') := PruneTiers(tiers, index, oldest);
            DAppTiersOk(cfg, era, tiers', index') && index' <= oldest
  {
  }

  lemma PruneKeepsPayouts(cfg: Config, history: History, era: EraNumber, tiers: map<EraNumber, DAppTierRewards>, paid: seq<DAppReward>,
                          index: EraNumber, oldest: EraNumber)
    requires TierSharesOk(cfg, history, tiers, paid) && DAppPaidOnce(era, tiers, paid)
    ensures var tiers' := PruneTiers(tiers, index, oldest).0;
            TierSharesOk(cfg, history, tiers', paid) && DAppPaidOnce(era, tiers', paid)
  {
    var tiers' := PruneTiers(tiers, index, oldest).0;
    forall x: EraNumber, t: nat | x in history && OwnNumber(|cfg.tierParams.rewardPortion|, t)
      ensures LogSum(paid, DAppPaid(x, t)) + LiabilityOfEra(tiers', x, t)
              <= MulNearest(PERMILL, cfg.tierParams.rewardPortion[t], history[x].dappRewardPool)
    {
      assert LogSum(paid, DAppPaid(x, t)) + LiabilityOfEra(tiers, x, t)
             <= MulNearest(PERMILL, cfg.tierParams.rewardPortion[t], history[x].dappRewardPool);
    }
  }

  lemma PruneKeepsSpans(cfg: Config, s: State)
    requires Inv(cfg, s)
    ensures var (spans, index) := PruneSpans(cfg.eraRewardSpanLength, s.spans, s.marker.eraRewardIndex, s.marker.oldestValidEra);
            && SpansOk(cfg.eraRewardSpanLength, s.protocol.era, spans, index, s.trace.rewards)
            && index <= s.marker.oldestValidEra
  {
    InvClock(cfg, s);
    InvEnds(cfg, s);
    InvSpans(cfg, s);
    OldestIsPast(cfg, s.protocol.era, s.protocol.periodInfo.number);
    PruneRefines(cfg.eraRewardSpanLength, s.protocol.era, s.spans, s.marker.eraRewardIndex, s.trace.rewards, s.marker.oldestValidEra);
  }

  lemma PruneKeepsHistoryInv(cfg: Config, s: State)
    requires Inv(cfg, s) && s.marker.HasPendingCleanups()
    ensures HistoryInv(cfg, OnIdle(cfg, s, true))
  {
    PruneKeepsSpans(cfg, s);
    InvEnds(cfg, s);
    InvTiers(cfg, s);
    PruneKeepsTiers(cfg, s.protocol.era, s.dappTiers, s.marker.dappTiersIndex, s.marker.oldestValidEra);
  }

  lemma PruneKeepsPayoutInv(cfg: Config, s: State)
    requires Inv(cfg, s) && s.marker.HasPendingCleanups()
    ensures PayoutInv(cfg, OnIdle(cfg, s, true))
  {
    assert Holds(Payouts, cfg, s);
    PruneKeepsPayouts(cfg, s.trace.rewards, s.protocol.era, s.dappTiers, s.trace.dappRewards, s.marker.dappTiersIndex,
                      s.marker.oldestValidEra);
  }

  lemma OnIdleKeepsInv(cfg: Config, s: State, enoughWeight: bool)
    requires Inv(cfg, s)
    ensures Inv(cfg, OnIdle(cfg, s, enoughWeight))
  {
    if enoughWeight && s.marker.HasPendingCleanups() {
      PruneKeepsHistoryInv(cfg, s);
      PruneKeepsPayoutInv(cfg, s);
      assert Holds(Stakes, cfg, s) && Holds(Contracts, cfg, s) && Holds(Votes, cfg, s);
      InvFromParts(cfg, OnIdle(cfg, s, enoughWeight));
    }
  }
}

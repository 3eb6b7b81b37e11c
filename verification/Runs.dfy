/** The invariant holds in every state of every run from genesis, and what follows from it. */
module Runs {
  import opened Arithmetic
  import opened StakeTypes
  import opened MapSums
  import opened Pools
  import opened Calendar
  import opened Ledger
  import opened ContractStake
  import opened RewardHistory
  import opened TierAssignment
  import opened Protocol
  import opened Invariant
  import opened Frames
  import opened LockSteps
  import opened ContractSteps
  import opened StakeSteps
  import opened RewardSteps
  import opened EraSteps

  lemma GenesisIsOk(cfg: Config, c: TierConfig)
    requires c.rewardPortion == cfg.tierParams.rewardPortion
    ensures Inv(cfg, Genesis(cfg, c))
  {
    InvFromParts(cfg, Genesis(cfg, c));
  }

  /** Every call and every hook keeps the invariant, whether it succeeds or not. */
  lemma NextKeepsInv(cfg: Config, s: State, call: Call)
    requires Inv(cfg, s) && Enabled(s, call)
    ensures Inv(cfg, Next(cfg, s, call))
  {
    if Dispatch(cfg, s, call).Done? {
      match call
      case CallMaintenance(enabled) => MaintenanceKeepsInv(cfg, s, enabled);
      case CallRegister(c) => RegisterKeepsInv(cfg, s, c);
      case CallUnregister(c) => UnregisterKeepsInv(cfg, s, c);
      case CallLock(a, amount, balance, allowed) => LockKeepsInv(cfg, s, a, amount, balance, allowed);
      case CallUnlock(a, amount) => UnlockKeepsInv(cfg, s, a, amount);
      case CallClaimUnlocked(a, cleared) => ClaimUnlockedKeepsInv(cfg, s, a, cleared);
      case CallRelock(a) => RelockKeepsInv(cfg, s, a);
      case CallStake(a, c, amount) => StakeKeepsInv(cfg, s, a, c, amount);
      case CallUnstake(a, c, amount) => UnstakeKeepsInv(cfg, s, a, c, amount);
      case CallUnstakeFromUnregistered(a, c) => UnstakeFromUnregisteredKeepsInv(cfg, s, a, c);
      case CallCleanupExpired(a) => CleanupKeepsInv(cfg, s, a);
      case CallClaimStaker(a, payoutOk) => ClaimStakerKeepsInv(cfg, s, a, payoutOk);
      case CallClaimBonus(a, c, payoutOk) => ClaimBonusKeepsInv(cfg, s, a, c, payoutOk);
      case CallClaimDApp(c, era, payoutOk) => ClaimDAppKeepsInv(cfg, s, c, era, payoutOk);
      case CallOnInitialize(inputs) => OnInitializeKeepsInv(cfg, s, inputs);
      case CallOnIdle(enough) => OnIdleKeepsInv(cfg, s, enough);
    }
  }

  lemma {:induction false} RunKeepsInv(cfg: Config, c: TierConfig, calls: seq<Call>)
    requires c.rewardPortion == cfg.tierParams.rewardPortion && ValidRun(cfg, Genesis(cfg, c), calls)
    ensures Inv(cfg, Execute(cfg, Genesis(cfg, c), calls))
    decreases |calls|
  {
    if |calls| == 0 {
      GenesisIsOk(cfg, c);
    } else {
      var before := Execute(cfg, Genesis(cfg, c), calls[..|calls| - 1]);
      RunKeepsInv(cfg, c, calls[..|calls| - 1]);
      NextKeepsInv(cfg, before, calls[|calls| - 1]);
    }
  }

  /** Some run from a genesis with the configured reward portions ends in `s`. */
  ghost predicate Reachable(cfg: Config, s: State) {
    exists c: TierConfig, calls: seq<Call> ::
      && c.rewardPortion == cfg.tierParams.rewardPortion
      && ValidRun(cfg, Genesis(cfg, c), calls) && s == Execute(cfg, Genesis(cfg, c), calls)
  }

  lemma ReachableIsOk(cfg: Config, s: State)
    requires Reachable(cfg, s)
    ensures Inv(cfg, s)
  {
    var c: TierConfig, calls: seq<Call> :|
      && c.rewardPortion == cfg.tierParams.rewardPortion
      && ValidRun(cfg, Genesis(cfg, c), calls) && s == Execute(cfg, Genesis(cfg, c), calls);
    RunKeepsInv(cfg, c, calls);
  }

  /** Reachable states are closed under every enabled call, so they stay reachable along any
      sequence of method calls on the pallet. */
  lemma NextIsReachable(cfg: Config, s: State, call: Call)
    requires Reachable(cfg, s) && Enabled(s, call)
    ensures Reachable(cfg, Next(cfg, s, call))
  {
    var c: TierConfig, calls: seq<Call> :|
      && c.rewardPortion == cfg.tierParams.rewardPortion
      && ValidRun(cfg, Genesis(cfg, c), calls) && s == Execute(cfg, Genesis(cfg, c), calls);
    var longer := calls + [call];
    assert longer[..|longer| - 1] == calls && longer[|longer| - 1] == call;
    assert ValidRun(cfg, Genesis(cfg, c), longer) && Next(cfg, s, call) == Execute(cfg, Genesis(cfg, c), longer);
  }

  lemma {:induction false} RunIsReachable(cfg: Config, s: State, calls: seq<Call>)
    requires Reachable(cfg, s) && ValidRun(cfg, s, calls)
    ensures Reachable(cfg, Execute(cfg, s, calls))
    decreases |calls|
  {
    if |calls| > 0 {
      RunIsReachable(cfg, s, calls[..|calls| - 1]);
      NextIsReachable(cfg, Execute(cfg, s, calls[..|calls| - 1]), calls[|calls| - 1]);
    }
  }

  // ---------- redundant stake records agree ----------

  /** Every account has staked in its ledger exactly what its entries of the current period
      add up to, and over all accounts both add up to the protocol total of the next era. */
  lemma StakeRecordsAgree(cfg: Config, s: State, account: AccountId)
    requires Reachable(cfg, s)
    ensures var period := s.protocol.periodInfo.number;
            && LedgerOf(s.ledgers, account).StakedAmount(period) == Sum(s.stakers, StakeBy(account, period))
            && Sum(s.ledgers, LedgerStake(period)) == Sum(s.stakers, StakeIn(period)) == s.eraInfo.nextStakeAmount.total
  {
    ReachableIsOk(cfg, s);
    InvStakes(cfg, s);
  }

  /** The total of a registered contract never exceeds the sum of the entries on it, and is
      equal to it unless the contract was unregistered earlier in the same period. */
  lemma ContractTotalsAgree(cfg: Config, s: State, contract: SmartContract)
    requires Reachable(cfg, s) && contract in s.integrated
    ensures var period := s.protocol.periodInfo.number;
            var total := ContractOf(s.contracts, s.integrated[contract]).TotalStaked(period);
            && total <= Sum(s.stakers, StakeOn(contract, period))
            && (Undisturbed(s.trace.unregistered, period, contract) ==> total == Sum(s.stakers, StakeOn(contract, period)))
  {
    ReachableIsOk(cfg, s);
    InvContracts(cfg, s);
    assert ContractSound(s.protocol.era, s.protocol.periodInfo.number, s.stakers, contract, ContractOf(s.contracts, s.integrated[contract]),
                         Undisturbed(s.trace.unregistered, s.protocol.periodInfo.number, contract));
  }

  /** Locked and unlocking funds add up to the protocol totals, every account has exactly its
      funds frozen, its stake is covered by what it has locked, and its chunks are in order. */
  lemma FundsAddUp(cfg: Config, s: State, account: AccountId)
    requires Reachable(cfg, s)
    ensures Sum(s.ledgers, LockedAmount()) == s.eraInfo.totalLocked
    ensures Sum(s.ledgers, UnlockingAmount()) == s.eraInfo.unlocking
    ensures var l := LedgerOf(s.ledgers, account);
            && FreezeOf(s.freezes, account) == l.locked + ChunkTotal(l.unlocking)
            && l.StakedAmount(s.protocol.periodInfo.number) <= l.locked
            && (l.locked == 0 || l.locked >= cfg.minimumLockedAmount)
            && |l.unlocking| <= cfg.maxUnlockingChunks && ChunksAfter(l.unlocking, -1)
            && l.contractStakeCount <= cfg.maxNumberOfStakedContracts
            && forall i, j :: 0 <= i < j < |l.unlocking| ==> l.unlocking[i].unlockBlock < l.unlocking[j].unlockBlock
  {
    ReachableIsOk(cfg, s);
    InvLedgers(cfg, s);
    LedgerOfIsOk(cfg, s.protocol.era, s.protocol.periodInfo.number, s.ledgers, account);
    ChunksAfterIsSorted(LedgerOf(s.ledgers, account).unlocking, -1);
  }

  // ---------- payouts ----------

  /** By any block an account has claimed back at most what it had started to unlock the full
      unlocking period before. */
  lemma ClaimedFundsWereUnlocking(cfg: Config, s: State, account: AccountId, block: BlockNumber)
    requires Reachable(cfg, s)
    ensures LogSum(s.trace.unlocks, ClaimedBy(account, block))
            <= LogSum(s.trace.unlocks, StartedBy(account, cfg.blocksPerEra * cfg.unlockingPeriod, block))
  {
    ReachableIsOk(cfg, s);
    InvLedgers(cfg, s);
    assert LogSum(s.trace.unlocks, ClaimedBy(account, block)) + MaturedTotal(LedgerOf(s.ledgers, account).unlocking, block)
           <= LogSum(s.trace.unlocks, StartedBy(account, cfg.UnlockingBlocks(), block));
  }

  /** The voting stake recorded for a finished period covers all its remaining entries, and
      the bonuses paid for it exceed its pool by at most half a unit per claim. */
  lemma BonusesStayWithinPool(cfg: Config, s: State, period: PeriodNumber)
    requires Reachable(cfg, s) && 1 <= period < s.protocol.periodInfo.number
    ensures period in s.trace.ended
    ensures Sum(s.stakers, VotingStake(period)) <= s.trace.ended[period].totalVpStake
    ensures 2 * LogSum(s.trace.bonuses, BonusPaid(period))
            <= 2 * s.trace.ended[period].bonusRewardPool + LogSum(s.trace.bonuses, BonusCount(period))
  {
    ReachableIsOk(cfg, s);
    InvEnds(cfg, s);
    assert Holds(Votes, cfg, s);
    var end := s.trace.ended[period];
    var paid, count := LogSum(s.trace.bonuses, BonusPaid(period)), LogSum(s.trace.bonuses, BonusCount(period));
    PaidWithinPool(end.bonusRewardPool, end.totalVpStake, paid, count, Sum(s.stakers, VotingStake(period)));
  }

  /** No account is paid the staker reward of an era twice, and no dApp the dApp reward. */
  lemma RewardsArePaidOnce(cfg: Config, s: State)
    requires Reachable(cfg, s)
    ensures var paid := s.trace.stakerRewards;
            forall i, j :: 0 <= i < j < |paid| ==> paid[i].era != paid[j].era || paid[i].account != paid[j].account
    ensures var paid := s.trace.dappRewards;
            forall i, j :: 0 <= i < j < |paid| ==> paid[i].era != paid[j].era || paid[i].id != paid[j].id
  {
    ReachableIsOk(cfg, s);
    assert Holds(Payouts, cfg, s);
  }

  /** What the dApps of a tier were paid for an era stays within its share of the dApp pool,
      for every tier that has its stored number for itself. */
  lemma TierPayoutsStayWithinShare(cfg: Config, s: State, era: EraNumber, tier: nat)
    requires Reachable(cfg, s) && era in s.trace.rewards && OwnNumber(|cfg.tierParams.rewardPortion|, tier)
    ensures LogSum(s.trace.dappRewards, DAppPaid(era, tier))
            <= MulNearest(PERMILL, cfg.tierParams.rewardPortion[tier], s.trace.rewards[era].dappRewardPool)
  {
    ReachableIsOk(cfg, s);
    assert Holds(Payouts, cfg, s);
    assert LogSum(s.trace.dappRewards, DAppPaid(era, tier)) + LiabilityOfEra(s.dappTiers, era, tier)
           <= MulNearest(PERMILL, cfg.tierParams.rewardPortion[tier], s.trace.rewards[era].dappRewardPool);
  }

  /** An entry that is still loyal once its Voting subperiod is over had its stake by the end
      of that subperiod, and none of it has been taken out since. */
  lemma LoyaltyMeansUnreducedVotes(cfg: Config, s: State, key: StakerKey)
    requires Reachable(cfg, s) && key in s.stakers && s.stakers[key].loyalStaker
    requires s.stakers[key].staked.period < s.protocol.periodInfo.number || s.protocol.periodInfo.subperiod == BuildAndEarn
    ensures var period := s.stakers[key].staked.period;
            && period in s.trace.votes && key in s.trace.votes[period]
            && s.stakers[key].staked.voting == s.trace.votes[period][key] > 0
  {
    ReachableIsOk(cfg, s);
    InvStakes(cfg, s);
    assert InfoOk(s.protocol.era, s.protocol.periodInfo.number, s.stakers[key]);
    assert Holds(Votes, cfg, s);
  }

  // ---------- history ----------

  /** An era of a period that can still be claimed is never pruned. */
  lemma ClaimableEraIsKept(cfg: Config, s: State, era: EraNumber, period: PeriodNumber)
    requires Inv(cfg, s) && InPeriod(cfg.erasPerBuildAndEarn, era, period)
    requires cfg.OldestClaimablePeriod(s.protocol.periodInfo.number) <= period
    ensures s.marker.eraRewardIndex <= era && s.marker.dappTiersIndex <= era
  {
    InvEnds(cfg, s);
    var now := s.protocol.periodInfo.number;
    if now > cfg.rewardRetentionInPeriods + 1 {
      FinalEraIsMonotone(cfg.erasPerBuildAndEarn, now - cfg.rewardRetentionInPeriods - 1, period - 1);
    }
  }

  /** For every finished era of a claimable period, the chunked storage holds the reward that
      was recorded for it, and the tier assignment exists exactly for Build&Earn eras. */
  lemma ClaimableHistoryIsStored(cfg: Config, s: State, era: EraNumber, period: PeriodNumber)
    requires Reachable(cfg, s) && InPeriod(cfg.erasPerBuildAndEarn, era, period) && era < s.protocol.era
    requires cfg.OldestClaimablePeriod(s.protocol.periodInfo.number) <= period
    ensures era in s.trace.rewards && Lookup(cfg.eraRewardSpanLength, s.spans, era) == Some(s.trace.rewards[era])
    ensures era in s.dappTiers <==> era > FinalEra(cfg.erasPerBuildAndEarn, period - 1) + 1
  {
    ReachableIsOk(cfg, s);
    ClaimableEraIsKept(cfg, s, era, period);
    assert Holds(Pruning, cfg, s);
    LookupRefines(cfg.eraRewardSpanLength, s.protocol.era, s.spans, s.marker.eraRewardIndex, s.trace.rewards, era);
  }

  /** The ends of exactly the finished periods within the retention window are stored. */
  lemma PeriodEndsAreRetained(cfg: Config, s: State, period: PeriodNumber)
    requires Reachable(cfg, s)
    ensures var now := s.protocol.periodInfo.number;
            && (period in s.periodEnds <==> 1 <= period < now && cfg.OldestClaimablePeriod(now) <= period)
            && (period in s.periodEnds ==> period in s.trace.ended && s.periodEnds[period] == s.trace.ended[period]
                                           && s.periodEnds[period].finalEra == FinalEra(cfg.erasPerBuildAndEarn, period))
  {
    ReachableIsOk(cfg, s);
    InvEnds(cfg, s);
  }

  /** Recording the reward of a finished era never fails. */
  lemma RewardSpanHasRoom(cfg: Config, s: State, reward: EraReward)
    requires Reachable(cfg, s)
    ensures var span := SpanFor(s.spans, SpanIndex(cfg.eraRewardSpanLength, s.protocol.era));
            span.Push(s.protocol.era, reward, cfg.eraRewardSpanLength).1
  {
    ReachableIsOk(cfg, s);
    InvClock(cfg, s);
    assert Holds(Pruning, cfg, s);
    RecordRefines(cfg.eraRewardSpanLength, s.protocol.era, s.spans, s.marker.eraRewardIndex, s.trace.rewards, reward);
  }

  // ---------- when calls succeed ----------

  /** A staker claim succeeds exactly when the account has unclaimed finished eras of a period
      that can still be claimed, and the payout goes through. */
  lemma ClaimStakerSucceedsIff(cfg: Config, s: State, account: AccountId, payoutOk: bool)
    requires Reachable(cfg, s)
    ensures var l := LedgerOf(s.ledgers, account);
            ClaimStakerRewards(cfg, s, account, payoutOk).Done? <==>
              && !s.protocol.maintenance && payoutOk && l.StakedPeriod().Some?
              && l.StakedPeriod().value >= cfg.OldestClaimablePeriod(s.protocol.periodInfo.number)
              && l.EarliestStakedEra().value < s.protocol.era
  {
    ReachableIsOk(cfg, s);
    var l := LedgerOf(s.ledgers, account);
    if !s.protocol.maintenance && l.StakedPeriod().Some?
       && l.StakedPeriod().value >= cfg.OldestClaimablePeriod(s.protocol.periodInfo.number)
    {
      var index := SpanIndex(cfg.eraRewardSpanLength, l.EarliestStakedEra().value);
      LimitReachesEarliest(cfg, s, account);
      if index in s.spans {
        var limit := ClaimLimit(s, l.StakedPeriod().value).value;
        CoveredClaim(cfg, s, account, s.spans[index], Min(s.spans[index].lastEra, limit.0), limit.1);
        ClaimReaches(cfg, s, account, Min(s.spans[index].lastEra, limit.0), limit.1);
      }
    }
  }

  /** The span and the limit of a claim reach the earliest unclaimed era exactly when that
      era is finished. */
  lemma LimitReachesEarliest(cfg: Config, s: State, account: AccountId)
    requires Inv(cfg, s)
    requires var l := LedgerOf(s.ledgers, account);
             l.StakedPeriod().Some? && l.StakedPeriod().value >= cfg.OldestClaimablePeriod(s.protocol.periodInfo.number)
    ensures var l := LedgerOf(s.ledgers, account);
            var first := l.EarliestStakedEra().value;
            var index := SpanIndex(cfg.eraRewardSpanLength, first);
            var limit := ClaimLimit(s, l.StakedPeriod().value);
            && (first < s.protocol.era ==> index in s.spans)
            && (index in s.spans ==>
                  && limit.Some? && ClaimCovers(cfg, s, l, s.spans[index], Min(s.spans[index].lastEra, limit.value.0), limit.value.1)
                  && (first <= Min(s.spans[index].lastEra, limit.value.0) <==> first < s.protocol.era))
  {
    var l := LedgerOf(s.ledgers, account);
    var first, staked := l.EarliestStakedEra().value, l.StakedPeriod().value;
    StakedPeriodIs(cfg, s, account);
    if first < s.protocol.era {
      EarliestSpanIs(cfg, s, first, staked);
    }
    if SpanIndex(cfg.eraRewardSpanLength, first) in s.spans {
      ClaimIsCovered(cfg, s, account);
      if staked < s.protocol.periodInfo.number {
        StoredEndIs(cfg, s, staked);
      }
    }
  }

  /** A claim up to an era is refused only when that era lies before the earliest one. */
  lemma ClaimReaches(cfg: Config, s: State, account: AccountId, claimEra: EraNumber, periodEnd: Option<EraNumber>)
    requires Inv(cfg, s) && LedgerOf(s.ledgers, account).EarliestStakedEra().Some?
    ensures LedgerOf(s.ledgers, account).ClaimUpToEra(claimEra, periodEnd).Err?
            <==> claimEra < LedgerOf(s.ledgers, account).EarliestStakedEra().value
  {
    InvLedgers(cfg, s);
    LedgerOfIsOk(cfg, s.protocol.era, s.protocol.periodInfo.number, s.ledgers, account);
    ClaimYieldsStakeInForce(LedgerOf(s.ledgers, account), claimEra, periodEnd, s.protocol.era);
  }

  lemma EarliestSpanIs(cfg: Config, s: State, era: EraNumber, period: PeriodNumber)
    requires Inv(cfg, s) && InPeriod(cfg.erasPerBuildAndEarn, era, period) && era < s.protocol.era
    requires cfg.OldestClaimablePeriod(s.protocol.periodInfo.number) <= period
    ensures var index := SpanIndex(cfg.eraRewardSpanLength, era);
            index in s.spans && era <= s.spans[index].lastEra
  {
    ClaimableEraIsKept(cfg, s, era, period);
    assert Holds(Pruning, cfg, s);
    var index := SpanIndex(cfg.eraRewardSpanLength, era);
    LookupRefines(cfg.eraRewardSpanLength, s.protocol.era, s.spans, s.marker.eraRewardIndex, s.trace.rewards, era);
    SpanIndexBounds(cfg.eraRewardSpanLength, era);
    assert SpanOk(cfg.eraRewardSpanLength, s.protocol.era, index, s.spans[index], s.trace.rewards);
  }

  /** A bonus claim succeeds exactly for a loyal entry of a finished, not yet expired period. */
  lemma ClaimBonusSucceedsIff(cfg: Config, s: State, account: AccountId, contract: SmartContract, payoutOk: bool)
    requires Reachable(cfg, s)
    ensures var key := StakerKey(account, contract);
            ClaimBonusReward(cfg, s, account, contract, payoutOk).Done? <==>
              && !s.protocol.maintenance && payoutOk && key in s.stakers && s.stakers[key].loyalStaker
              && cfg.OldestClaimablePeriod(s.protocol.periodInfo.number) <= s.stakers[key].staked.period < s.protocol.periodInfo.number
  {
    ReachableIsOk(cfg, s);
    var key := StakerKey(account, contract);
    if key in s.stakers && s.stakers[key].loyalStaker
       && cfg.OldestClaimablePeriod(s.protocol.periodInfo.number) <= s.stakers[key].staked.period < s.protocol.periodInfo.number
    {
      BonusIsClaimable(cfg, s, key);
    }
  }

  /** A dApp claim for an era of period `period` succeeds exactly for a registered contract
      that is still to be paid in a finished Build&Earn era of a claimable period. */
  lemma ClaimDAppSucceedsIff(cfg: Config, s: State, contract: SmartContract, era: EraNumber, period: PeriodNumber, payoutOk: bool)
    requires Reachable(cfg, s) && InPeriod(cfg.erasPerBuildAndEarn, era, period)
    ensures ClaimDAppReward(cfg, s, contract, era, payoutOk).Done? <==>
              && !s.protocol.maintenance && payoutOk && contract in s.integrated
              && FinalEra(cfg.erasPerBuildAndEarn, period - 1) + 1 < era < s.protocol.era
              && cfg.OldestClaimablePeriod(s.protocol.periodInfo.number) <= period
              && era in s.dappTiers && s.integrated[contract] in s.dappTiers[era].dapps
  {
    ReachableIsOk(cfg, s);
    InvTiers(cfg, s);
    if era < s.protocol.era && cfg.OldestClaimablePeriod(s.protocol.periodInfo.number) <= period {
      ClaimableHistoryIsStored(cfg, s, era, period);
    }
  }

  /** The defensive error branches are never taken. */
  lemma NoInternalErrors(cfg: Config, s: State, account: AccountId, contract: SmartContract, amount: Balance, payoutOk: bool)
    requires Reachable(cfg, s)
    ensures ClaimStakerRewards(cfg, s, account, payoutOk) != Failed(InternalClaimStakerError)
    ensures ClaimBonusReward(cfg, s, account, contract, payoutOk) != Failed(InternalClaimBonusError)
    ensures Stake(cfg, s, account, contract, amount) != Failed(InternalStakeError)
    ensures Unstake(cfg, s, account, contract, amount) != Failed(InternalUnstakeError)
    ensures UnstakeFromUnregistered(s, account, contract) != Failed(InternalUnstakeError)
  {
    ReachableIsOk(cfg, s);
    ClaimStakerHasNoInternalError(cfg, s, account, payoutOk);
    ClaimBonusHasNoInternalError(cfg, s, account, contract, payoutOk);
    UnstakeFitsLedger(cfg, s, account, contract, amount);
    UnstakeFromUnregisteredRefusedIff(cfg, s, account, contract);
  }

  /** Whatever is unstaked from an entry is there in the ledger: unstaking reports too large
      an amount only when it exceeds the entry itself. */
  lemma UnstakeFitsLedger(cfg: Config, s: State, account: AccountId, contract: SmartContract, amount: Balance)
    requires Inv(cfg, s)
    ensures var key := StakerKey(account, contract);
            && (Unstake(cfg, s, account, contract, amount) == Failed(UnstakeAmountTooLarge) ==> s.stakers[key].staked.total < amount)
            && Unstake(cfg, s, account, contract, amount) != Failed(InternalUnstakeError)
  {
    var key := StakerKey(account, contract);
    InvStakes(cfg, s);
    if key in s.stakers && s.stakers[key].staked.period == s.protocol.periodInfo.number {
      EntryWithinStakes(s.protocol.periodInfo.number, s.ledgers, s.stakers, s.eraInfo.nextStakeAmount.total, key);
    }
  }

  /** The same holds for an entry on an unregistered contract. Its only refusal is that of
      unclaimed eras, and it comes exactly when there are some. */
  lemma UnstakeFromUnregisteredRefusedIff(cfg: Config, s: State, account: AccountId, contract: SmartContract)
    requires Inv(cfg, s)
    ensures UnstakeFromUnregistered(s, account, contract) != Failed(InternalUnstakeError)
    ensures var key := StakerKey(account, contract);
            UnstakeFromUnregistered(s, account, contract) == Failed(UnclaimedRewards) <==>
              && !s.protocol.maintenance && contract !in s.integrated
              && key in s.stakers && s.stakers[key].staked.period == s.protocol.periodInfo.number
              && LedgerOf(s.ledgers, account).EarliestStakedEra().Some?
              && LedgerOf(s.ledgers, account).EarliestStakedEra().value < s.protocol.era
  {
    var key := StakerKey(account, contract);
    if key in s.stakers && s.stakers[key].staked.period == s.protocol.periodInfo.number {
      WholeEntryIsStaked(cfg, s, key);
    }
  }

  /** The ledger holds all of an entry of the current period, and refuses to give it back
      exactly while it has unclaimed eras. */
  lemma WholeEntryIsStaked(cfg: Config, s: State, key: StakerKey)
    requires Inv(cfg, s) && key in s.stakers && s.stakers[key].staked.period == s.protocol.periodInfo.number
    ensures var l := LedgerOf(s.ledgers, key.account);
            var r := l.UnstakeAmount(s.stakers[key].staked.total, s.protocol.era, s.protocol.periodInfo);
            && l.EarliestStakedEra().Some?
            && (r.Err? <==> l.EarliestStakedEra().value < s.protocol.era)
            && (r.Err? ==> r.error == InvalidEra)
  {
    InvStakes(cfg, s);
    assert InfoOk(s.protocol.era, s.protocol.periodInfo.number, s.stakers[key]);
    LedgerOfIsOk(cfg, s.protocol.era, s.protocol.periodInfo.number, s.ledgers, key.account);
    EntryWithinStakes(s.protocol.periodInfo.number, s.ledgers, s.stakers, s.eraInfo.nextStakeAmount.total, key);
  }

  /** A cleanup removes exactly the entries of finished periods whose bonus cannot be claimed
      (any more), and those only of the account. */
  lemma CleanupRemovesIff(cfg: Config, s: State, account: AccountId, key: StakerKey)
    requires Reachable(cfg, s) && CleanupExpiredEntries(cfg, s, account).Done? && key in s.stakers
    ensures key !in CleanupExpiredEntries(cfg, s, account).state.stakers <==>
              && key.account == account && s.stakers[key].staked.period < s.protocol.periodInfo.number
              && ClaimBonusReward(cfg, s, account, key.contract, true).Failed?
  {
    ClaimBonusSucceedsIff(cfg, s, account, key.contract, true);
    assert key == StakerKey(key.account, key.contract);
  }
}

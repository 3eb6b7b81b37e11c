/** Staking, unstaking and cleaning up expired entries keep the invariant. */
module StakeSteps {
  import opened Arithmetic
  import opened StakeTypes
  import opened MapSums
  import opened Calendar
  import opened Ledger
  import opened ContractStake
  import opened Protocol
  import opened Invariant
  import opened Frames
  import opened LockSteps
  import opened ContractSteps

  // ---------- the ledger ----------

  /** Dropping expired stake keeps a ledger sound and its current stake. */
  lemma CleanupKeepsLedger(cfg: Config, era: EraNumber, period: PeriodNumber, l: AccountLedger, threshold: PeriodNumber)
    requires LedgerOk(cfg, era, period, l) && threshold <= period
    ensures LedgerOk(cfg, era, period, l.MaybeCleanupExpired(threshold))
    ensures l.MaybeCleanupExpired(threshold).StakedAmount(period) == l.StakedAmount(period)
    ensures NotReopened(era, l, l.MaybeCleanupExpired(threshold))
  {
  }

  lemma StakedLedger(cfg: Config, era: EraNumber, info: PeriodInfo, l: AccountLedger, amount: Balance)
    requires ClockOk(cfg.erasPerBuildAndEarn, era, info) && !LastEra(era, info)
    requires LedgerOk(cfg, era, info.number, l) && amount > 0 && l.AddStakeAmount(amount, era, info).Ok?
    ensures var after := l.AddStakeAmount(amount, era, info).value;
            && LedgerOk(cfg, era, info.number, after)
            && after.StakedAmount(info.number) == l.StakedAmount(info.number) + amount
            && after.locked == l.locked && after.unlocking == l.unlocking && after.contractStakeCount == l.contractStakeCount
            && !after.IsEmpty()
            && NotReopened(era, l, after)
  {
    AddStakeKeepsShape(cfg.erasPerBuildAndEarn, l, amount, era, info);
  }

  lemma UnstakedLedger(cfg: Config, era: EraNumber, info: PeriodInfo, l: AccountLedger, amount: Balance)
    requires LedgerOk(cfg, era, info.number, l) && amount > 0 && l.UnstakeAmount(amount, era, info).Ok?
    ensures var after := l.UnstakeAmount(amount, era, info).value;
            && LedgerOk(cfg, era, info.number, after)
            && after.StakedAmount(info.number) + amount == l.StakedAmount(info.number)
            && after.locked == l.locked && after.unlocking == l.unlocking && after.contractStakeCount == l.contractStakeCount
            && NotReopened(era, l, after)
  {
    UnstakeKeepsShape(cfg.erasPerBuildAndEarn, l, amount, era, info);
  }

  /** A changed count of staked contracts changes nothing else. */
  lemma RecountedLedger(cfg: Config, era: EraNumber, period: PeriodNumber, l: AccountLedger, count: nat)
    requires LedgerOk(cfg, era, period, l) && count <= cfg.maxNumberOfStakedContracts
    ensures var after := l.(contractStakeCount := count);
            && LedgerOk(cfg, era, period, after) && after.StakedAmount(period) == l.StakedAmount(period)
            && after.EarliestStakedEra() == l.EarliestStakedEra() && after.IsEmpty() == l.IsEmpty()
  {
  }

  // ---------- voting stake ----------

  /** The part of the invariant about voting stake, over the storage it reads. */
  ghost predicate VotesOk(era: EraNumber, info: PeriodInfo, stakers: Stakers, totals: EraInfo,
                          ended: map<PeriodNumber, PeriodEndInfo>, bonuses: seq<BonusReward>,
                          votes: map<PeriodNumber, map<StakerKey, Balance>>)
  {
    && VotesCovered(era, info, stakers, totals.currentStakeAmount, totals.nextStakeAmount)
    && BonusesOk(info.number, ended, bonuses, stakers)
    && LoyaltyOk(info, stakers, votes)
  }

  /** Whatever the split of an unstake between the two subperiods, the protocol-wide
      voting stake keeps covering the voting stakes of the entries. */
  lemma UnstakeKeepsCover(next: StakeAmount, amount: Balance, voting: Balance, total: Balance, v: Balance, b: Balance, v': Balance)
    requires voting <= next.voting && total == next.total && 0 < amount <= v + b
    requires v <= voting && v' == SatSub(v, SatSub(amount, b))
    requires amount <= total && voting - v + v' <= total - amount
    ensures voting - v + v' <= next.Subtract(amount).voting
  {
  }

  lemma VotingWithinTotal(stakers: Stakers, period: PeriodNumber)
    ensures Sum(stakers, VotingStake(period)) <= Sum(stakers, StakeIn(period))
  {
    SumIsMonotone(stakers, VotingStake(period), StakeIn(period));
  }

  lemma UnstakeKeepsVotesCovered(era: EraNumber, info: PeriodInfo, stakers: Stakers, current: StakeAmount, next: StakeAmount, key: StakerKey, amount: Balance)
    requires era >= 1 && StakersOk(era, info.number, stakers) && VotesCovered(era, info, stakers, current, next)
    requires Sum(stakers, StakeIn(info.number)) == next.total
    requires key in stakers && stakers[key].staked.period == info.number && 0 < amount <= stakers[key].staked.total
    ensures var after := stakers[key].Unstake(amount, era, info.subperiod).0;
            VotesCovered(era, info, AfterUnstake(stakers, key, after), current.Subtract(amount), next.Subtract(amount))
  {
    var period := info.number;
    var before := stakers[key].staked;
    var after := stakers[key].Unstake(amount, era, info.subperiod).0;
    var stakers' := AfterUnstake(stakers, key, after);
    UnstakeKeepsInfo(stakers[key], amount, era, info);
    SumReplace(stakers, key, stakers', VotingStake(period));
    SumReplace(stakers, key, stakers', StakeIn(period));
    SumCoversEntry(stakers, key, VotingStake(period));
    SumCoversEntry(stakers, key, StakeIn(period));
    VotingWithinTotal(stakers', period);
    UnstakeKeepsCover(next, amount, Sum(stakers, VotingStake(period)), next.total, before.voting, before.buildAndEarn, after.staked.voting);
  }

  /** A changed entry of the current period leaves all finished periods alone. */
  lemma CurrentEntryKeepsBonuses(period: PeriodNumber, ended: map<PeriodNumber, PeriodEndInfo>, bonuses: seq<BonusReward>, stakers: Stakers, key: StakerKey, stakers': Stakers)
    requires BonusesOk(period, ended, bonuses, stakers) && period !in ended
    requires stakers' == stakers - {key} || (key in stakers' && stakers' == stakers[key := stakers'[key]])
    requires key in stakers' ==> stakers'[key].staked.period == period
    ensures BonusesOk(period, ended, bonuses, stakers')
  {
    forall q | q in ended
      ensures Sum(stakers', VotingStake(q)) <= Sum(stakers, VotingStake(q))
    {
      SumReplace(stakers, key, stakers', VotingStake(q));
    }
    ShrinkKeepsBonuses(period, ended, bonuses, stakers, stakers');
  }

  lemma UnstakeKeepsVotes(era: EraNumber, info: PeriodInfo, stakers: Stakers, totals: EraInfo,
                          ended: map<PeriodNumber, PeriodEndInfo>, bonuses: seq<BonusReward>,
                          votes: map<PeriodNumber, map<StakerKey, Balance>>, key: StakerKey, amount: Balance)
    requires era >= 1 && StakersOk(era, info.number, stakers) && info.number !in ended
    requires Sum(stakers, StakeIn(info.number)) == totals.nextStakeAmount.total
    requires VotesOk(era, info, stakers, totals, ended, bonuses, votes)
    requires key in stakers && stakers[key].staked.period == info.number && 0 < amount <= stakers[key].staked.total
    ensures var after := stakers[key].Unstake(amount, era, info.subperiod).0;
            VotesOk(era, info, AfterUnstake(stakers, key, after), totals.UnstakeAmount(amount), ended, bonuses, votes)
  {
    var after := stakers[key].Unstake(amount, era, info.subperiod).0;
    var stakers' := AfterUnstake(stakers, key, after);
    UnstakeKeepsInfo(stakers[key], amount, era, info);
    UnstakeKeepsVotesCovered(era, info, stakers, totals.currentStakeAmount, totals.nextStakeAmount, key, amount);
    CurrentEntryKeepsBonuses(info.number, ended, bonuses, stakers, key, stakers');
    UnstakeKeepsLoyalty(info, stakers, votes, key, after);
  }

  lemma UnstakeKeepsLoyalty(info: PeriodInfo, stakers: Stakers, votes: map<PeriodNumber, map<StakerKey, Balance>>, key: StakerKey, after: StakingInfo)
    requires LoyaltyOk(info, stakers, votes) && key in stakers && stakers[key].staked.period == info.number
    requires !after.staked.IsEmpty() ==> after.staked.period == info.number
    requires after.loyalStaker ==> stakers[key].loyalStaker
    requires after.loyalStaker && info.subperiod == BuildAndEarn ==> after.staked.voting == stakers[key].staked.voting
    ensures LoyaltyOk(info, AfterUnstake(stakers, key, after), votes)
  {
  }

  lemma StakeKeepsVotes(era: EraNumber, info: PeriodInfo, stakers: Stakers, totals: EraInfo,
                        ended: map<PeriodNumber, PeriodEndInfo>, bonuses: seq<BonusReward>,
                        votes: map<PeriodNumber, map<StakerKey, Balance>>, key: StakerKey, entry: StakingInfo, amount: Balance)
    requires info.number !in ended && amount > 0 && !LastEra(era, info)
    requires VotesOk(era, info, stakers, totals, ended, bonuses, votes)
    requires IsEntry(stakers, key, info.number, entry) && entry.staked.era <= era + 1
    requires entry.loyalStaker ==> entry.staked.voting > 0 || info.subperiod == Voting
    requires entry.loyalStaker && info.subperiod == BuildAndEarn ==> key in stakers && entry == stakers[key]
    ensures var after := entry.Stake(amount, era, info.subperiod);
            VotesOk(era, info, stakers[key := after], totals.AddStakeAmount(amount, info.subperiod), ended, bonuses, votes)
  {
    var after := entry.Stake(amount, era, info.subperiod);
    var stakers' := stakers[key := after];
    SumReplace(stakers, key, stakers', VotingStake(info.number));
    CurrentEntryKeepsBonuses(info.number, ended, bonuses, stakers, key, stakers');
  }

  // ---------- stake ----------

  /** The entry a stake is added to is the current one or a fresh one. */
  lemma EntryForStakeIs(cfg: Config, s: State, key: StakerKey)
    requires Inv(cfg, s) && EntryForStake(cfg, s, key).Some?
    ensures var entry := EntryForStake(cfg, s, key).value.0;
            var info := s.protocol.periodInfo;
            && IsEntry(s.stakers, key, info.number, entry) && entry.staked.era <= s.protocol.era + 1
            && (entry.loyalStaker ==> entry.staked.voting > 0 || info.subperiod == Voting)
            && (entry.loyalStaker && info.subperiod == BuildAndEarn ==> key in s.stakers && entry == s.stakers[key])
  {
    InvStakes(cfg, s);
    if key in s.stakers {
      assert InfoOk(s.protocol.era, s.protocol.periodInfo.number, s.stakers[key]);
    }
  }

  /** Ledger, entry and totals of a stake agree again. */
  lemma StakeKeepsStakes(period: PeriodNumber, ledgers: Ledgers, stakers: Stakers, total: Balance,
                         key: StakerKey, entry: StakingInfo, era: EraNumber, subperiod: Subperiod, amount: Balance, l: AccountLedger)
    requires period >= 1 && StakesAgree(period, ledgers, stakers, total)
    requires l.StakedAmount(period) == LedgerOf(ledgers, key.account).StakedAmount(period) + amount
    requires IsEntry(stakers, key, period, entry)
    ensures StakesAgree(period, StoreLedger(ledgers, key.account, l), stakers[key := entry.Stake(amount, era, subperiod)], total + amount)
  {
    StoreMovesStakes(period, ledgers, stakers, total, key, l, stakers[key := entry.Stake(amount, era, subperiod)], total + amount);
  }

  lemma StakeKeepsStakers(era: EraNumber, info: PeriodInfo, stakers: Stakers, key: StakerKey, entry: StakingInfo, amount: Balance)
    requires StakersOk(era, info.number, stakers) && amount > 0 && info.number >= 1
    requires entry.staked.period == info.number && entry.staked.era <= era + 1
    requires entry.loyalStaker ==> entry.staked.voting > 0 || info.subperiod == Voting
    ensures StakersOk(era, info.number, stakers[key := entry.Stake(amount, era, info.subperiod)])
  {
    StakeKeepsInfo(entry, amount, era, info);
  }

  lemma StakeKeepsPayouts(cfg: Config, s: State, account: AccountId, l: AccountLedger)
    requires Inv(cfg, s) && NotReopened(s.protocol.era, LedgerOf(s.ledgers, account), l)
    requires l.unlocking == LedgerOf(s.ledgers, account).unlocking
    ensures PayoutInv(cfg, UpdateLedger(s, account, l))
  {
    InvParts(cfg, s);
    StoreKeepsPaid(s.protocol.era, s.ledgers, s.trace.stakerRewards, account, l);
    StoreKeepsUnlocks(cfg, s.ledgers, s.trace.unlocks, account, l);
  }

  /** The ledger a successful stake stores. */
  function LedgerAfterStake(cfg: Config, s: State, account: AccountId, amount: Balance, isNew: bool): LedgerResult<AccountLedger> {
    var info := s.protocol.periodInfo;
    var l := LedgerOf(s.ledgers, account).MaybeCleanupExpired(cfg.OldestClaimablePeriod(info.number));
    match l.AddStakeAmount(amount, s.protocol.era, info)
    case Err(error) => Err(error)
    case Ok(after) => Ok(if isNew then after.(contractStakeCount := after.contractStakeCount + 1) else after)
  }

  lemma LedgerAfterStakeIs(cfg: Config, s: State, account: AccountId, amount: Balance, isNew: bool)
    requires Inv(cfg, s) && amount > 0 && !LastEra(s.protocol.era, s.protocol.periodInfo)
    requires LedgerAfterStake(cfg, s, account, amount, isNew).Ok?
    requires LedgerAfterStake(cfg, s, account, amount, isNew).value.contractStakeCount <= cfg.maxNumberOfStakedContracts || !isNew
    ensures var before := LedgerOf(s.ledgers, account);
            var after := LedgerAfterStake(cfg, s, account, amount, isNew).value;
            var period := s.protocol.periodInfo.number;
            && LedgerOk(cfg, s.protocol.era, period, after)
            && after.StakedAmount(period) == before.StakedAmount(period) + amount
            && after.locked == before.locked && after.unlocking == before.unlocking
            && NotReopened(s.protocol.era, before, after)
  {
    InvStakes(cfg, s);
    var info := s.protocol.periodInfo;
    var before := LedgerOf(s.ledgers, account);
    var threshold := cfg.OldestClaimablePeriod(info.number);
    LedgerOfIsOk(cfg, s.protocol.era, info.number, s.ledgers, account);
    CleanupKeepsLedger(cfg, s.protocol.era, info.number, before, threshold);
    StakedLedger(cfg, s.protocol.era, info, before.MaybeCleanupExpired(threshold), amount);
    var staked := before.MaybeCleanupExpired(threshold).AddStakeAmount(amount, s.protocol.era, info).value;
    RecountedLedger(cfg, s.protocol.era, info.number, staked,
                    LedgerAfterStake(cfg, s, account, amount, isNew).value.contractStakeCount);
  }

  lemma StakeIs(cfg: Config, s: State, account: AccountId, contract: SmartContract, amount: Balance)
    requires Stake(cfg, s, account, contract, amount).Done?
    ensures var key := StakerKey(account, contract);
            && amount > 0 && contract in s.integrated && !LastEra(s.protocol.era, s.protocol.periodInfo)
            && EntryForStake(cfg, s, key).Some?
            && var (entry, isNew) := EntryForStake(cfg, s, key).value;
               var l := LedgerAfterStake(cfg, s, account, amount, isNew);
               var info := s.protocol.periodInfo;
               var id := s.integrated[contract];
               && l.Ok? && (l.value.contractStakeCount <= cfg.maxNumberOfStakedContracts || !isNew)
               && Stake(cfg, s, account, contract, amount).state
                  == UpdateLedger(s, account, l.value).(
                       stakers := s.stakers[key := entry.Stake(amount, s.protocol.era, info.subperiod)],
                       contracts := s.contracts[id := ContractOf(s.contracts, id).Stake(amount, info, s.protocol.era)],
                       eraInfo := s.eraInfo.AddStakeAmount(amount, info.subperiod))
  {
  }

  lemma StakeKeepsInv(cfg: Config, s: State, account: AccountId, contract: SmartContract, amount: Balance)
    requires Inv(cfg, s) && Stake(cfg, s, account, contract, amount).Done?
    ensures Inv(cfg, Stake(cfg, s, account, contract, amount).state)
  {
    var key := StakerKey(account, contract);
    StakeIs(cfg, s, account, contract, amount);
    var (entry, isNew) := EntryForStake(cfg, s, key).value;
    var l := LedgerAfterStake(cfg, s, account, amount, isNew).value;
    EntryForStakeIs(cfg, s, key);
    LedgerAfterStakeIs(cfg, s, account, amount, isNew);
    StakedStateIsOk(cfg, s, key, entry, amount, l);
  }

  /** A sound ledger and a sound entry that add `amount` to what they stand for. */
  ghost predicate StakesMore(cfg: Config, s: State, key: StakerKey, entry: StakingInfo, amount: Balance, l: AccountLedger) {
    var info, before := s.protocol.periodInfo, LedgerOf(s.ledgers, key.account);
    && amount > 0 && key.contract in s.integrated && !LastEra(s.protocol.era, info)
    && IsEntry(s.stakers, key, info.number, entry) && entry.staked.era <= s.protocol.era + 1
    && (entry.loyalStaker ==> entry.staked.voting > 0 || info.subperiod == Voting)
    && (entry.loyalStaker && info.subperiod == BuildAndEarn ==> key in s.stakers && entry == s.stakers[key])
    && LedgerOk(cfg, s.protocol.era, info.number, l)
    && l.StakedAmount(info.number) == before.StakedAmount(info.number) + amount
    && l.locked == before.locked && l.unlocking == before.unlocking
    && NotReopened(s.protocol.era, before, l)
  }

  function Staked(s: State, key: StakerKey, entry: StakingInfo, amount: Balance, l: AccountLedger): State
    requires key.contract in s.integrated
  {
    var info, era, id := s.protocol.periodInfo, s.protocol.era, s.integrated[key.contract];
    UpdateLedger(s, key.account, l).(
      stakers := s.stakers[key := entry.Stake(amount, era, info.subperiod)],
      contracts := s.contracts[id := ContractOf(s.contracts, id).Stake(amount, info, era)],
      eraInfo := s.eraInfo.AddStakeAmount(amount, info.subperiod))
  }

  lemma StakedStakeInv(cfg: Config, s: State, key: StakerKey, entry: StakingInfo, amount: Balance, l: AccountLedger)
    requires Inv(cfg, s) && StakesMore(cfg, s, key, entry, amount, l)
    ensures StakeInv(cfg, Staked(s, key, entry, amount, l))
  {
    var info, era := s.protocol.periodInfo, s.protocol.era;
    assert Holds(Stakes, cfg, s);
    StoreKeepsLedgers(cfg, era, info.number, s.ledgers, key.account, l);
    StoreKeepsFunds(s.ledgers, s.freezes, s.eraInfo.totalLocked, s.eraInfo.unlocking, key.account, l,
                    s.eraInfo.totalLocked, s.eraInfo.unlocking);
    StakeKeepsStakers(era, info, s.stakers, key, entry, amount);
    StakeKeepsStakes(info.number, s.ledgers, s.stakers, s.eraInfo.nextStakeAmount.total, key, entry, era, info.subperiod, amount, l);
  }

  lemma StakedContractInv(cfg: Config, s: State, key: StakerKey, entry: StakingInfo, amount: Balance, l: AccountLedger)
    requires Inv(cfg, s) && StakesMore(cfg, s, key, entry, amount, l)
    ensures ContractInv(Staked(s, key, entry, amount, l))
  {
    InvStakes(cfg, s);
    InvContracts(cfg, s);
    StakeKeepsContracts(s.protocol.era, s.protocol.periodInfo, s.integrated, s.nextDAppId, s.contracts, s.stakers,
                        s.trace.unregistered, key, entry, amount);
  }

  lemma StakedVoteInv(cfg: Config, s: State, key: StakerKey, entry: StakingInfo, amount: Balance, l: AccountLedger)
    requires Inv(cfg, s) && StakesMore(cfg, s, key, entry, amount, l)
    ensures VoteInv(Staked(s, key, entry, amount, l))
  {
    assert s.protocol.periodInfo.number !in s.trace.ended by { InvEnds(cfg, s); }
    assert Holds(Votes, cfg, s);
    StakeKeepsVotes(s.protocol.era, s.protocol.periodInfo, s.stakers, s.eraInfo, s.trace.ended, s.trace.bonuses, s.trace.votes,
                    key, entry, amount);
  }

  lemma StakedStateIsOk(cfg: Config, s: State, key: StakerKey, entry: StakingInfo, amount: Balance, l: AccountLedger)
    requires Inv(cfg, s) && StakesMore(cfg, s, key, entry, amount, l)
    ensures Inv(cfg, Staked(s, key, entry, amount, l))
  {
    StakedStakeInv(cfg, s, key, entry, amount, l);
    StakedContractInv(cfg, s, key, entry, amount, l);
    StakedVoteInv(cfg, s, key, entry, amount, l);
    StakeKeepsPayouts(cfg, s, key.account, l);
    assert Holds(Pruning, cfg, s);
    InvFromParts(cfg, Staked(s, key, entry, amount, l));
  }

  // ---------- unstake ----------

  lemma UnstakeKeepsStakes(era: EraNumber, info: PeriodInfo, ledgers: Ledgers, stakers: Stakers, total: Balance,
                           key: StakerKey, amount: Balance, l: AccountLedger)
    requires era >= 1 && info.number >= 1 && StakersOk(era, info.number, stakers) && StakesAgree(info.number, ledgers, stakers, total)
    requires key in stakers && stakers[key].staked.period == info.number && 0 < amount <= stakers[key].staked.total
    requires l.StakedAmount(info.number) + amount == LedgerOf(ledgers, key.account).StakedAmount(info.number)
    ensures var stakers' := AfterUnstake(stakers, key, stakers[key].Unstake(amount, era, info.subperiod).0);
            && StakersOk(era, info.number, stakers')
            && amount <= total && StakesAgree(info.number, StoreLedger(ledgers, key.account, l), stakers', total - amount)
  {
    var stakers' := AfterUnstake(stakers, key, stakers[key].Unstake(amount, era, info.subperiod).0);
    UnstakeMovesSums(era, info, stakers, key, amount);
    UnstakeKeepsInfo(stakers[key], amount, era, info);
    EntryWithinStakes(info.number, ledgers, stakers, total, key);
    StoreMovesStakes(info.number, ledgers, stakers, total, key, l, stakers', total - amount);
  }

  /** The ledger and the entry of an unstake, together with contracts that agree with the
      entries again. */
  lemma UnstakedStateIsOk(cfg: Config, s: State, key: StakerKey, amount: Balance, l: AccountLedger, contracts: map<DAppId, ContractStakeAmount>)
    requires Inv(cfg, s)
    requires key in s.stakers && s.stakers[key].staked.period == s.protocol.periodInfo.number && 0 < amount <= s.stakers[key].staked.total
    requires LedgerOk(cfg, s.protocol.era, s.protocol.periodInfo.number, l)
    requires l.StakedAmount(s.protocol.periodInfo.number) + amount
             == LedgerOf(s.ledgers, key.account).StakedAmount(s.protocol.periodInfo.number)
    requires l.locked == LedgerOf(s.ledgers, key.account).locked && l.unlocking == LedgerOf(s.ledgers, key.account).unlocking
    requires NotReopened(s.protocol.era, LedgerOf(s.ledgers, key.account), l)
    requires var stakers' := AfterUnstake(s.stakers, key, s.stakers[key].Unstake(amount, s.protocol.era, s.protocol.periodInfo.subperiod).0);
             ContractInv(s.(stakers := stakers', contracts := contracts))
    ensures var stakers' := AfterUnstake(s.stakers, key, s.stakers[key].Unstake(amount, s.protocol.era, s.protocol.periodInfo.subperiod).0);
            Inv(cfg, UpdateLedger(s, key.account, l).(
                       stakers := stakers', contracts := contracts, eraInfo := s.eraInfo.UnstakeAmount(amount)))
  {
    var info, era := s.protocol.periodInfo, s.protocol.era;
    var stakers' := AfterUnstake(s.stakers, key, s.stakers[key].Unstake(amount, era, info.subperiod).0);
    StakeKeepsPayouts(cfg, s, key.account, l);
    InvParts(cfg, s);
    StoreKeepsLedgers(cfg, era, info.number, s.ledgers, key.account, l);
    StoreKeepsFunds(s.ledgers, s.freezes, s.eraInfo.totalLocked, s.eraInfo.unlocking, key.account, l,
                    s.eraInfo.totalLocked, s.eraInfo.unlocking);
    UnstakeKeepsStakes(era, info, s.ledgers, s.stakers, s.eraInfo.nextStakeAmount.total, key, amount, l);
    UnstakeKeepsVotes(era, info, s.stakers, s.eraInfo, s.trace.ended, s.trace.bonuses, s.trace.votes, key, amount);
    InvFromParts(cfg, UpdateLedger(s, key.account, l).(
                        stakers := stakers', contracts := contracts, eraInfo := s.eraInfo.UnstakeAmount(amount)));
  }

  /** The ledger of an account after unstaking `amount`. */
  lemma LedgerAfterUnstakeIs(cfg: Config, s: State, account: AccountId, amount: Balance)
    requires Inv(cfg, s) && amount > 0
    requires LedgerOf(s.ledgers, account).UnstakeAmount(amount, s.protocol.era, s.protocol.periodInfo).Ok?
    ensures var before := LedgerOf(s.ledgers, account);
            var after := before.UnstakeAmount(amount, s.protocol.era, s.protocol.periodInfo).value;
            var period := s.protocol.periodInfo.number;
            && LedgerOk(cfg, s.protocol.era, period, after)
            && after.StakedAmount(period) + amount == before.StakedAmount(period)
            && after.locked == before.locked && after.unlocking == before.unlocking
            && NotReopened(s.protocol.era, before, after)
  {
    InvStakes(cfg, s);
    LedgerOfIsOk(cfg, s.protocol.era, s.protocol.periodInfo.number, s.ledgers, account);
    UnstakedLedger(cfg, s.protocol.era, s.protocol.periodInfo, LedgerOf(s.ledgers, account), amount);
  }

  /** The ledger a successful unstake stores. */
  function Recounted(l: AccountLedger, entry: StakingInfo): AccountLedger {
    if entry.staked.IsEmpty() then l.(contractStakeCount := SatSub(l.contractStakeCount, 1)) else l
  }

  lemma UnstakeIs(cfg: Config, s: State, account: AccountId, contract: SmartContract, amount: Balance)
    requires Unstake(cfg, s, account, contract, amount).Done?
    ensures var key := StakerKey(account, contract);
            var info := s.protocol.periodInfo;
            && contract in s.integrated && key in s.stakers && s.stakers[key].staked.period == info.number
            && var toUnstake := AmountToUnstake(cfg, s.stakers[key], amount);
               && 0 < toUnstake <= s.stakers[key].staked.total
               && var unstaked := LedgerOf(s.ledgers, account).UnstakeAmount(toUnstake, s.protocol.era, info);
                  var (after, pairs) := s.stakers[key].Unstake(toUnstake, s.protocol.era, info.subperiod);
                  var id := s.integrated[contract];
                  && unstaked.Ok?
                  && Unstake(cfg, s, account, contract, amount).state
                     == UpdateLedger(s, account, Recounted(unstaked.value, after)).(
                          stakers := AfterUnstake(s.stakers, key, after),
                          contracts := s.contracts[id := ContractOf(s.contracts, id).Unstake(pairs, info, s.protocol.era)],
                          eraInfo := s.eraInfo.UnstakeAmount(toUnstake))
  {
  }

  lemma UnstakeKeepsInv(cfg: Config, s: State, account: AccountId, contract: SmartContract, amount: Balance)
    requires Inv(cfg, s) && Unstake(cfg, s, account, contract, amount).Done?
    ensures Inv(cfg, Unstake(cfg, s, account, contract, amount).state)
  {
    var key := StakerKey(account, contract);
    var info, era := s.protocol.periodInfo, s.protocol.era;
    UnstakeIs(cfg, s, account, contract, amount);
    var toUnstake := AmountToUnstake(cfg, s.stakers[key], amount);
    var l := LedgerOf(s.ledgers, account).UnstakeAmount(toUnstake, era, info).value;
    var (after, pairs) := s.stakers[key].Unstake(toUnstake, era, info.subperiod);
    var id := s.integrated[contract];
    LedgerAfterUnstakeIs(cfg, s, account, toUnstake);
    if after.staked.IsEmpty() {
      RecountedLedger(cfg, era, info.number, l, SatSub(l.contractStakeCount, 1));
    }
    UnstakeKeepsContractInv(cfg, s, key, toUnstake);
    UnstakedStateIsOk(cfg, s, key, toUnstake, Recounted(l, after),
                      s.contracts[id := ContractOf(s.contracts, id).Unstake(pairs, info, era)]);
  }

  lemma UnstakeKeepsContractInv(cfg: Config, s: State, key: StakerKey, amount: Balance)
    requires Inv(cfg, s) && key.contract in s.integrated
    requires key in s.stakers && s.stakers[key].staked.period == s.protocol.periodInfo.number && 0 < amount <= s.stakers[key].staked.total
    ensures var (after, pairs) := s.stakers[key].Unstake(amount, s.protocol.era, s.protocol.periodInfo.subperiod);
            var id := s.integrated[key.contract];
            ContractInv(s.(stakers := AfterUnstake(s.stakers, key, after),
                           contracts := s.contracts[id := ContractOf(s.contracts, id).Unstake(pairs, s.protocol.periodInfo, s.protocol.era)]))
  {
    InvParts(cfg, s);
    UnstakeKeepsContracts(s.protocol.era, s.protocol.periodInfo, s.integrated, s.nextDAppId, s.contracts, s.stakers,
                          s.trace.unregistered, key, amount);
  }

  lemma UnstakeFromUnregisteredKeepsInv(cfg: Config, s: State, account: AccountId, contract: SmartContract)
    requires Inv(cfg, s) && UnstakeFromUnregistered(s, account, contract).Done?
    ensures Inv(cfg, UnstakeFromUnregistered(s, account, contract).state)
  {
    var key := StakerKey(account, contract);
    var info, era := s.protocol.periodInfo, s.protocol.era;
    var amount := s.stakers[key].staked.total;
    var l := LedgerOf(s.ledgers, account).UnstakeAmount(amount, era, info).value;
    WholeEntry(cfg, s, key);
    LedgerAfterUnstakeIs(cfg, s, account, amount);
    RemovalKeepsContractInv(cfg, s, key);
    UnstakedStateIsOk(cfg, s, key, amount, l, s.contracts);
  }

  /** Unstaking all of an entry removes it. */
  lemma WholeEntry(cfg: Config, s: State, key: StakerKey)
    requires Inv(cfg, s) && key in s.stakers && s.stakers[key].staked.period == s.protocol.periodInfo.number
    ensures s.stakers[key].staked.total > 0
    ensures var after := s.stakers[key].Unstake(s.stakers[key].staked.total, s.protocol.era, s.protocol.periodInfo.subperiod).0;
            AfterUnstake(s.stakers, key, after) == s.stakers - {key}
  {
    InvStakes(cfg, s);
    assert InfoOk(s.protocol.era, s.protocol.periodInfo.number, s.stakers[key]);
    UnstakeKeepsInfo(s.stakers[key], s.stakers[key].staked.total, s.protocol.era, s.protocol.periodInfo);
  }

  lemma RemovalKeepsContractInv(cfg: Config, s: State, key: StakerKey)
    requires Inv(cfg, s) && key.contract !in s.integrated
    ensures ContractInv(s.(stakers := s.stakers - {key}, contracts := s.contracts))
  {
    InvParts(cfg, s);
    RemovalKeepsContracts(s.protocol.era, s.protocol.periodInfo.number, s.integrated, s.contracts, s.stakers, s.trace.unregistered, key);
  }

  // ---------- expired entries ----------

  /** Cleaning up removes no entry of the current period and none with a bonus that can
      still be claimed. */
  lemma CleanupKeepsInv(cfg: Config, s: State, account: AccountId)
    requires Inv(cfg, s) && CleanupExpiredEntries(cfg, s, account).Done?
    ensures Inv(cfg, CleanupExpiredEntries(cfg, s, account).state)
  {
    var info, era := s.protocol.periodInfo, s.protocol.era;
    var expired := ExpiredKeys(cfg, s, account);
    var l := LedgerOf(s.ledgers, account);
    var recounted := l.(contractStakeCount := SatSub(l.contractStakeCount, |expired|));
    var after := recounted.MaybeCleanupExpired(cfg.OldestClaimablePeriod(info.number));
    CleanupMovesFunds(cfg, s, account, SatSub(l.contractStakeCount, |expired|));
    StoreKeepsInvQuietly(cfg, s, account, after, s.eraInfo);
    DropKeepsInv(cfg, UpdateLedger(s, account, after).(eraInfo := s.eraInfo), expired);
  }

  lemma CleanupMovesFunds(cfg: Config, s: State, account: AccountId, count: nat)
    requires Inv(cfg, s) && count <= LedgerOf(s.ledgers, account).contractStakeCount
    ensures var l := LedgerOf(s.ledgers, account).(contractStakeCount := count);
            FundsMove(cfg, s, account, l.MaybeCleanupExpired(cfg.OldestClaimablePeriod(s.protocol.periodInfo.number)),
                      s.eraInfo, s.trace.unlocks)
  {
    InvLedgers(cfg, s);
    var era, period := s.protocol.era, s.protocol.periodInfo.number;
    var l := LedgerOf(s.ledgers, account);
    var recounted := l.(contractStakeCount := count);
    var after := recounted.MaybeCleanupExpired(cfg.OldestClaimablePeriod(period));
    LedgerOfIsOk(cfg, era, period, s.ledgers, account);
    RecountedLedger(cfg, era, period, l, count);
    CleanupKeepsLedger(cfg, era, period, recounted, cfg.OldestClaimablePeriod(period));
    StoreKeepsUnlocks(cfg, s.ledgers, s.trace.unlocks, account, after);
  }
}

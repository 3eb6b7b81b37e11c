/** How the parts of the invariant react to the elementary updates: storing one ledger and
    dropping or replacing staker entries. */
module Frames {
  import opened StakeTypes
  import opened MapSums
  import opened Pools
  import opened Ledger
  import opened ContractStake
  import opened Protocol
  import opened Invariant

  // ---------- storing a ledger ----------

  lemma LedgerOfIsOk(cfg: Config, era: EraNumber, period: PeriodNumber, ledgers: Ledgers, account: AccountId)
    requires LedgersOk(cfg, era, period, ledgers)
    ensures LedgerOk(cfg, era, period, LedgerOf(ledgers, account))
  {
  }

  lemma StoreKeepsLedgers(cfg: Config, era: EraNumber, period: PeriodNumber, ledgers: Ledgers, account: AccountId, l: AccountLedger)
    requires LedgersOk(cfg, era, period, ledgers) && LedgerOk(cfg, era, period, l)
    ensures LedgersOk(cfg, era, period, StoreLedger(ledgers, account, l))
  {
  }

  lemma StoredLedger(ledgers: Ledgers, account: AccountId, l: AccountLedger, other: AccountId)
    ensures LedgerOf(StoreLedger(ledgers, account, l), other)
            == if other != account then LedgerOf(ledgers, other) else if l.IsEmpty() then NO_LEDGER else l
  {
  }

  lemma StoreSum(ledgers: Ledgers, account: AccountId, l: AccountLedger, w: (AccountId, AccountLedger) -> nat)
    requires w(account, NO_LEDGER) == 0 && (l.IsEmpty() ==> w(account, l) == 0)
    ensures Sum(StoreLedger(ledgers, account, l), w) + w(account, LedgerOf(ledgers, account)) == Sum(ledgers, w) + w(account, l)
  {
    if l.IsEmpty() {
      SumRemove(ledgers, account, w);
    } else {
      SumInsert(ledgers, account, l, w);
    }
  }

  lemma StoreKeepsFunds(ledgers: Ledgers, freezes: map<AccountId, Balance>, locked: Balance, unlocking: Balance,
                        account: AccountId, l: AccountLedger, locked': Balance, unlocking': Balance)
    requires FundsOk(ledgers, freezes, locked, unlocking)
    requires locked' + LedgerOf(ledgers, account).locked == locked + l.locked
    requires unlocking' + ChunkTotal(LedgerOf(ledgers, account).unlocking) == unlocking + ChunkTotal(l.unlocking)
    ensures FundsOk(StoreLedger(ledgers, account, l), StoreFreeze(freezes, account, l), locked', unlocking')
  {
    StoreSum(ledgers, account, l, LockedAmount());
    StoreSum(ledgers, account, l, UnlockingAmount());
    var ledgers' := StoreLedger(ledgers, account, l);
    var freezes' := StoreFreeze(freezes, account, l);
    forall a: AccountId
      ensures FreezeOf(freezes', a) == LedgerOf(ledgers', a).totalLocked
    {
      assert FreezeOf(freezes, a) == LedgerOf(ledgers, a).totalLocked;
    }
  }

  /** A ledger never holds more locked or unlocking than the protocol totals. */
  lemma LedgerWithinFunds(ledgers: Ledgers, freezes: map<AccountId, Balance>, locked: Balance, unlocking: Balance, account: AccountId)
    requires FundsOk(ledgers, freezes, locked, unlocking)
    ensures LedgerOf(ledgers, account).locked <= locked
    ensures ChunkTotal(LedgerOf(ledgers, account).unlocking) <= unlocking
  {
    if account in ledgers {
      SumCoversEntry(ledgers, account, LockedAmount());
      SumCoversEntry(ledgers, account, UnlockingAmount());
    }
  }

  lemma StoreKeepsStakes(period: PeriodNumber, ledgers: Ledgers, stakers: Stakers, total: Balance, account: AccountId, l: AccountLedger)
    requires period >= 1 && StakesAgree(period, ledgers, stakers, total)
    requires l.StakedAmount(period) == LedgerOf(ledgers, account).StakedAmount(period)
    ensures StakesAgree(period, StoreLedger(ledgers, account, l), stakers, total)
  {
    StoreSum(ledgers, account, l, LedgerStake(period));
    var ledgers' := StoreLedger(ledgers, account, l);
    forall a: AccountId
      ensures LedgerOf(ledgers', a).StakedAmount(period) == Sum(stakers, StakeBy(a, period))
    {
      assert LedgerOf(ledgers, a).StakedAmount(period) == Sum(stakers, StakeBy(a, period));
      StoredLedger(ledgers, account, l, a);
    }
  }

  /** A changed entry and the ledger of its account move together with the total. */
  lemma StoreMovesStakes(period: PeriodNumber, ledgers: Ledgers, stakers: Stakers, total: Balance,
                         key: StakerKey, l: AccountLedger, stakers': Stakers, total': Balance)
    requires period >= 1 && StakesAgree(period, ledgers, stakers, total)
    requires stakers' == stakers - {key} || (key in stakers' && stakers' == stakers[key := stakers'[key]])
    requires l.StakedAmount(period) + Entry(stakers, key, StakeBy(key.account, period))
             == LedgerOf(ledgers, key.account).StakedAmount(period) + Entry(stakers', key, StakeBy(key.account, period))
    requires total' + LedgerOf(ledgers, key.account).StakedAmount(period) == total + l.StakedAmount(period)
    ensures StakesAgree(period, StoreLedger(ledgers, key.account, l), stakers', total')
  {
    StoreSum(ledgers, key.account, l, LedgerStake(period));
    SumReplace(stakers, key, stakers', StakeIn(period));
    var ledgers' := StoreLedger(ledgers, key.account, l);
    forall a: AccountId
      ensures LedgerOf(ledgers', a).StakedAmount(period) == Sum(stakers', StakeBy(a, period))
    {
      assert LedgerOf(ledgers, a).StakedAmount(period) == Sum(stakers, StakeBy(a, period));
      StoredLedger(ledgers, key.account, l, a);
      SumReplace(stakers, key, stakers', StakeBy(a, period));
    }
  }

  lemma SumReplace(stakers: Stakers, key: StakerKey, stakers': Stakers, w: (StakerKey, StakingInfo) -> nat)
    requires stakers' == stakers - {key} || (key in stakers' && stakers' == stakers[key := stakers'[key]])
    ensures Sum(stakers', w) + Entry(stakers, key, w) == Sum(stakers, w) + Entry(stakers', key, w)
  {
    if key in stakers' {
      SumInsert(stakers, key, stakers'[key], w);
    } else {
      SumRemove(stakers, key, w);
    }
  }

  /** An account has no more stake on a contract than in its ledger, nor more in its ledger
      than the protocol has. */
  lemma EntryWithinStakes(period: PeriodNumber, ledgers: Ledgers, stakers: Stakers, total: Balance, key: StakerKey)
    requires StakesAgree(period, ledgers, stakers, total)
    requires key in stakers && stakers[key].staked.period == period
    ensures stakers[key].staked.total <= LedgerOf(ledgers, key.account).StakedAmount(period)
    ensures LedgerOf(ledgers, key.account).StakedAmount(period) <= total
  {
    SumCoversEntry(stakers, key, StakeBy(key.account, period));
    LedgerWithinStakes(period, ledgers, stakers, total, key.account);
  }

  lemma LedgerWithinStakes(period: PeriodNumber, ledgers: Ledgers, stakers: Stakers, total: Balance, account: AccountId)
    requires StakesAgree(period, ledgers, stakers, total)
    ensures LedgerOf(ledgers, account).StakedAmount(period) <= total
  {
    if account in ledgers {
      SumCoversEntry(ledgers, account, LedgerStake(period));
    }
  }

  /** No era becomes claimable again: the earliest staked era is not before the current
      one or not before what it was. */
  predicate NotReopened(era: EraNumber, before: AccountLedger, after: AccountLedger) {
    after.EarliestStakedEra().Some? ==>
      || era <= after.EarliestStakedEra().value
      || (before.EarliestStakedEra().Some? && before.EarliestStakedEra().value <= after.EarliestStakedEra().value)
  }

  lemma StoreKeepsPaid(era: EraNumber, ledgers: Ledgers, paid: seq<StakerReward>, account: AccountId, l: AccountLedger)
    requires StakerPaidOnce(era, ledgers, paid)
    requires NotReopened(era, LedgerOf(ledgers, account), l)
    ensures StakerPaidOnce(era, StoreLedger(ledgers, account, l), paid)
  {
    var ledgers' := StoreLedger(ledgers, account, l);
    forall i | 0 <= i < |paid| && LedgerOf(ledgers', paid[i].account).EarliestStakedEra().Some?
      ensures paid[i].era < LedgerOf(ledgers', paid[i].account).EarliestStakedEra().value
    {
      StoredLedger(ledgers, account, l, paid[i].account);
    }
  }

  lemma StoreKeepsUnlocks(cfg: Config, ledgers: Ledgers, unlocks: seq<UnlockEvent>, account: AccountId, l: AccountLedger)
    requires UnlocksOk(cfg, ledgers, unlocks) && l.unlocking == LedgerOf(ledgers, account).unlocking
    ensures UnlocksOk(cfg, StoreLedger(ledgers, account, l), unlocks)
  {
    var ledgers' := StoreLedger(ledgers, account, l);
    forall a: AccountId, b: BlockNumber
      ensures LogSum(unlocks, ClaimedBy(a, b)) + MaturedTotal(LedgerOf(ledgers', a).unlocking, b)
              <= LogSum(unlocks, StartedBy(a, cfg.UnlockingBlocks(), b))
    {
      StoredLedger(ledgers, account, l, a);
      assert LogSum(unlocks, ClaimedBy(a, b)) + MaturedTotal(LedgerOf(ledgers, a).unlocking, b)
             <= LogSum(unlocks, StartedBy(a, cfg.UnlockingBlocks(), b));
    }
  }

  // ---------- dropping entries of earlier periods ----------

  /** All dropped entries belong to other periods. */
  ghost predicate OnlyOld(stakers: Stakers, dropped: set<StakerKey>, period: PeriodNumber) {
    forall k :: k in stakers && k in dropped ==> stakers[k].staked.period != period
  }

  lemma DropKeepsStakes(period: PeriodNumber, ledgers: Ledgers, stakers: Stakers, total: Balance, dropped: set<StakerKey>)
    requires StakesAgree(period, ledgers, stakers, total) && OnlyOld(stakers, dropped, period)
    ensures StakesAgree(period, ledgers, stakers - dropped, total)
  {
    SumDrop(stakers, dropped, StakeIn(period));
    forall a: AccountId
      ensures LedgerOf(ledgers, a).StakedAmount(period) == Sum(stakers - dropped, StakeBy(a, period))
    {
      SumDrop(stakers, dropped, StakeBy(a, period));
    }
  }

  lemma DropKeepsContract(era: EraNumber, period: PeriodNumber, stakers: Stakers, contract: SmartContract, c: ContractStakeAmount,
                          undisturbed: bool, dropped: set<StakerKey>)
    requires ContractSound(era, period, stakers, contract, c, undisturbed) && OnlyOld(stakers, dropped, period)
    ensures ContractSound(era, period, stakers - dropped, contract, c, undisturbed)
  {
    SumDrop(stakers, dropped, StakeOn(contract, period));
    SumDrop(stakers, dropped, StakeNowOn(contract, period, era));
  }

  lemma DropKeepsContracts(era: EraNumber, period: PeriodNumber, integrated: map<SmartContract, DAppId>,
                           contracts: map<DAppId, ContractStakeAmount>, stakers: Stakers,
                           unregistered: map<SmartContract, PeriodNumber>, dropped: set<StakerKey>)
    requires ContractsAgree(era, period, integrated, contracts, stakers, unregistered) && OnlyOld(stakers, dropped, period)
    ensures ContractsAgree(era, period, integrated, contracts, stakers - dropped, unregistered)
  {
    forall c | c in integrated
      ensures ContractSound(era, period, stakers - dropped, c, ContractOf(contracts, integrated[c]), Undisturbed(unregistered, period, c))
    {
      DropKeepsContract(era, period, stakers, c, ContractOf(contracts, integrated[c]), Undisturbed(unregistered, period, c), dropped);
    }
  }

  /** Entries that only lose voting stake of finished periods keep all bonuses bounded. */
  lemma ShrinkKeepsBonuses(period: PeriodNumber, ended: map<PeriodNumber, PeriodEndInfo>, bonuses: seq<BonusReward>, stakers: Stakers, stakers': Stakers)
    requires BonusesOk(period, ended, bonuses, stakers)
    requires forall q :: q in ended ==> Sum(stakers', VotingStake(q)) <= Sum(stakers, VotingStake(q))
    ensures BonusesOk(period, ended, bonuses, stakers')
  {
    forall q | q in ended
      ensures BonusBounded(ended[q], LogSum(bonuses, BonusPaid(q)), LogSum(bonuses, BonusCount(q)), Sum(stakers', VotingStake(q)))
    {
      PoolShrinks(ended[q].bonusRewardPool, ended[q].totalVpStake, LogSum(bonuses, BonusPaid(q)), LogSum(bonuses, BonusCount(q)),
                   Sum(stakers, VotingStake(q)), Sum(stakers', VotingStake(q)));
    }
  }

  lemma DropKeepsVotes(era: EraNumber, info: PeriodInfo, stakers: Stakers, current: StakeAmount, next: StakeAmount,
                       ended: map<PeriodNumber, PeriodEndInfo>, bonuses: seq<BonusReward>,
                       votes: map<PeriodNumber, map<StakerKey, Balance>>, dropped: set<StakerKey>)
    requires VotesCovered(era, info, stakers, current, next)
    requires BonusesOk(info.number, ended, bonuses, stakers)
    requires LoyaltyOk(info, stakers, votes)
    ensures VotesCovered(era, info, stakers - dropped, current, next)
    ensures BonusesOk(info.number, ended, bonuses, stakers - dropped)
    ensures LoyaltyOk(info, stakers - dropped, votes)
  {
    SumDrop(stakers, dropped, VotingStake(info.number));
    forall q | q in ended
      ensures Sum(stakers - dropped, VotingStake(q)) <= Sum(stakers, VotingStake(q))
    {
      SumDrop(stakers, dropped, VotingStake(q));
    }
    ShrinkKeepsBonuses(info.number, ended, bonuses, stakers, stakers - dropped);
  }

  /** An account without stake in the current period has no entry of it. */
  lemma NoStakeNoEntry(era: EraNumber, period: PeriodNumber, ledgers: Ledgers, stakers: Stakers, total: Balance, account: AccountId, key: StakerKey)
    requires StakesAgree(period, ledgers, stakers, total) && StakersOk(era, period, stakers)
    requires LedgerOf(ledgers, account).StakedAmount(period) == 0
    requires key in stakers && key.account == account
    ensures stakers[key].staked.period != period
  {
    assert InfoOk(era, period, stakers[key]);
    if stakers[key].staked.period == period {
      EntryWithinStakes(period, ledgers, stakers, total, key);
    }
  }
}

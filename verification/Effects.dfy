/** What the calls on funds and stakes do to an account, in the amounts it asked for, when
    they are refused, and what they leave to everybody else. */
module Effects {
  import opened Arithmetic
  import opened StakeTypes
  import opened Ledger
  import opened ContractStake
  import opened Protocol
  import opened Invariant
  import opened Frames
  import opened LockSteps
  import opened ContractSteps
  import opened StakeSteps
  import opened Runs
  import opened Bonuses

  // ---------- maintenance ----------

  /** In maintenance mode every call is refused, and a block does nothing. */
  lemma MaintenanceDisables(cfg: Config, s: State, call: Call)
    requires s.protocol.maintenance && !call.CallMaintenance? && !call.CallOnIdle?
    ensures if call.CallOnInitialize? then Next(cfg, s, call) == s.(now := s.now + 1) else Dispatch(cfg, s, call) == Failed(Disabled)
  {
  }

  // ---------- funds ----------

  /** Locking takes the amount asked for, or all that is left of the balance, and the total
      locked amount never exceeds the balance. */
  lemma LockTakesWhatIsLeft(cfg: Config, s: State, account: AccountId, amount: Balance, totalBalance: Balance, allowed: bool, t: State)
    requires Lock(cfg, s, account, amount, totalBalance, allowed) == Done(t)
    ensures var before, after := LedgerOf(s.ledgers, account), LedgerOf(t.ledgers, account);
            && before.locked < after.locked <= before.locked + amount && after == before.(locked := after.locked)
            && after.totalLocked <= totalBalance
            && (after.locked == before.locked + amount || after.totalLocked == totalBalance)
            && FreezeOf(t.freezes, account) == after.totalLocked
            && t.eraInfo.totalLocked == s.eraInfo.totalLocked + (after.locked - before.locked)
  {
  }

  /** It is refused to a newcomer who is not allowed, for nothing to lock, and when less than the
      minimum would be locked. */
  lemma LockSucceedsIff(cfg: Config, s: State, account: AccountId, amount: Balance, totalBalance: Balance, allowed: bool)
    ensures var l := LedgerOf(s.ledgers, account);
            Lock(cfg, s, account, amount, totalBalance, allowed).Done? <==>
              && !s.protocol.maintenance && (!l.IsEmpty() || allowed) && amount > 0 && l.totalLocked < totalBalance
              && l.locked + amount >= cfg.minimumLockedAmount && l.locked + (totalBalance - l.totalLocked) >= cfg.minimumLockedAmount
  {
  }

  /** Unlocking moves the amount asked for, or all that is not staked, and all funds when less
      than the minimum would stay locked. */
  lemma UnlockMovesAmount(cfg: Config, s: State, account: AccountId, amount: Balance, t: State)
    requires Reachable(cfg, s) && Unlock(cfg, s, account, amount) == Done(t)
    ensures UnlocksAmount(cfg, s.protocol.periodInfo.number, LedgerOf(s.ledgers, account), amount, LedgerOf(t.ledgers, account))
  {
    ReachableIsOk(cfg, s);
    UnlockStores(cfg, s, account, amount, t);
  }

  lemma UnlockStores(cfg: Config, s: State, account: AccountId, amount: Balance, t: State)
    requires Inv(cfg, s) && Unlock(cfg, s, account, amount) == Done(t)
    ensures UnlocksAmount(cfg, s.protocol.periodInfo.number, LedgerOf(s.ledgers, account), amount, LedgerOf(t.ledgers, account))
  {
    InvLedgers(cfg, s);
    var period, l := s.protocol.periodInfo.number, LedgerOf(s.ledgers, account);
    LedgerOfIsOk(cfg, s.protocol.era, period, s.ledgers, account);
    UnlockedLedgerIs(cfg, s.protocol.era, period, l, amount, s.now + cfg.UnlockingBlocks());
    var toUnlock := AmountToUnlock(cfg, l, amount, period).value;
    StoredLedger(s.ledgers, account, l.(locked := l.locked - toUnlock, unlocking := WithChunk(l.unlocking, toUnlock, s.now + cfg.UnlockingBlocks())), account);
  }

  predicate UnlocksAmount(cfg: Config, period: PeriodNumber, before: AccountLedger, amount: Balance, after: AccountLedger) {
    var staked := before.StakedAmount(period);
    && after.locked < before.locked && after.totalLocked == before.totalLocked
    && after == before.(locked := after.locked, unlocking := after.unlocking)
    && if after.locked == 0 then staked == 0 && (amount >= before.locked || before.locked - amount < cfg.minimumLockedAmount)
       else && after.locked >= cfg.minimumLockedAmount && after.locked >= staked
            && (after.locked == before.locked - amount || (after.locked == staked && before.locked - staked < amount))
  }

  lemma UnlockedLedgerIs(cfg: Config, era: EraNumber, period: PeriodNumber, l: AccountLedger, amount: Balance, unlockBlock: BlockNumber)
    requires LedgerOk(cfg, era, period, l)
    requires AmountToUnlock(cfg, l, amount, period).Some?
    requires var toUnlock := AmountToUnlock(cfg, l, amount, period).value;
             toUnlock > 0 && l.(locked := SatSub(l.locked, toUnlock)).AddUnlockingChunk(toUnlock, unlockBlock, cfg.maxUnlockingChunks).Ok?
    ensures var toUnlock := AmountToUnlock(cfg, l, amount, period).value;
            var after := l.(locked := SatSub(l.locked, toUnlock)).AddUnlockingChunk(toUnlock, unlockBlock, cfg.maxUnlockingChunks).value;
            UnlocksAmount(cfg, period, l, amount, after) && !after.IsEmpty()
  {
    UnlockedLedger(cfg, era, period, l, amount, unlockBlock);
  }

  /** It is refused exactly when nothing would move, when stake is in the way of moving all
      funds, or when there is no chunk left to put them in. */
  lemma UnlockSucceedsIff(cfg: Config, s: State, account: AccountId, amount: Balance)
    requires Reachable(cfg, s)
    ensures var l, delay := LedgerOf(s.ledgers, account), cfg.blocksPerEra * cfg.unlockingPeriod;
            var staked := l.StakedAmount(s.protocol.periodInfo.number);
            Unlock(cfg, s, account, amount).Done? <==>
              && !s.protocol.maintenance && l.locked > 0 && amount > 0
              && (HasChunk(l.unlocking, s.now + delay) || |l.unlocking| < cfg.maxUnlockingChunks)
              && (staked > 0 ==>
                    && staked < l.locked
                    && (l.locked - amount >= cfg.minimumLockedAmount || (l.locked - amount <= staked && staked >= cfg.minimumLockedAmount)))
  {
    ReachableIsOk(cfg, s);
    InvLedgers(cfg, s);
    LedgerOfIsOk(cfg, s.protocol.era, s.protocol.periodInfo.number, s.ledgers, account);
  }

  /** Relocking locks everything that is unlocking again, exactly when that makes the minimum. */
  lemma RelockMovesEverything(cfg: Config, s: State, account: AccountId)
    requires Reachable(cfg, s)
    ensures var r, before := RelockUnlocking(cfg, s, account), LedgerOf(s.ledgers, account);
            && (r.Done? <==> !s.protocol.maintenance && |before.unlocking| > 0 && before.totalLocked >= cfg.minimumLockedAmount)
            && (r.Done? ==>
                  var after := LedgerOf(r.state.ledgers, account);
                  && after == before.(locked := before.totalLocked, unlocking := [])
                  && r.state.eraInfo.totalLocked + r.state.eraInfo.unlocking == s.eraInfo.totalLocked + s.eraInfo.unlocking)
  {
    ReachableIsOk(cfg, s);
    InvLedgers(cfg, s);
    LedgerWithinFunds(s.ledgers, s.freezes, s.eraInfo.totalLocked, s.eraInfo.unlocking, account);
  }

  // ---------- stakes ----------

  /** Voting stake of an entry, if it is one of the given period, and its total. */
  function VotingOf(stakers: Stakers, key: StakerKey, period: PeriodNumber): Balance {
    if key in stakers && stakers[key].staked.period == period then stakers[key].staked.voting else 0
  }

  function TotalOf(stakers: Stakers, key: StakerKey, period: PeriodNumber): Balance {
    if key in stakers && stakers[key].staked.period == period then stakers[key].staked.total else 0
  }

  /** Only the entry of `key` changes. */
  ghost predicate OnlyEntry(stakers: Stakers, stakers': Stakers, key: StakerKey) {
    forall k :: k != key ==> (k in stakers <==> k in stakers') && (k in stakers ==> stakers'[k] == stakers[k])
  }

  /** A stake adds the amount to the entry, as voting stake exactly in the Voting subperiod, and
      keeps its loyalty; a new entry is loyal exactly in the Voting subperiod. */
  lemma StakeAddsToEntry(cfg: Config, s: State, account: AccountId, contract: SmartContract, amount: Balance, t: State)
    requires Reachable(cfg, s) && Stake(cfg, s, account, contract, amount) == Done(t)
    ensures var key := StakerKey(account, contract);
            && OnlyEntry(s.stakers, t.stakers, key)
            && AddsToEntry(s.protocol.era, s.protocol.periodInfo, s.stakers, t.stakers, key, amount)
            && TotalOf(t.stakers, key, s.protocol.periodInfo.number) >= cfg.minimumStakeAmount
  {
    ReachableIsOk(cfg, s);
    StakeIs(cfg, s, account, contract, amount);
    EntryGrows(cfg, s, StakerKey(account, contract), amount);
  }

  ghost predicate AddsToEntry(era: EraNumber, info: PeriodInfo, stakers: Stakers, stakers': Stakers, key: StakerKey, amount: Balance) {
    && key in stakers' && stakers'[key].staked.period == info.number && stakers'[key].staked.era == era + 1
    && TotalOf(stakers', key, info.number) == TotalOf(stakers, key, info.number) + amount
    && VotingOf(stakers', key, info.number) == VotingOf(stakers, key, info.number) + (if info.subperiod == Voting then amount else 0)
    && (stakers'[key].loyalStaker <==>
          if key in stakers && stakers[key].staked.period == info.number then stakers[key].loyalStaker else info.subperiod == Voting)
  }

  lemma EntryGrows(cfg: Config, s: State, key: StakerKey, amount: Balance)
    requires Inv(cfg, s) && EntryForStake(cfg, s, key).Some? && amount > 0
    ensures var after := EntryForStake(cfg, s, key).value.0.Stake(amount, s.protocol.era, s.protocol.periodInfo.subperiod);
            AddsToEntry(s.protocol.era, s.protocol.periodInfo, s.stakers, s.stakers[key := after], key, amount)
  {
    EntryForStakeIs(cfg, s, key);
    InvClock(cfg, s);
    StakeKeepsInfo(EntryForStake(cfg, s, key).value.0, amount, s.protocol.era, s.protocol.periodInfo);
  }

  /** And it adds the amount to the ledger, the contract and the totals of the next era. */
  lemma StakeAddsToTotals(cfg: Config, s: State, account: AccountId, contract: SmartContract, amount: Balance, t: State)
    requires Reachable(cfg, s) && Stake(cfg, s, account, contract, amount) == Done(t)
    ensures var before, after, period := LedgerOf(s.ledgers, account), LedgerOf(t.ledgers, account), s.protocol.periodInfo.number;
            && after.StakedAmount(period) == before.StakedAmount(period) + amount <= before.locked
            && after.locked == before.locked && after.unlocking == before.unlocking
            && t.eraInfo == s.eraInfo.(nextStakeAmount := t.eraInfo.nextStakeAmount)
            && t.eraInfo.nextStakeAmount.total == s.eraInfo.nextStakeAmount.total + amount
            && contract in s.integrated
            && var id := s.integrated[contract];
               && id in t.contracts && t.contracts == s.contracts[id := t.contracts[id]]
               && t.contracts[id].TotalStaked(period) == ContractOf(s.contracts, id).TotalStaked(period) + amount
  {
    ReachableIsOk(cfg, s);
    StakeIs(cfg, s, account, contract, amount);
    var (entry, isNew) := EntryForStake(cfg, s, StakerKey(account, contract)).value;
    LedgerAfterStakeIs(cfg, s, account, amount, isNew);
    StoredLedger(s.ledgers, account, LedgerAfterStake(cfg, s, account, amount, isNew).value, account);
    InvClock(cfg, s);
    InvContracts(cfg, s);
    StakeKeepsContract(ContractOf(s.contracts, s.integrated[contract]), amount, s.protocol.era, s.protocol.periodInfo);
  }

  /** A stake is refused exactly for an unknown contract, in the last era of a period, over
      unclaimed rewards, for more than is locked, below the minimum, or on too many contracts. */
  lemma StakeSucceedsIff(cfg: Config, s: State, account: AccountId, contract: SmartContract, amount: Balance)
    requires Reachable(cfg, s)
    ensures var l, info, key := LedgerOf(s.ledgers, account), s.protocol.periodInfo, StakerKey(account, contract);
            Stake(cfg, s, account, contract, amount).Done? <==>
              && !s.protocol.maintenance && amount > 0 && contract in s.integrated && !info.IsNextPeriod(s.protocol.era + 1)
              && !HasUnclaimedEras(cfg, s, account) && !HasUnclaimedBonus(cfg, s, key)
              && l.StakedAmount(info.number) + amount <= l.locked
              && TotalOf(s.stakers, key, info.number) + amount >= cfg.minimumStakeAmount
              && (TotalOf(s.stakers, key, info.number) > 0 || l.contractStakeCount < cfg.maxNumberOfStakedContracts)
  {
    ReachableIsOk(cfg, s);
    var key := StakerKey(account, contract);
    BonusIsInTheWayIff(cfg, s, key);
    if amount > 0 {
      LedgerRefusesIff(cfg, s, account, amount);
      if EntryForStake(cfg, s, key).Some? {
        EntryGrows(cfg, s, key, amount);
      }
    }
  }

  lemma BonusIsInTheWayIff(cfg: Config, s: State, key: StakerKey)
    requires Inv(cfg, s)
    ensures EntryForStake(cfg, s, key).None? <==> HasUnclaimedBonus(cfg, s, key)
    ensures EntryForStake(cfg, s, key).Some? ==>
              (EntryForStake(cfg, s, key).value.1 <==> TotalOf(s.stakers, key, s.protocol.periodInfo.number) == 0)
  {
    InvStakes(cfg, s);
    if key in s.stakers {
      assert InfoOk(s.protocol.era, s.protocol.periodInfo.number, s.stakers[key]);
    }
  }

  /** An unstake takes the amount out of the entry, or all of it exactly when less than the
      minimum would be left. The entry stays loyal exactly when it was, and some of its voting
      stake is left during the Voting subperiod, or all of it later on. */
  lemma UnstakeTakesFromEntry(cfg: Config, s: State, account: AccountId, contract: SmartContract, amount: Balance, t: State)
    requires Reachable(cfg, s) && Unstake(cfg, s, account, contract, amount) == Done(t)
    ensures var key := StakerKey(account, contract);
            && key in s.stakers && s.stakers[key].staked.period == s.protocol.periodInfo.number
            && OnlyEntry(s.stakers, t.stakers, key)
            && TakesFromEntry(cfg, s.protocol.periodInfo, s.stakers[key], amount, t.stakers, key)
  {
    var key, info := StakerKey(account, contract), s.protocol.periodInfo;
    ReachableIsOk(cfg, s);
    UnstakeIs(cfg, s, account, contract, amount);
    InvStakes(cfg, s);
    EntryShrinks(cfg, s.protocol.era, info, s.stakers, key, amount);
  }

  predicate TakesFromEntry(cfg: Config, info: PeriodInfo, before: StakingInfo, amount: Balance, stakers: Stakers, key: StakerKey) {
    && 0 < amount <= before.staked.total
    && (key !in stakers <==> before.staked.total - amount < cfg.minimumStakeAmount)
    && (key in stakers ==>
          var after := stakers[key];
          && after.staked.period == info.number && after.staked.total == before.staked.total - amount
          && after.staked.voting == Min(before.staked.voting, before.staked.total - amount)
          && (after.loyalStaker <==>
                before.loyalStaker && if info.subperiod == Voting then after.staked.voting > 0 else after.staked.voting == before.staked.voting))
  }

  lemma EntryShrinks(cfg: Config, era: EraNumber, info: PeriodInfo, stakers: Stakers, key: StakerKey, amount: Balance)
    requires era >= 1 && key in stakers && InfoOk(era, info.number, stakers[key]) && stakers[key].staked.period == info.number
    requires 0 < amount <= stakers[key].staked.total
    ensures var after := stakers[key].Unstake(AmountToUnstake(cfg, stakers[key], amount), era, info.subperiod).0;
            TakesFromEntry(cfg, info, stakers[key], amount, AfterUnstake(stakers, key, after), key)
  {
    var toUnstake := AmountToUnstake(cfg, stakers[key], amount);
    UnstakeKeepsInfo(stakers[key], toUnstake, era, info);
    UnstakeLoyalty(stakers[key], toUnstake, era, info.subperiod);
  }

  lemma UnstakeLoyalty(info: StakingInfo, amount: Balance, era: EraNumber, subperiod: Subperiod)
    ensures var after := info.Unstake(amount, era, subperiod).0;
            !after.staked.IsEmpty() ==>
              (after.loyalStaker <==> info.loyalStaker && if subperiod == Voting then after.staked.voting > 0 else after.staked.voting == info.staked.voting)
  {
  }

  /** It takes the same out of the ledger and the totals of the next era. */
  lemma UnstakeTakesFromTotals(cfg: Config, s: State, account: AccountId, contract: SmartContract, amount: Balance, t: State)
    requires Reachable(cfg, s) && Unstake(cfg, s, account, contract, amount) == Done(t)
    ensures var before, after, info := LedgerOf(s.ledgers, account), LedgerOf(t.ledgers, account), s.protocol.periodInfo;
            var entry := s.stakers[StakerKey(account, contract)];
            var taken := if entry.staked.total - amount < cfg.minimumStakeAmount then entry.staked.total else amount;
            && after.StakedAmount(info.number) + taken == before.StakedAmount(info.number)
            && after.locked == before.locked && after.unlocking == before.unlocking
            && t.eraInfo.nextStakeAmount.total + taken == s.eraInfo.nextStakeAmount.total
            && t.eraInfo.totalLocked == s.eraInfo.totalLocked && t.eraInfo.unlocking == s.eraInfo.unlocking
  {
    var key, info := StakerKey(account, contract), s.protocol.periodInfo;
    ReachableIsOk(cfg, s);
    UnstakeIs(cfg, s, account, contract, amount);
    var toUnstake := AmountToUnstake(cfg, s.stakers[key], amount);
    LedgerGivesUp(cfg, s, key, toUnstake, s.stakers[key].Unstake(toUnstake, s.protocol.era, info.subperiod).0);
  }

  /** The ledger stored for an unstake, and the totals, have that much less staked. */
  lemma LedgerGivesUp(cfg: Config, s: State, key: StakerKey, amount: Balance, entry: StakingInfo)
    requires Inv(cfg, s) && key in s.stakers && s.stakers[key].staked.period == s.protocol.periodInfo.number
    requires 0 < amount <= s.stakers[key].staked.total
    requires LedgerOf(s.ledgers, key.account).UnstakeAmount(amount, s.protocol.era, s.protocol.periodInfo).Ok?
    ensures var before, info := LedgerOf(s.ledgers, key.account), s.protocol.periodInfo;
            var l := Recounted(before.UnstakeAmount(amount, s.protocol.era, info).value, entry);
            var after := LedgerOf(StoreLedger(s.ledgers, key.account, l), key.account);
            && after.StakedAmount(info.number) + amount == before.StakedAmount(info.number)
            && after.locked == before.locked && after.unlocking == before.unlocking
            && s.eraInfo.nextStakeAmount.Subtract(amount).total + amount == s.eraInfo.nextStakeAmount.total
  {
    var info := s.protocol.periodInfo;
    LedgerAfterUnstakeIs(cfg, s, key.account, amount);
    var l := LedgerOf(s.ledgers, key.account).UnstakeAmount(amount, s.protocol.era, info).value;
    StoredLedger(s.ledgers, key.account, Recounted(l, entry), key.account);
    InvStakes(cfg, s);
    EntryWithinStakes(info.number, s.ledgers, s.stakers, s.eraInfo.nextStakeAmount.total, key);
  }

  /** It is refused exactly for an unknown contract, without an entry of the current period, for
      more than the entry has, and over unclaimed eras. */
  lemma UnstakeSucceedsIff(cfg: Config, s: State, account: AccountId, contract: SmartContract, amount: Balance)
    requires Reachable(cfg, s)
    ensures Unstake(cfg, s, account, contract, amount).Done? <==>
              && !s.protocol.maintenance && contract in s.integrated
              && 0 < amount <= TotalOf(s.stakers, StakerKey(account, contract), s.protocol.periodInfo.number)
              && LedgerOf(s.ledgers, account).EarliestStakedEra().Some?
              && LedgerOf(s.ledgers, account).EarliestStakedEra().value >= s.protocol.era
  {
    ReachableIsOk(cfg, s);
    var key := StakerKey(account, contract);
    if key in s.stakers && s.stakers[key].staked.period == s.protocol.periodInfo.number && 0 < amount <= s.stakers[key].staked.total {
      PartIsStaked(cfg, s, key, AmountToUnstake(cfg, s.stakers[key], amount));
    }
  }

  lemma PartIsStaked(cfg: Config, s: State, key: StakerKey, amount: Balance)
    requires Inv(cfg, s) && key in s.stakers && s.stakers[key].staked.period == s.protocol.periodInfo.number
    requires 0 < amount <= s.stakers[key].staked.total
    ensures var l := LedgerOf(s.ledgers, key.account);
            && l.EarliestStakedEra().Some?
            && (l.UnstakeAmount(amount, s.protocol.era, s.protocol.periodInfo).Ok? <==> l.EarliestStakedEra().value >= s.protocol.era)
  {
    InvStakes(cfg, s);
    var l := LedgerOf(s.ledgers, key.account);
    LedgerOfIsOk(cfg, s.protocol.era, s.protocol.periodInfo.number, s.ledgers, key.account);
    EntryWithinStakes(s.protocol.periodInfo.number, s.ledgers, s.stakers, s.eraInfo.nextStakeAmount.total, key);
    CheckFindsUnclaimedEras(cfg.erasPerBuildAndEarn, s.protocol.era, s.protocol.periodInfo, l);
  }

  /** Unstaking from an unregistered contract removes the whole entry and its stake. */
  lemma UnstakeFromUnregisteredTakesAll(cfg: Config, s: State, account: AccountId, contract: SmartContract, t: State)
    requires Reachable(cfg, s) && UnstakeFromUnregistered(s, account, contract) == Done(t)
    ensures var key, period := StakerKey(account, contract), s.protocol.periodInfo.number;
            && key in s.stakers && t.stakers == s.stakers - {key} && t.contracts == s.contracts
            && LedgerOf(t.ledgers, account).StakedAmount(period) + s.stakers[key].staked.total == LedgerOf(s.ledgers, account).StakedAmount(period)
            && t.eraInfo.nextStakeAmount.total + s.stakers[key].staked.total == s.eraInfo.nextStakeAmount.total
  {
    var key, info := StakerKey(account, contract), s.protocol.periodInfo;
    ReachableIsOk(cfg, s);
    WholeEntry(cfg, s, key);
    LedgerAfterUnstakeIs(cfg, s, account, s.stakers[key].staked.total);
    StoredLedger(s.ledgers, account, LedgerOf(s.ledgers, account).UnstakeAmount(s.stakers[key].staked.total, s.protocol.era, info).value, account);
    InvStakes(cfg, s);
    EntryWithinStakes(info.number, s.ledgers, s.stakers, s.eraInfo.nextStakeAmount.total, key);
  }

  /** A cleanup succeeds exactly when the account has an entry of an earlier period whose bonus
      cannot be claimed. */
  lemma CleanupSucceedsIff(cfg: Config, s: State, account: AccountId)
    ensures CleanupExpiredEntries(cfg, s, account).Done? <==>
              && !s.protocol.maintenance
              && exists k :: && k in s.stakers && k.account == account && s.stakers[k].staked.period < s.protocol.periodInfo.number
                             && !HasUnclaimedBonus(cfg, s, k)
  {
    var expired := ExpiredKeys(cfg, s, account);
    if |expired| > 0 {
      var k :| k in expired;
      assert k in s.stakers;
    }
    forall k | k in s.stakers && k.account == account && s.stakers[k].staked.period < s.protocol.periodInfo.number && !HasUnclaimedBonus(cfg, s, k)
      ensures |expired| > 0
    {
      assert k in expired;
    }
  }

  // ---------- contracts ----------

  /** Registering gives the next id, unless the contract is known or there is no room or no id. */
  lemma RegisterGivesNextId(cfg: Config, s: State, contract: SmartContract)
    ensures var r := Register(cfg, s, contract);
            && (r.Done? <==> && !s.protocol.maintenance && contract !in s.integrated
                             && |s.integrated| < cfg.maxNumberOfContracts && s.nextDAppId < 0xFFFF)
            && (r.Done? ==> r.state == s.(integrated := s.integrated[contract := s.nextDAppId], nextDAppId := s.nextDAppId + 1))
  {
  }
}

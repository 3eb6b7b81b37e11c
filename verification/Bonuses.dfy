/** What a bonus claim pays, and that a bonus once earned stays there to be claimed. */
module Bonuses {
  import opened Arithmetic
  import opened StakeTypes
  import opened Pools
  import opened Calendar
  import opened Ledger
  import opened ContractStake
  import opened Protocol
  import opened Invariant
  import opened Frames
  import opened StakeSteps
  import opened RewardSteps
  import opened EraSteps
  import opened Runs

  // ---------- what a claim pays ----------

  /** A bonus claim is paid once, and in proportion to the voting stake of the entry in the one
      recorded when its period ended. */
  lemma BonusIsProRata(cfg: Config, s: State, account: AccountId, contract: SmartContract, payoutOk: bool, t: State)
    requires Reachable(cfg, s) && ClaimBonusReward(cfg, s, account, contract, payoutOk) == Done(t)
    ensures var key := StakerKey(account, contract);
            && key in s.stakers && key !in t.stakers && s.stakers[key].staked.period in s.trace.ended
            && var period, end := s.stakers[key].staked.period, s.trace.ended[s.stakers[key].staked.period];
               exists e: BonusReward ::
                 && t.trace.bonuses == s.trace.bonuses + [e]
                 && e.account == account && e.contract == contract && e.period == period
                 && IsShare(s.stakers[key].staked.voting, end.totalVpStake, end.bonusRewardPool, e.amount)
  {
    ReachableIsOk(cfg, s);
    var key := StakerKey(account, contract);
    BonusIsClaimable(cfg, s, key);
    var period := s.stakers[key].staked.period;
    var end := s.trace.ended[period];
    var bonus := ProRata(PERBILL, s.stakers[key].staked.voting, end.totalVpStake, end.bonusRewardPool);
    ProRataIsShare(s.stakers[key].staked.voting, end.totalVpStake, end.bonusRewardPool);
    assert t.trace.bonuses == s.trace.bonuses + [BonusReward(account, contract, period, bonus)];
  }

  // ---------- a claimable bonus stays claimable ----------

  /** The calls that may take a loyal entry of an earlier period away: its own claim, and the
      withdrawal of all funds, which clears entries of the account. */
  predicate MayTake(key: StakerKey, call: Call) {
    match call
    case CallClaimBonus(a, c, payoutOk) => StakerKey(a, c) == key && payoutOk
    case CallClaimUnlocked(a, cleared) => a == key.account && key.contract in cleared
    case _ => false
  }

  /** The entry is unchanged, unless its period is beyond the retention window. */
  ghost predicate Outlives(cfg: Config, s: State, t: State, key: StakerKey)
    requires key in s.stakers
  {
    && s.protocol.periodInfo.number <= t.protocol.periodInfo.number
    && (cfg.OldestClaimablePeriod(t.protocol.periodInfo.number) <= s.stakers[key].staked.period ==>
          key in t.stakers && t.stakers[key] == s.stakers[key])
  }

  predicate LoyalInPast(s: State, key: StakerKey) {
    key in s.stakers && s.stakers[key].loyalStaker && s.stakers[key].staked.period < s.protocol.periodInfo.number
  }

  /** The calls that leave all entries alone. */
  predicate IsQuiet(call: Call) {
    || call.CallMaintenance? || call.CallRegister? || call.CallUnregister? || call.CallLock? || call.CallUnlock?
    || call.CallRelock? || call.CallClaimStaker? || call.CallClaimDApp? || call.CallOnIdle?
  }

  lemma QuietCallKeepsEntries(cfg: Config, s: State, call: Call, t: State)
    requires IsQuiet(call) && Dispatch(cfg, s, call) == Done(t)
    ensures t.stakers == s.stakers && t.protocol.periodInfo == s.protocol.periodInfo
  {
  }

  /** The calls that may remove entries of earlier periods. */
  predicate MayDrop(call: Call) {
    call.CallClaimUnlocked? || call.CallUnstakeFromUnregistered? || call.CallCleanupExpired? || call.CallClaimBonus?
  }

  lemma DroppingCallLeavesEntry(cfg: Config, s: State, call: Call, t: State, key: StakerKey)
    requires MayDrop(call) && Dispatch(cfg, s, call) == Done(t)
    ensures t.protocol == s.protocol
    ensures LoyalInPast(s, key) && !MayTake(key, call) ==> Outlives(cfg, s, t, key)
  {
    assert key == StakerKey(key.account, key.contract);
  }

  lemma StakeLeavesEntry(cfg: Config, s: State, account: AccountId, contract: SmartContract, amount: Balance, key: StakerKey)
    requires Stake(cfg, s, account, contract, amount).Done?
    ensures Stake(cfg, s, account, contract, amount).state.protocol == s.protocol
    ensures LoyalInPast(s, key) ==> Outlives(cfg, s, Stake(cfg, s, account, contract, amount).state, key)
  {
    StakeIs(cfg, s, account, contract, amount);
  }

  lemma UnstakeLeavesEntry(cfg: Config, s: State, account: AccountId, contract: SmartContract, amount: Balance, key: StakerKey)
    requires Unstake(cfg, s, account, contract, amount).Done?
    ensures Unstake(cfg, s, account, contract, amount).state.protocol == s.protocol
    ensures LoyalInPast(s, key) ==> Outlives(cfg, s, Unstake(cfg, s, account, contract, amount).state, key)
  {
    UnstakeIs(cfg, s, account, contract, amount);
  }

  /** Periods only move on, and no other call touches the entry. */
  lemma CallLeavesEntry(cfg: Config, s: State, call: Call, t: State, key: StakerKey)
    requires t == Next(cfg, s, call)
    ensures s.protocol.periodInfo.number <= t.protocol.periodInfo.number
    ensures LoyalInPast(s, key) && !MayTake(key, call) ==> Outlives(cfg, s, t, key)
  {
    if Dispatch(cfg, s, call).Done? {
      if IsQuiet(call) {
        QuietCallKeepsEntries(cfg, s, call, t);
      } else if MayDrop(call) {
        DroppingCallLeavesEntry(cfg, s, call, t, key);
      } else {
        match call
        case CallStake(a, c, amount) => StakeLeavesEntry(cfg, s, a, c, amount, key);
        case CallUnstake(a, c, amount) => UnstakeLeavesEntry(cfg, s, a, c, amount, key);
        case CallOnInitialize(inputs) => BlockPasses(cfg, s, inputs, t);
      }
    }
  }

  lemma {:induction false} RunLeavesEntry(cfg: Config, s: State, calls: seq<Call>, t: State, key: StakerKey)
    requires LoyalInPast(s, key) && t == Execute(cfg, s, calls)
    requires forall i :: 0 <= i < |calls| ==> !MayTake(key, calls[i])
    ensures Outlives(cfg, s, t, key)
    decreases |calls|
  {
    if |calls| > 0 {
      var before := Execute(cfg, s, calls[..|calls| - 1]);
      RunLeavesEntry(cfg, s, calls[..|calls| - 1], before, key);
      CallLeavesEntry(cfg, before, calls[|calls| - 1], t, key);
    }
  }

  /** A bonus that can be claimed can still be claimed after any further calls, as long as the
      pallet is enabled and the period within the retention window. Only claiming it, or
      withdrawing all funds of the account, may change that. */
  lemma ClaimableBonusStaysClaimable(cfg: Config, s: State, account: AccountId, contract: SmartContract, calls: seq<Call>)
    requires Reachable(cfg, s) && ClaimBonusReward(cfg, s, account, contract, true).Done? && ValidRun(cfg, s, calls)
    requires forall i :: 0 <= i < |calls| ==> !MayTake(StakerKey(account, contract), calls[i])
    ensures var t, period := Execute(cfg, s, calls), s.stakers[StakerKey(account, contract)].staked.period;
            !t.protocol.maintenance && cfg.OldestClaimablePeriod(t.protocol.periodInfo.number) <= period ==>
              ClaimBonusReward(cfg, t, account, contract, true).Done?
  {
    var t := Execute(cfg, s, calls);
    ClaimBonusSucceedsIff(cfg, s, account, contract, true);
    RunLeavesEntry(cfg, s, calls, t, StakerKey(account, contract));
    RunIsReachable(cfg, s, calls);
    ClaimBonusSucceedsIff(cfg, t, account, contract, true);
  }

  // ---------- staking over unclaimed rewards ----------

  /** The account has unclaimed finished eras of a period that can still be claimed. */
  predicate HasUnclaimedEras(cfg: Config, s: State, account: AccountId) {
    var l := LedgerOf(s.ledgers, account);
    && l.EarliestStakedEra().Some? && l.EarliestStakedEra().value < s.protocol.era
    && l.StakedPeriod().Some? && cfg.OldestClaimablePeriod(s.protocol.periodInfo.number) <= l.StakedPeriod().value
  }

  /** The entry has a bonus of an earlier period that can still be claimed. */
  predicate HasUnclaimedBonus(cfg: Config, s: State, key: StakerKey) {
    && key in s.stakers && s.stakers[key].loyalStaker
    && cfg.OldestClaimablePeriod(s.protocol.periodInfo.number) <= s.stakers[key].staked.period < s.protocol.periodInfo.number
  }

  /** A sound ledger has its entries in the current period, or unclaimed eras. */
  lemma CheckFindsUnclaimedEras(length: nat, era: EraNumber, info: PeriodInfo, l: AccountLedger)
    requires ClockOk(length, era, info) && EntriesOk(era, l) && PeriodsOk(length, info.number, l)
    ensures l.StakeUnstakeCheck(era, info)
            == if l.EarliestStakedEra().Some? && l.EarliestStakedEra().value < era then Some(InvalidEra) else None
  {
    if l.EarliestStakedEra().Some? && l.EarliestStakedEra().value >= era {
      var first, period := l.EarliestStakedEra().value, l.StakedPeriod().value;
      if period < info.number {
        EarlierPeriodEarlierEra(length, first, period, era, info.number);
      }
    }
  }

  /** The ledger refuses more stake for unclaimed eras exactly when there are some, and for
      missing funds exactly when what is locked and not yet staked is too little. */
  lemma LedgerRefusesIff(cfg: Config, s: State, account: AccountId, amount: Balance)
    requires Inv(cfg, s) && amount > 0
    ensures var info, l := s.protocol.periodInfo, LedgerOf(s.ledgers, account);
            var r := l.MaybeCleanupExpired(cfg.OldestClaimablePeriod(info.number)).AddStakeAmount(amount, s.protocol.era, info);
            && (r.Err? ==> r.error in {InvalidEra, UnavailableStakeFunds})
            && (r.Err? && r.error == InvalidEra <==> HasUnclaimedEras(cfg, s, account))
            && (r.Err? && r.error == UnavailableStakeFunds <==>
                  !HasUnclaimedEras(cfg, s, account) && l.locked < l.StakedAmount(info.number) + amount)
  {
    InvStakes(cfg, s);
    var info, l := s.protocol.periodInfo, LedgerOf(s.ledgers, account);
    LedgerOfIsOk(cfg, s.protocol.era, info.number, s.ledgers, account);
    var cleaned := l.MaybeCleanupExpired(cfg.OldestClaimablePeriod(info.number));
    CleanupKeepsLedger(cfg, s.protocol.era, info.number, l, cfg.OldestClaimablePeriod(info.number));
    CheckFindsUnclaimedEras(cfg.erasPerBuildAndEarn, s.protocol.era, info, cleaned);
  }

  /** Staking reports unclaimed rewards exactly for an account with unclaimed eras, or with
      enough funds but an unclaimed bonus on the contract. */
  lemma StakeReportsUnclaimedIff(cfg: Config, s: State, account: AccountId, contract: SmartContract, amount: Balance)
    requires Reachable(cfg, s)
    ensures var l, info := LedgerOf(s.ledgers, account), s.protocol.periodInfo;
            Stake(cfg, s, account, contract, amount) == Failed(UnclaimedRewards) <==>
              && !s.protocol.maintenance && amount > 0 && contract in s.integrated && !info.IsNextPeriod(s.protocol.era + 1)
              && (|| HasUnclaimedEras(cfg, s, account)
                  || (l.StakedAmount(info.number) + amount <= l.locked && HasUnclaimedBonus(cfg, s, StakerKey(account, contract))))
  {
    ReachableIsOk(cfg, s);
    InvStakes(cfg, s);
    if StakerKey(account, contract) in s.stakers {
      assert InfoOk(s.protocol.era, s.protocol.periodInfo.number, s.stakers[StakerKey(account, contract)]);
    }
    if amount > 0 {
      LedgerRefusesIff(cfg, s, account, amount);
    }
  }

  /** That is, exactly while a claim of the account would succeed. */
  lemma UnclaimedMeansClaimable(cfg: Config, s: State, account: AccountId, contract: SmartContract)
    requires Reachable(cfg, s) && !s.protocol.maintenance
    ensures HasUnclaimedEras(cfg, s, account) <==> ClaimStakerRewards(cfg, s, account, true).Done?
    ensures HasUnclaimedBonus(cfg, s, StakerKey(account, contract)) <==> ClaimBonusReward(cfg, s, account, contract, true).Done?
  {
    ClaimStakerSucceedsIff(cfg, s, account, true);
    ClaimBonusSucceedsIff(cfg, s, account, contract, true);
  }
}

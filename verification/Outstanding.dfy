/** The stake of an era that no claim has covered yet, and what every call does to it. */
module Outstanding {
  import opened Arithmetic
  import opened StakeTypes
  import opened MapSums
  import opened Calendar
  import opened Ledger
  import opened Protocol
  import opened Invariant
  import opened Frames
  import opened StakeSteps
  import opened RewardSteps

  /** The stake of one ledger in era `x`, if its claims have not got that far. */
  function UnclaimedIn(length: nat, l: AccountLedger, x: EraNumber): Balance {
    if l.EarliestStakedEra().Some? && l.EarliestStakedEra().value <= x <= FinalEra(length, l.StakedPeriod().value)
    then l.StakeAt(x) else 0
  }

  ghost function Unclaimed(length: nat, x: EraNumber): (AccountId, AccountLedger) -> nat {
    (a: AccountId, l: AccountLedger) => UnclaimedIn(length, l, x)
  }

  /** The stake of all accounts in era `x` that is still to be claimed. For the current era
      this is all stake in force. */
  ghost function OutstandingIn(length: nat, ledgers: Ledgers, x: EraNumber): Balance {
    Sum(ledgers, Unclaimed(length, x))
  }

  // ---------- one ledger ----------

  lemma CleanupUnclaimed(cfg: Config, era: EraNumber, period: PeriodNumber, l: AccountLedger, threshold: PeriodNumber, x: EraNumber)
    requires LedgerOk(cfg, era, period, l) && threshold <= period && InPeriod(cfg.erasPerBuildAndEarn, era, period)
    ensures var length, after := cfg.erasPerBuildAndEarn, l.MaybeCleanupExpired(threshold);
            UnclaimedIn(length, after, x) <= UnclaimedIn(length, l, x)
            && (x == era ==> UnclaimedIn(length, after, x) == UnclaimedIn(length, l, x))
  {
    if l.StakedPeriod().Some? && l.StakedPeriod().value < threshold {
      FinalEraIsMonotone(cfg.erasPerBuildAndEarn, l.StakedPeriod().value, period - 1);
    }
  }

  lemma StakeUnclaimed(cfg: Config, era: EraNumber, info: PeriodInfo, l: AccountLedger, amount: Balance, x: EraNumber)
    requires LedgerOk(cfg, era, info.number, l) && InPeriod(cfg.erasPerBuildAndEarn, era, info.number) && x <= era
    requires amount > 0 && l.AddStakeAmount(amount, era, info).Ok?
    ensures var length, after := cfg.erasPerBuildAndEarn, l.AddStakeAmount(amount, era, info).value;
            UnclaimedIn(length, after, x) == UnclaimedIn(length, l, x)
  {
  }

  /** An unstake takes its amount out of the current era as far as it is in force there, and
      leaves no earlier era to claim. */
  lemma UnstakeUnclaimed(cfg: Config, era: EraNumber, info: PeriodInfo, l: AccountLedger, amount: Balance, x: EraNumber)
    requires LedgerOk(cfg, era, info.number, l) && InPeriod(cfg.erasPerBuildAndEarn, era, info.number) && x <= era
    requires amount > 0 && l.UnstakeAmount(amount, era, info).Ok?
    ensures var length, after := cfg.erasPerBuildAndEarn, l.UnstakeAmount(amount, era, info).value;
            && UnclaimedIn(length, l, era) == l.StakeAt(era)
            && UnclaimedIn(length, after, x) == if x == era then SatSub(UnclaimedIn(length, l, x), amount) else UnclaimedIn(length, l, x)
  {
    var after := l.UnstakeAmount(amount, era, info).value;
    assert after.staked.total == SatSub(l.staked.total, amount);
    if l.stakedFuture.Some? {
      assert l.stakedFuture.value.Subtract(amount).total == l.stakedFuture.value.total - amount;
    }
  }

  /** A claim covers the eras up to its last one and leaves the later ones. */
  lemma ClaimUnclaimed(cfg: Config, era: EraNumber, period: PeriodNumber, l: AccountLedger, last: EraNumber, periodEnd: Option<EraNumber>, x: EraNumber)
    requires LedgerOk(cfg, era, period, l) && l.StakedPeriod().Some? && l.ClaimUpToEra(last, periodEnd).Ok?
    requires last < era && last <= FinalEra(cfg.erasPerBuildAndEarn, l.StakedPeriod().value)
    requires periodEnd.Some? ==> periodEnd.value == FinalEra(cfg.erasPerBuildAndEarn, l.StakedPeriod().value)
    ensures var length, after := cfg.erasPerBuildAndEarn, l.ClaimUpToEra(last, periodEnd).value.0;
            var claimed := l.EarliestStakedEra().value <= x <= last;
            && (claimed ==> UnclaimedIn(length, l, x) == l.StakeAt(x))
            && UnclaimedIn(length, after, x) == if claimed then 0 else UnclaimedIn(length, l, x)
  {
  }

  /** When an era ends, the stake in force in the next one is what the ledgers have staked
      for it in its period. */
  lemma NextUnclaimed(cfg: Config, era: EraNumber, info: PeriodInfo, l: AccountLedger)
    requires LedgerOk(cfg, era, info.number, l) && ClockOk(cfg.erasPerBuildAndEarn, era, info)
    ensures UnclaimedIn(cfg.erasPerBuildAndEarn, l, era + 1) == if LastEra(era, info) then 0 else l.StakedAmount(info.number)
  {
    var length := cfg.erasPerBuildAndEarn;
    if l.StakedPeriod().Some? {
      FinalEraIsMonotone(length, l.StakedPeriod().value, info.number);
      if l.StakedPeriod().value < info.number {
        FinalEraIsMonotone(length, l.StakedPeriod().value, info.number - 1);
      }
    }
  }

  // ---------- all ledgers ----------

  lemma StoreOutstanding(length: nat, ledgers: Ledgers, account: AccountId, l: AccountLedger, x: EraNumber)
    ensures OutstandingIn(length, StoreLedger(ledgers, account, l), x) + UnclaimedIn(length, LedgerOf(ledgers, account), x)
            == OutstandingIn(length, ledgers, x) + UnclaimedIn(length, l, x)
  {
    StoreSum(ledgers, account, l, Unclaimed(length, x));
  }

  lemma UnclaimedWithinOutstanding(length: nat, ledgers: Ledgers, account: AccountId, x: EraNumber)
    ensures UnclaimedIn(length, LedgerOf(ledgers, account), x) <= OutstandingIn(length, ledgers, x)
  {
    if account in ledgers {
      SumCoversEntry(ledgers, account, Unclaimed(length, x));
    }
  }

  lemma NextOutstanding(cfg: Config, era: EraNumber, info: PeriodInfo, ledgers: Ledgers)
    requires LedgersOk(cfg, era, info.number, ledgers) && ClockOk(cfg.erasPerBuildAndEarn, era, info)
    ensures OutstandingIn(cfg.erasPerBuildAndEarn, ledgers, era + 1)
            == if LastEra(era, info) then 0 else Sum(ledgers, LedgerStake(info.number))
  {
    var w := Unclaimed(cfg.erasPerBuildAndEarn, era + 1);
    forall a | a in ledgers
      ensures w(a, ledgers[a]) == if LastEra(era, info) then 0 else LedgerStake(info.number)(a, ledgers[a])
    {
      NextUnclaimed(cfg, era, info, ledgers[a]);
    }
    if LastEra(era, info) {
      SumOfZeros(ledgers, w);
    } else {
      SumCongruence(ledgers, w, LedgerStake(info.number));
    }
  }

  // ---------- calls that leave the stake in force alone ----------

  /** Nothing of the current era changes, earlier eras have no more to claim than before, and
      nothing is recorded or paid. */
  ghost predicate Undiminished(cfg: Config, s: State, t: State) {
    && t.protocol.era == s.protocol.era && t.eraInfo.currentStakeAmount == s.eraInfo.currentStakeAmount
    && t.trace.rewards == s.trace.rewards && t.trace.stakerRewards == s.trace.stakerRewards
    && NoMoreOutstanding(cfg.erasPerBuildAndEarn, s.protocol.era, s.ledgers, t.ledgers)
  }

  ghost predicate NoMoreOutstanding(length: nat, era: EraNumber, ledgers: Ledgers, ledgers': Ledgers) {
    && OutstandingIn(length, ledgers', era) == OutstandingIn(length, ledgers, era)
    && forall x: EraNumber :: x < era ==> OutstandingIn(length, ledgers', x) <= OutstandingIn(length, ledgers, x)
  }

  lemma StoreKeepsOutstanding(length: nat, era: EraNumber, ledgers: Ledgers, account: AccountId, l: AccountLedger)
    requires var before := LedgerOf(ledgers, account);
             && UnclaimedIn(length, l, era) == UnclaimedIn(length, before, era)
             && forall x: EraNumber :: x < era ==> UnclaimedIn(length, l, x) <= UnclaimedIn(length, before, x)
    ensures NoMoreOutstanding(length, era, ledgers, StoreLedger(ledgers, account, l))
  {
    forall x: EraNumber | x <= era
      ensures OutstandingIn(length, StoreLedger(ledgers, account, l), x) + UnclaimedIn(length, LedgerOf(ledgers, account), x)
              == OutstandingIn(length, ledgers, x) + UnclaimedIn(length, l, x)
    {
      StoreOutstanding(length, ledgers, account, l, x);
    }
  }

  /** A ledger stored with the stake it had. */
  lemma SameStakesKeepOutstanding(length: nat, era: EraNumber, ledgers: Ledgers, account: AccountId, l: AccountLedger)
    requires l.staked == LedgerOf(ledgers, account).staked && l.stakedFuture == LedgerOf(ledgers, account).stakedFuture
    ensures NoMoreOutstanding(length, era, ledgers, StoreLedger(ledgers, account, l))
  {
    StoreKeepsOutstanding(length, era, ledgers, account, l);
  }

  lemma LockUndiminished(cfg: Config, s: State, account: AccountId, amount: Balance, totalBalance: Balance, allowed: bool)
    requires Lock(cfg, s, account, amount, totalBalance, allowed).Done?
    ensures Undiminished(cfg, s, Lock(cfg, s, account, amount, totalBalance, allowed).state)
  {
    var l := LedgerOf(s.ledgers, account);
    var toLock := Min(SatSub(totalBalance, l.totalLocked), amount);
    SameStakesKeepOutstanding(cfg.erasPerBuildAndEarn, s.protocol.era, s.ledgers, account, l.(locked := l.locked + toLock));
  }

  lemma UnlockUndiminished(cfg: Config, s: State, account: AccountId, amount: Balance)
    requires Unlock(cfg, s, account, amount).Done?
    ensures Undiminished(cfg, s, Unlock(cfg, s, account, amount).state)
  {
    var l := LedgerOf(s.ledgers, account);
    var toUnlock := AmountToUnlock(cfg, l, amount, s.protocol.periodInfo.number).value;
    var reduced := l.(locked := SatSub(l.locked, toUnlock));
    var after := reduced.AddUnlockingChunk(toUnlock, s.now + cfg.UnlockingBlocks(), cfg.maxUnlockingChunks).value;
    SameStakesKeepOutstanding(cfg.erasPerBuildAndEarn, s.protocol.era, s.ledgers, account, after);
  }

  lemma ClaimUnlockedUndiminished(cfg: Config, s: State, account: AccountId, cleared: set<SmartContract>)
    requires ClaimUnlocked(s, account, cleared).Done?
    ensures Undiminished(cfg, s, ClaimUnlocked(s, account, cleared).state)
  {
    SameStakesKeepOutstanding(cfg.erasPerBuildAndEarn, s.protocol.era, s.ledgers, account, LedgerOf(s.ledgers, account).ClaimUnlocked(s.now).0);
  }

  lemma RelockUndiminished(cfg: Config, s: State, account: AccountId)
    requires RelockUnlocking(cfg, s, account).Done?
    ensures Undiminished(cfg, s, RelockUnlocking(cfg, s, account).state)
  {
    var l := LedgerOf(s.ledgers, account);
    SameStakesKeepOutstanding(cfg.erasPerBuildAndEarn, s.protocol.era, s.ledgers, account,
                              l.(unlocking := [], locked := l.locked + ChunkTotal(l.unlocking)));
  }

  lemma BonusUndiminished(cfg: Config, s: State, account: AccountId, contract: SmartContract, payoutOk: bool)
    requires ClaimBonusReward(cfg, s, account, contract, payoutOk).Done?
    ensures Undiminished(cfg, s, ClaimBonusReward(cfg, s, account, contract, payoutOk).state)
  {
    var l := LedgerOf(s.ledgers, account);
    var ledgers := s.ledgers[account := l.(contractStakeCount := SatSub(l.contractStakeCount, 1))];
    forall x: EraNumber
      ensures OutstandingIn(cfg.erasPerBuildAndEarn, ledgers, x) == OutstandingIn(cfg.erasPerBuildAndEarn, s.ledgers, x)
    {
      RecountSum(s.ledgers, account, ledgers, Unclaimed(cfg.erasPerBuildAndEarn, x));
    }
  }

  lemma CleanupUndiminished(cfg: Config, s: State, account: AccountId)
    requires Inv(cfg, s) && CleanupExpiredEntries(cfg, s, account).Done?
    ensures Undiminished(cfg, s, CleanupExpiredEntries(cfg, s, account).state)
  {
    InvStakes(cfg, s);
    var era, period, l := s.protocol.era, s.protocol.periodInfo.number, LedgerOf(s.ledgers, account);
    var recounted := l.(contractStakeCount := SatSub(l.contractStakeCount, |ExpiredKeys(cfg, s, account)|));
    var threshold := cfg.OldestClaimablePeriod(period);
    LedgerOfIsOk(cfg, era, period, s.ledgers, account);
    RecountedLedger(cfg, era, period, l, recounted.contractStakeCount);
    forall x: EraNumber
      ensures UnclaimedIn(cfg.erasPerBuildAndEarn, recounted, x) == UnclaimedIn(cfg.erasPerBuildAndEarn, l, x)
    {
    }
    CleanupStoreUndiminished(cfg, era, period, s.ledgers, account, recounted, threshold);
  }

  lemma CleanupStoreUndiminished(cfg: Config, era: EraNumber, period: PeriodNumber, ledgers: Ledgers, account: AccountId, l: AccountLedger, threshold: PeriodNumber)
    requires LedgerOk(cfg, era, period, l) && threshold <= period && InPeriod(cfg.erasPerBuildAndEarn, era, period)
    requires l.staked == LedgerOf(ledgers, account).staked && l.stakedFuture == LedgerOf(ledgers, account).stakedFuture
    ensures NoMoreOutstanding(cfg.erasPerBuildAndEarn, era, ledgers, StoreLedger(ledgers, account, l.MaybeCleanupExpired(threshold)))
  {
    forall x: EraNumber
      ensures var length, after := cfg.erasPerBuildAndEarn, l.MaybeCleanupExpired(threshold);
              UnclaimedIn(length, after, x) <= UnclaimedIn(length, LedgerOf(ledgers, account), x)
              && (x == era ==> UnclaimedIn(length, after, x) == UnclaimedIn(length, LedgerOf(ledgers, account), x))
    {
      CleanupUnclaimed(cfg, era, period, l, threshold, x);
    }
    StoreKeepsOutstanding(cfg.erasPerBuildAndEarn, era, ledgers, account, l.MaybeCleanupExpired(threshold));
  }

  lemma StakeUndiminished(cfg: Config, s: State, account: AccountId, contract: SmartContract, amount: Balance)
    requires Inv(cfg, s) && Stake(cfg, s, account, contract, amount).Done?
    ensures Undiminished(cfg, s, Stake(cfg, s, account, contract, amount).state)
  {
    StakeIs(cfg, s, account, contract, amount);
    var isNew := EntryForStake(cfg, s, StakerKey(account, contract)).value.1;
    StakedLedgerUndiminished(cfg, s, account, amount, isNew);
  }

  lemma StakedLedgerUndiminished(cfg: Config, s: State, account: AccountId, amount: Balance, isNew: bool)
    requires Inv(cfg, s) && amount > 0 && LedgerAfterStake(cfg, s, account, amount, isNew).Ok?
    ensures NoMoreOutstanding(cfg.erasPerBuildAndEarn, s.protocol.era, s.ledgers,
                              StoreLedger(s.ledgers, account, LedgerAfterStake(cfg, s, account, amount, isNew).value))
  {
    InvStakes(cfg, s);
    var era, info, l := s.protocol.era, s.protocol.periodInfo, LedgerOf(s.ledgers, account);
    var threshold := cfg.OldestClaimablePeriod(info.number);
    LedgerOfIsOk(cfg, era, info.number, s.ledgers, account);
    CleanupKeepsLedger(cfg, era, info.number, l, threshold);
    var after := LedgerAfterStake(cfg, s, account, amount, isNew).value;
    forall x: EraNumber | x <= era
      ensures UnclaimedIn(cfg.erasPerBuildAndEarn, after, x) <= UnclaimedIn(cfg.erasPerBuildAndEarn, l, x)
      ensures x == era ==> UnclaimedIn(cfg.erasPerBuildAndEarn, after, x) == UnclaimedIn(cfg.erasPerBuildAndEarn, l, x)
    {
      CleanupUnclaimed(cfg, era, info.number, l, threshold, x);
      StakeUnclaimed(cfg, era, info, l.MaybeCleanupExpired(threshold), amount, x);
    }
    StoreKeepsOutstanding(cfg.erasPerBuildAndEarn, era, s.ledgers, account, after);
  }

  /** Every call but unstakes, staker claims and blocks leaves the stake in force alone. */
  lemma QuietCallUndiminished(cfg: Config, s: State, call: Call)
    requires Inv(cfg, s) && Dispatch(cfg, s, call).Done?
    requires !call.CallUnstake? && !call.CallUnstakeFromUnregistered? && !call.CallClaimStaker? && !call.CallOnInitialize?
    ensures Undiminished(cfg, s, Next(cfg, s, call))
  {
    if call.CallLock? || call.CallUnlock? || call.CallClaimUnlocked? || call.CallRelock? {
      FundsCallUndiminished(cfg, s, call);
    } else {
      match call
      case CallStake(a, c, amount) => StakeUndiminished(cfg, s, a, c, amount);
      case CallCleanupExpired(a) => CleanupUndiminished(cfg, s, a);
      case CallClaimBonus(a, c, payoutOk) => BonusUndiminished(cfg, s, a, c, payoutOk);
      case _ =>
    }
  }

  lemma FundsCallUndiminished(cfg: Config, s: State, call: Call)
    requires Dispatch(cfg, s, call).Done? && (call.CallLock? || call.CallUnlock? || call.CallClaimUnlocked? || call.CallRelock?)
    ensures Undiminished(cfg, s, Next(cfg, s, call))
  {
    match call
    case CallLock(a, amount, balance, allowed) => LockUndiminished(cfg, s, a, amount, balance, allowed);
    case CallUnlock(a, amount) => UnlockUndiminished(cfg, s, a, amount);
    case CallClaimUnlocked(a, cleared) => ClaimUnlockedUndiminished(cfg, s, a, cleared);
    case CallRelock(a) => RelockUndiminished(cfg, s, a);
  }

  // ---------- unstakes ----------

  /** An unstake of `amount` by `account`: the recorded stake loses the amount, the stake in
      force only what the account has in force. */
  ghost predicate Withdraws(cfg: Config, s: State, t: State, account: AccountId, amount: Balance) {
    var length, era := cfg.erasPerBuildAndEarn, s.protocol.era;
    var inForce := LedgerOf(s.ledgers, account).StakeAt(era);
    && t.protocol.era == era && t.eraInfo.currentStakeAmount.total == SatSub(s.eraInfo.currentStakeAmount.total, amount)
    && t.trace.rewards == s.trace.rewards && t.trace.stakerRewards == s.trace.stakerRewards
    && inForce <= OutstandingIn(length, s.ledgers, era)
    && OutstandingIn(length, t.ledgers, era) + inForce == OutstandingIn(length, s.ledgers, era) + SatSub(inForce, amount)
    && (forall x: EraNumber :: x < era ==> OutstandingIn(length, t.ledgers, x) == OutstandingIn(length, s.ledgers, x))
  }

  lemma WithdrawnLedger(cfg: Config, s: State, account: AccountId, amount: Balance, l: AccountLedger)
    requires Inv(cfg, s) && amount > 0
    requires var r := LedgerOf(s.ledgers, account).UnstakeAmount(amount, s.protocol.era, s.protocol.periodInfo);
             r.Ok? && l.staked == r.value.staked && l.stakedFuture == r.value.stakedFuture
    ensures var t := s.(ledgers := StoreLedger(s.ledgers, account, l), eraInfo := s.eraInfo.UnstakeAmount(amount));
            Withdraws(cfg, s, t, account, amount)
  {
    InvStakes(cfg, s);
    var length, era, info, before := cfg.erasPerBuildAndEarn, s.protocol.era, s.protocol.periodInfo, LedgerOf(s.ledgers, account);
    LedgerOfIsOk(cfg, era, info.number, s.ledgers, account);
    UnclaimedWithinOutstanding(length, s.ledgers, account, era);
    forall x: EraNumber | x <= era
      ensures OutstandingIn(length, StoreLedger(s.ledgers, account, l), x) + UnclaimedIn(length, before, x)
              == OutstandingIn(length, s.ledgers, x) + UnclaimedIn(length, l, x)
      ensures UnclaimedIn(length, before, era) == before.StakeAt(era)
      ensures UnclaimedIn(length, l, x) == if x == era then SatSub(UnclaimedIn(length, before, x), amount) else UnclaimedIn(length, before, x)
    {
      StoreOutstanding(length, s.ledgers, account, l, x);
      UnstakeUnclaimed(cfg, era, info, before, amount, x);
    }
  }

  lemma UnstakeWithdraws(cfg: Config, s: State, account: AccountId, contract: SmartContract, amount: Balance)
    requires Inv(cfg, s) && Unstake(cfg, s, account, contract, amount).Done?
    ensures StakerKey(account, contract) in s.stakers
    ensures Withdraws(cfg, s, Unstake(cfg, s, account, contract, amount).state, account,
                      AmountToUnstake(cfg, s.stakers[StakerKey(account, contract)], amount))
  {
    UnstakeIs(cfg, s, account, contract, amount);
    var key := StakerKey(account, contract);
    var toUnstake := AmountToUnstake(cfg, s.stakers[key], amount);
    var after := s.stakers[key].Unstake(toUnstake, s.protocol.era, s.protocol.periodInfo.subperiod).0;
    var l := LedgerOf(s.ledgers, account).UnstakeAmount(toUnstake, s.protocol.era, s.protocol.periodInfo).value;
    WithdrawnLedger(cfg, s, account, toUnstake, Recounted(l, after));
  }

  lemma UnstakeFromUnregisteredWithdraws(cfg: Config, s: State, account: AccountId, contract: SmartContract)
    requires Inv(cfg, s) && UnstakeFromUnregistered(s, account, contract).Done?
    ensures StakerKey(account, contract) in s.stakers
    ensures Withdraws(cfg, s, UnstakeFromUnregistered(s, account, contract).state, account,
                      s.stakers[StakerKey(account, contract)].staked.total)
  {
    var key := StakerKey(account, contract);
    var amount := s.stakers[key].staked.total;
    assert amount > 0 by { WholeEntry(cfg, s, key); }
    WithdrawnLedger(cfg, s, account, amount, LedgerOf(s.ledgers, account).UnstakeAmount(amount, s.protocol.era, s.protocol.periodInfo).value);
  }
}

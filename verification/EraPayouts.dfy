/**
 * Staker rewards of an era against its pool, over whole runs.
 *
 * The rewards of an era are shares of the stake recorded when it ended. An unstake reduces the
 * recorded stake by its full amount, but the stake in force only by what the account has in
 * force, so the recorded stake can be too small. In every run it is never too large, and for
 * every era in which each unstake stayed within the stake in force, the payouts stay within
 * the pool.
 */
module EraPayouts {
  import opened Arithmetic
  import opened StakeTypes
  import opened MapSums
  import opened Pools
  import opened Calendar
  import opened Ledger
  import opened RewardHistory
  import opened Protocol
  import opened Invariant
  import opened Frames
  import opened RewardSteps
  import opened EraSteps
  import opened Outstanding
  import opened Runs

  ghost function StakerPaid(x: EraNumber): StakerReward -> nat {
    (e: StakerReward) => if e.era == x then e.amount else 0
  }

  ghost function StakerClaims(x: EraNumber): StakerReward -> nat {
    (e: StakerReward) => if e.era == x then 1 else 0
  }

  // ---------- what one claim pays ----------

  /** The reward for `stake` in an era with this record; nothing for no stake. */
  function Pay(reward: EraReward, stake: Balance): Balance {
    if stake == 0 || reward.staked == 0 then 0 else ProRata(PERBILL, stake, reward.staked, reward.stakerRewardPool)
  }

  function PayCount(reward: EraReward, stake: Balance): nat {
    if stake == 0 || reward.staked == 0 then 0 else 1
  }

  lemma {:induction false} DueSums(account: AccountId, l: AccountLedger, history: History, first: EraNumber, last: EraNumber, x: EraNumber)
    requires forall y :: first <= y <= last ==> y in history
    ensures var events := RewardEvents(account, DueRewards(l, history, first, last));
            && LogSum(events, StakerPaid(x)) == (if first <= x <= last then Pay(history[x], l.StakeAt(x)) else 0)
            && LogSum(events, StakerClaims(x)) == (if first <= x <= last then PayCount(history[x], l.StakeAt(x)) else 0)
    decreases last + 1 - first
  {
    if first <= last {
      var head, rest := RewardFor(history[first], first, l.StakeAt(first)), DueRewards(l, history, first + 1, last);
      DueSums(account, l, history, first + 1, last, x);
      assert RewardEvents(account, head + rest) == RewardEvents(account, head) + RewardEvents(account, rest);
      LogSumConcat(RewardEvents(account, head), RewardEvents(account, rest), StakerPaid(x));
      LogSumConcat(RewardEvents(account, head), RewardEvents(account, rest), StakerClaims(x));
      HeadSums(account, head, x);
    }
  }

  lemma HeadSums(account: AccountId, rewards: seq<(EraNumber, Balance)>, x: EraNumber)
    requires |rewards| <= 1
    ensures var events := RewardEvents(account, rewards);
            && LogSum(events, StakerPaid(x)) == (if |rewards| == 1 && rewards[0].0 == x then rewards[0].1 else 0)
            && LogSum(events, StakerClaims(x)) == (if |rewards| == 1 && rewards[0].0 == x then 1 else 0)
  {
    var events := RewardEvents(account, rewards);
    if |rewards| == 1 {
      assert events == [] + [StakerReward(account, rewards[0].0, rewards[0].1)];
      LogSumAppend([], events[0], StakerPaid(x));
      LogSumAppend([], events[0], StakerClaims(x));
    }
  }

  /** What a claim does: every era from its first to its last one is paid and settled. */
  ghost predicate Settles(cfg: Config, s: State, t: State, account: AccountId) {
    var length, l := cfg.erasPerBuildAndEarn, LedgerOf(s.ledgers, account);
    && t.protocol.era == s.protocol.era && t.eraInfo == s.eraInfo && t.trace.rewards == s.trace.rewards
    && l.EarliestStakedEra().Some?
    && exists last: EraNumber :: l.EarliestStakedEra().value <= last < s.protocol.era
         && (forall x :: l.EarliestStakedEra().value <= x <= last ==> x in s.trace.rewards)
         && t.trace.stakerRewards
            == s.trace.stakerRewards + RewardEvents(account, DueRewards(l, s.trace.rewards, l.EarliestStakedEra().value, last))
         && SettledUpTo(length, s.ledgers, t.ledgers, l, last)
  }

  ghost predicate SettledUpTo(length: nat, ledgers: Ledgers, ledgers': Ledgers, l: AccountLedger, last: EraNumber)
    requires l.EarliestStakedEra().Some?
  {
    forall x: EraNumber ::
      OutstandingIn(length, ledgers, x)
      == OutstandingIn(length, ledgers', x) + if l.EarliestStakedEra().value <= x <= last then l.StakeAt(x) else 0
  }

  lemma ClaimSettles(cfg: Config, s: State, account: AccountId, payoutOk: bool)
    requires Inv(cfg, s) && ClaimStakerRewards(cfg, s, account, payoutOk).Done?
    ensures Settles(cfg, s, ClaimStakerRewards(cfg, s, account, payoutOk).state, account)
  {
    var l := LedgerOf(s.ledgers, account);
    var first := l.EarliestStakedEra().value;
    var span := s.spans[SpanIndex(cfg.eraRewardSpanLength, first)];
    ClaimIsCovered(cfg, s, account);
    var limit := ClaimLimit(s, l.StakedPeriod().value).value;
    var last := Min(span.lastEra, limit.0);
    CoveredClaim(cfg, s, account, span, last, limit.1);
    ClaimedPairs(cfg, s, account, last, limit.1);
    SpanCovers(cfg, s, first, last);
    StakerRewardsAreDue(span, l, s.trace.rewards, first, last);
    ClaimedOutstanding(cfg, s, account, last, limit.1);
  }

  lemma ClaimedOutstanding(cfg: Config, s: State, account: AccountId, last: EraNumber, periodEnd: Option<EraNumber>)
    requires Inv(cfg, s) && LedgerOf(s.ledgers, account).StakedPeriod().Some?
    requires LedgerOf(s.ledgers, account).StakedPeriod().value >= cfg.OldestClaimablePeriod(s.protocol.periodInfo.number)
    requires var l := LedgerOf(s.ledgers, account);
             && ClaimLimit(s, l.StakedPeriod().value).Some? && ClaimLimit(s, l.StakedPeriod().value).value.1 == periodEnd
             && last <= ClaimLimit(s, l.StakedPeriod().value).value.0
             && last < s.protocol.era && l.ClaimUpToEra(last, periodEnd).Ok?
    ensures var l := LedgerOf(s.ledgers, account);
            SettledUpTo(cfg.erasPerBuildAndEarn, s.ledgers, StoreLedger(s.ledgers, account, l.ClaimUpToEra(last, periodEnd).value.0), l, last)
  {
    var length, l := cfg.erasPerBuildAndEarn, LedgerOf(s.ledgers, account);
    ClaimStaysInPeriod(cfg, s, account, last);
    InvLedgers(cfg, s);
    LedgerOfIsOk(cfg, s.protocol.era, s.protocol.periodInfo.number, s.ledgers, account);
    var after := l.ClaimUpToEra(last, periodEnd).value.0;
    forall x: EraNumber
      ensures OutstandingIn(length, s.ledgers, x)
              == OutstandingIn(length, StoreLedger(s.ledgers, account, after), x) + if l.EarliestStakedEra().value <= x <= last then l.StakeAt(x) else 0
    {
      StoreOutstanding(length, s.ledgers, account, after, x);
      ClaimUnclaimed(cfg, s.protocol.era, s.protocol.periodInfo.number, l, last, periodEnd, x);
    }
  }

  lemma ClaimStaysInPeriod(cfg: Config, s: State, account: AccountId, last: EraNumber)
    requires Inv(cfg, s) && LedgerOf(s.ledgers, account).StakedPeriod().Some?
    requires LedgerOf(s.ledgers, account).StakedPeriod().value >= cfg.OldestClaimablePeriod(s.protocol.periodInfo.number)
    requires var limit := ClaimLimit(s, LedgerOf(s.ledgers, account).StakedPeriod().value);
             limit.Some? && last <= limit.value.0
    ensures var final := FinalEra(cfg.erasPerBuildAndEarn, LedgerOf(s.ledgers, account).StakedPeriod().value);
            var periodEnd := ClaimLimit(s, LedgerOf(s.ledgers, account).StakedPeriod().value).value.1;
            last <= final && (periodEnd.Some? ==> periodEnd.value == final)
  {
    StakedPeriodIs(cfg, s, account);
    var staked := LedgerOf(s.ledgers, account).StakedPeriod().value;
    if staked < s.protocol.periodInfo.number {
      StoredEndIs(cfg, s, staked);
    }
  }

  // ---------- the invariant of one era ----------

  /** While era `x` lasts, the recorded stake covers the stake in force; afterwards its paid
      and its outstanding rewards stay within the pool. */
  ghost predicate EraCovered(cfg: Config, s: State, x: EraNumber) {
    && (s.protocol.era == x ==> OutstandingIn(cfg.erasPerBuildAndEarn, s.ledgers, x) <= s.eraInfo.currentStakeAmount.total)
    && (x < s.protocol.era ==> x in s.trace.rewards && RewardsBounded(cfg, s, x))
  }

  ghost predicate RewardsBounded(cfg: Config, s: State, x: EraNumber)
    requires x in s.trace.rewards
  {
    PoolBounded(s.trace.rewards[x].stakerRewardPool, s.trace.rewards[x].staked,
                LogSum(s.trace.stakerRewards, StakerPaid(x)), LogSum(s.trace.stakerRewards, StakerClaims(x)),
                OutstandingIn(cfg.erasPerBuildAndEarn, s.ledgers, x))
  }

  /** The recorded stake never exceeds the stake in force. */
  ghost predicate RecordedWithinForce(cfg: Config, s: State) {
    s.eraInfo.currentStakeAmount.total <= OutstandingIn(cfg.erasPerBuildAndEarn, s.ledgers, s.protocol.era)
  }

  lemma UndiminishedKeeps(cfg: Config, s: State, t: State, x: EraNumber)
    requires Undiminished(cfg, s, t)
    ensures RecordedWithinForce(cfg, s) ==> RecordedWithinForce(cfg, t)
    ensures EraCovered(cfg, s, x) ==> EraCovered(cfg, t, x)
  {
    if EraCovered(cfg, s, x) && x < s.protocol.era {
      var length, r := cfg.erasPerBuildAndEarn, s.trace.rewards[x];
      PoolShrinks(r.stakerRewardPool, r.staked, LogSum(s.trace.stakerRewards, StakerPaid(x)), LogSum(s.trace.stakerRewards, StakerClaims(x)),
                  OutstandingIn(length, s.ledgers, x), OutstandingIn(length, t.ledgers, x));
    }
  }

  lemma WithdrawalKeeps(cfg: Config, s: State, t: State, account: AccountId, amount: Balance, x: EraNumber)
    requires Withdraws(cfg, s, t, account, amount)
    ensures RecordedWithinForce(cfg, s) ==> RecordedWithinForce(cfg, t)
    ensures EraCovered(cfg, s, x) && (s.protocol.era == x ==> amount <= LedgerOf(s.ledgers, account).StakeAt(x)) ==> EraCovered(cfg, t, x)
  {
  }

  lemma SettlementKeeps(cfg: Config, s: State, t: State, account: AccountId, x: EraNumber)
    requires Settles(cfg, s, t, account)
    ensures RecordedWithinForce(cfg, s) ==> RecordedWithinForce(cfg, t)
    ensures EraCovered(cfg, s, x) ==> EraCovered(cfg, t, x)
  {
    var length, l := cfg.erasPerBuildAndEarn, LedgerOf(s.ledgers, account);
    var first := l.EarliestStakedEra().value;
    var last: EraNumber :| first <= last < s.protocol.era
      && (forall x :: first <= x <= last ==> x in s.trace.rewards)
      && t.trace.stakerRewards == s.trace.stakerRewards + RewardEvents(account, DueRewards(l, s.trace.rewards, first, last))
      && SettledUpTo(length, s.ledgers, t.ledgers, l, last);
    assert OutstandingIn(length, s.ledgers, s.protocol.era) == OutstandingIn(length, t.ledgers, s.protocol.era);
    if EraCovered(cfg, s, x) && x < s.protocol.era {
      assert OutstandingIn(length, s.ledgers, x)
             == OutstandingIn(length, t.ledgers, x) + if first <= x <= last then l.StakeAt(x) else 0;
      DueKeepsBounded(account, l, s.trace.rewards, first, last, x, s.trace.stakerRewards,
                      OutstandingIn(length, s.ledgers, x), OutstandingIn(length, t.ledgers, x));
    }
  }

  lemma DueKeepsBounded(account: AccountId, l: AccountLedger, history: History, first: EraNumber, last: EraNumber, x: EraNumber,
                        paid: seq<StakerReward>, remaining: Balance, rest: Balance)
    requires (forall y :: first <= y <= last ==> y in history) && x in history
    requires PoolBounded(history[x].stakerRewardPool, history[x].staked, LogSum(paid, StakerPaid(x)), LogSum(paid, StakerClaims(x)), remaining)
    requires remaining == rest + if first <= x <= last then l.StakeAt(x) else 0
    ensures var all := paid + RewardEvents(account, DueRewards(l, history, first, last));
            PoolBounded(history[x].stakerRewardPool, history[x].staked, LogSum(all, StakerPaid(x)), LogSum(all, StakerClaims(x)), rest)
  {
    var events := RewardEvents(account, DueRewards(l, history, first, last));
    DueSums(account, l, history, first, last, x);
    LogSumConcat(paid, events, StakerPaid(x));
    LogSumConcat(paid, events, StakerClaims(x));
    PayKeepsBounded(history[x], LogSum(paid, StakerPaid(x)), LogSum(paid, StakerClaims(x)), remaining, remaining - rest);
  }

  lemma PayKeepsBounded(r: EraReward, paid: Balance, count: nat, remaining: Balance, stake: Balance)
    requires PoolBounded(r.stakerRewardPool, r.staked, paid, count, remaining) && stake <= remaining
    ensures PoolBounded(r.stakerRewardPool, r.staked, paid + Pay(r, stake), count + PayCount(r, stake), remaining - stake)
  {
    if stake > 0 {
      PoolStep(r.stakerRewardPool, r.staked, paid, count, remaining, stake);
    }
  }

  lemma {:induction false} NoStakerPaidYet(paid: seq<StakerReward>, x: EraNumber)
    requires forall i :: 0 <= i < |paid| ==> paid[i].era < x
    ensures LogSum(paid, StakerPaid(x)) == 0 && LogSum(paid, StakerClaims(x)) == 0
  {
    if |paid| > 0 {
      NoStakerPaidYet(paid[..|paid| - 1], x);
    }
  }

  /** Every era starts with exactly the stake in force recorded. */
  lemma NextRecordIsExact(cfg: Config, s: State, t: State)
    requires Inv(cfg, s) && EndsEra(cfg, s, t)
    ensures t.eraInfo.currentStakeAmount.total == OutstandingIn(cfg.erasPerBuildAndEarn, t.ledgers, t.protocol.era)
  {
    InvStakes(cfg, s);
    NextTotalsAreExact(cfg, s.protocol.era, s.protocol.periodInfo, s.ledgers, s.stakers, s.eraInfo);
  }

  lemma NextTotalsAreExact(cfg: Config, era: EraNumber, info: PeriodInfo, ledgers: Ledgers, stakers: Stakers, totals: EraInfo)
    requires LedgersOk(cfg, era, info.number, ledgers) && ClockOk(cfg.erasPerBuildAndEarn, era, info)
    requires StakesAgree(info.number, ledgers, stakers, totals.nextStakeAmount.total)
    ensures NextTotals(era, info, totals).currentStakeAmount.total == OutstandingIn(cfg.erasPerBuildAndEarn, ledgers, era + 1)
  {
    NextOutstanding(cfg, era, info, ledgers);
  }

  /** And when it ends, its recorded stake is what its rewards are shares of. */
  lemma EndOfEraKeeps(cfg: Config, s: State, t: State, bonusPool: Balance, reward: EraReward, x: EraNumber)
    requires Inv(cfg, s) && Closes(cfg, s, t, bonusPool, reward) && reward.staked == s.eraInfo.currentStakeAmount.total
    requires EraCovered(cfg, s, x)
    ensures EraCovered(cfg, t, x)
  {
    NextRecordIsExact(cfg, s, t);
    if x == s.protocol.era {
      EraSettlesFresh(cfg, s, t, reward);
    }
  }

  lemma EraSettlesFresh(cfg: Config, s: State, t: State, reward: EraReward)
    requires Inv(cfg, s) && t.ledgers == s.ledgers && t.trace.stakerRewards == s.trace.stakerRewards
    requires s.protocol.era in t.trace.rewards && t.trace.rewards[s.protocol.era] == reward
    requires OutstandingIn(cfg.erasPerBuildAndEarn, s.ledgers, s.protocol.era) <= reward.staked
    ensures RewardsBounded(cfg, t, s.protocol.era)
  {
    assert StakerPaidOnce(s.protocol.era, s.ledgers, s.trace.stakerRewards) by { assert Holds(Payouts, cfg, s); }
    NoStakerPaidYet(s.trace.stakerRewards, s.protocol.era);
    FreshPool(reward.stakerRewardPool, reward.staked, OutstandingIn(cfg.erasPerBuildAndEarn, s.ledgers, s.protocol.era));
  }

  /** Every covered era stays covered, and so does the record stay within the stake in force. */
  ghost predicate KeepsCovered(cfg: Config, s: State, t: State) {
    && (RecordedWithinForce(cfg, s) ==> RecordedWithinForce(cfg, t))
    && forall x: EraNumber :: EraCovered(cfg, s, x) ==> EraCovered(cfg, t, x)
  }

  lemma NewEraKeeps(cfg: Config, s: State, inputs: EraInputs, t: State)
    requires Inv(cfg, s) && t == NewEra(cfg, s, inputs)
    ensures KeepsCovered(cfg, s, t)
  {
    var reward := RewardOfEra(s, inputs);
    CloseEraCloses(cfg, s, inputs.bonusPool, reward, AssignTiers(cfg, s, inputs), NextTierConfig(cfg, s.tierConfig, inputs.price, inputs.issuance));
    NextRecordIsExact(cfg, s, t);
    forall x: EraNumber | EraCovered(cfg, s, x)
      ensures EraCovered(cfg, t, x)
    {
      EndOfEraKeeps(cfg, s, t, inputs.bonusPool, reward, x);
    }
  }

  /** The number of the block does not matter. */
  lemma BlockNumberIsFree(cfg: Config, s: State, now: BlockNumber)
    ensures KeepsCovered(cfg, s, s.(now := now))
  {
    forall x: EraNumber | EraCovered(cfg, s, x)
      ensures EraCovered(cfg, s.(now := now), x)
    {
    }
  }

  lemma KeepsTwice(cfg: Config, s: State, t: State, u: State)
    requires KeepsCovered(cfg, s, t) && KeepsCovered(cfg, t, u)
    ensures KeepsCovered(cfg, s, u)
  {
  }

  lemma NewBlockKeeps(cfg: Config, s: State, inputs: EraInputs, t: State)
    requires Inv(cfg, s) && t == NewEra(cfg, s.(now := s.now + 1), inputs)
    ensures KeepsCovered(cfg, s, t)
  {
    var started := s.(now := s.now + 1);
    BlockNumberIsFree(cfg, s, s.now + 1);
    BlockKeepsInv(cfg, s);
    NewEraKeeps(cfg, started, inputs, t);
    KeepsTwice(cfg, s, started, t);
  }

  lemma BlockKeeps(cfg: Config, s: State, inputs: EraInputs, t: State)
    requires Inv(cfg, s) && t == OnInitialize(cfg, s, inputs)
    ensures KeepsCovered(cfg, s, t)
  {
    if !s.protocol.maintenance && s.protocol.IsNewEra(s.now + 1) {
      NewBlockKeeps(cfg, s, inputs, t);
    } else {
      BlockNumberIsFree(cfg, s, s.now + 1);
    }
  }

  // ---------- runs ----------

  /** The amount that a call unstakes is in force for its account already. */
  predicate Backed(cfg: Config, s: State, call: Call) {
    match call
    case CallUnstake(a, c, amount) =>
      StakerKey(a, c) in s.stakers ==>
        AmountToUnstake(cfg, s.stakers[StakerKey(a, c)], amount) <= LedgerOf(s.ledgers, a).StakeAt(s.protocol.era)
    case CallUnstakeFromUnregistered(a, c) =>
      StakerKey(a, c) in s.stakers ==> s.stakers[StakerKey(a, c)].staked.total <= LedgerOf(s.ledgers, a).StakeAt(s.protocol.era)
    case _ => true
  }

  /** Every call of a run that is made in era `x` is backed. */
  ghost predicate BackedDuring(cfg: Config, s: State, calls: seq<Call>, x: EraNumber)
    decreases |calls|
  {
    |calls| == 0 ||
    var before := Execute(cfg, s, calls[..|calls| - 1]);
    BackedDuring(cfg, s, calls[..|calls| - 1], x) && (before.protocol.era == x ==> Backed(cfg, before, calls[|calls| - 1]))
  }

  lemma CallKeeps(cfg: Config, s: State, call: Call, t: State, x: EraNumber)
    requires Inv(cfg, s) && t == Next(cfg, s, call)
    ensures RecordedWithinForce(cfg, s) ==> RecordedWithinForce(cfg, t)
    ensures EraCovered(cfg, s, x) && (s.protocol.era == x ==> Backed(cfg, s, call)) ==> EraCovered(cfg, t, x)
  {
    if Dispatch(cfg, s, call).Done? {
      if call.CallUnstake? || call.CallUnstakeFromUnregistered? {
        UnstakingCallKeeps(cfg, s, call, t, x);
      } else if call.CallClaimStaker? {
        ClaimSettles(cfg, s, call.account, call.payoutOk);
        SettlementKeeps(cfg, s, t, call.account, x);
      } else if call.CallOnInitialize? {
        BlockKeeps(cfg, s, call.inputs, t);
      } else {
        QuietCallUndiminished(cfg, s, call);
        UndiminishedKeeps(cfg, s, t, x);
      }
    }
  }

  lemma UnstakingCallKeeps(cfg: Config, s: State, call: Call, t: State, x: EraNumber)
    requires Inv(cfg, s) && Dispatch(cfg, s, call) == Done(t) && (call.CallUnstake? || call.CallUnstakeFromUnregistered?)
    ensures RecordedWithinForce(cfg, s) ==> RecordedWithinForce(cfg, t)
    ensures EraCovered(cfg, s, x) && (s.protocol.era == x ==> Backed(cfg, s, call)) ==> EraCovered(cfg, t, x)
  {
    var key := StakerKey(call.account, call.contract);
    if call.CallUnstake? {
      UnstakeWithdraws(cfg, s, call.account, call.contract, call.amount);
      WithdrawalKeeps(cfg, s, t, call.account, AmountToUnstake(cfg, s.stakers[key], call.amount), x);
    } else {
      UnstakeFromUnregisteredWithdraws(cfg, s, call.account, call.contract);
      WithdrawalKeeps(cfg, s, t, call.account, s.stakers[key].staked.total, x);
    }
  }

  lemma {:induction false} RunKeeps(cfg: Config, c: TierConfig, calls: seq<Call>, x: EraNumber)
    requires c.rewardPortion == cfg.tierParams.rewardPortion && ValidRun(cfg, Genesis(cfg, c), calls) && x >= 1
    ensures RecordedWithinForce(cfg, Execute(cfg, Genesis(cfg, c), calls))
    ensures BackedDuring(cfg, Genesis(cfg, c), calls, x) ==> EraCovered(cfg, Execute(cfg, Genesis(cfg, c), calls), x)
    decreases |calls|
  {
    if |calls| > 0 {
      var before := Execute(cfg, Genesis(cfg, c), calls[..|calls| - 1]);
      RunKeepsInv(cfg, c, calls[..|calls| - 1]);
      RunKeeps(cfg, c, calls[..|calls| - 1], x);
      CallKeeps(cfg, before, calls[|calls| - 1], Execute(cfg, Genesis(cfg, c), calls), x);
    }
  }

  /** In every reachable state the recorded stake of the current era is at most the stake
      that the ledgers have in force in it. */
  lemma RecordedStakeIsInForce(cfg: Config, s: State)
    requires Reachable(cfg, s)
    ensures s.eraInfo.currentStakeAmount.total <= OutstandingIn(cfg.erasPerBuildAndEarn, s.ledgers, s.protocol.era)
  {
    var c: TierConfig, calls: seq<Call> :|
      && c.rewardPortion == cfg.tierParams.rewardPortion
      && ValidRun(cfg, Genesis(cfg, c), calls) && s == Execute(cfg, Genesis(cfg, c), calls);
    RunKeeps(cfg, c, calls, 1);
  }

  /** In every run, the staker rewards paid for a finished era exceed its pool by at most half
      a unit per claim, if every unstake made in that era was of stake in force. */
  lemma StakerPayoutsStayWithinPool(cfg: Config, c: TierConfig, calls: seq<Call>, x: EraNumber)
    requires c.rewardPortion == cfg.tierParams.rewardPortion && ValidRun(cfg, Genesis(cfg, c), calls)
    requires BackedDuring(cfg, Genesis(cfg, c), calls, x)
    requires 1 <= x < Execute(cfg, Genesis(cfg, c), calls).protocol.era
    ensures var s := Execute(cfg, Genesis(cfg, c), calls);
            && x in s.trace.rewards
            && 2 * LogSum(s.trace.stakerRewards, StakerPaid(x))
               <= 2 * s.trace.rewards[x].stakerRewardPool + LogSum(s.trace.stakerRewards, StakerClaims(x))
  {
    RunKeeps(cfg, c, calls, x);
    var s := Execute(cfg, Genesis(cfg, c), calls);
    PaidWithinPool(s.trace.rewards[x].stakerRewardPool, s.trace.rewards[x].staked,
                   LogSum(s.trace.stakerRewards, StakerPaid(x)), LogSum(s.trace.stakerRewards, StakerClaims(x)),
                   OutstandingIn(cfg.erasPerBuildAndEarn, s.ledgers, x));
  }

  /** From a state in which the recorded stake is the stake in force, an unstake leads to
      another one exactly when its amount is in force for the account, or no other stake is. */
  lemma UnstakeKeepsRecordExactIff(cfg: Config, s: State, account: AccountId, contract: SmartContract, amount: Balance)
    requires Inv(cfg, s) && Unstake(cfg, s, account, contract, amount).Done?
    requires s.eraInfo.currentStakeAmount.total == OutstandingIn(cfg.erasPerBuildAndEarn, s.ledgers, s.protocol.era)
    ensures var t := Unstake(cfg, s, account, contract, amount).state;
            t.eraInfo.currentStakeAmount.total == OutstandingIn(cfg.erasPerBuildAndEarn, t.ledgers, t.protocol.era)
            <==> || Backed(cfg, s, CallUnstake(account, contract, amount))
                 || LedgerOf(s.ledgers, account).StakeAt(s.protocol.era) == OutstandingIn(cfg.erasPerBuildAndEarn, s.ledgers, s.protocol.era)
  {
    UnstakeWithdraws(cfg, s, account, contract, amount);
  }
}

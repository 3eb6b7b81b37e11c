/** Claims of staker, bonus and dApp rewards keep the invariant. */
module RewardSteps {
  import opened Arithmetic
  import opened StakeTypes
  import opened MapSums
  import opened Pools
  import opened Calendar
  import opened Ledger
  import opened ContractStake
  import opened RewardHistory
  import opened TierAssignment
  import opened Protocol
  import opened Invariant
  import opened Frames
  import opened LockSteps

  // ---------- staker rewards ----------

  /** Eras of the pairs ascend strictly and lie between `first` and `last`. */
  ghost predicate AscendWithin(pairs: seq<(EraNumber, Balance)>, first: EraNumber, last: EraNumber) {
    && (forall i :: 0 <= i < |pairs| ==> first <= pairs[i].0 <= last)
    && (forall i, j :: 0 <= i < j < |pairs| ==> pairs[i].0 < pairs[j].0)
  }

  /** Rewards of eras held in the span are all found, at most one per era and in order. */
  lemma {:induction false} StakerRewardsAscend(span: EraRewardSpan, pairs: seq<(EraNumber, Balance)>, first: EraNumber, last: EraNumber)
    requires AscendWithin(pairs, first, last)
    requires span.firstEra <= first && last <= span.lastEra && |span.span| == span.lastEra + 1 - span.firstEra
    ensures StakerRewards(span, pairs).Some? && AscendWithin(StakerRewards(span, pairs).value, first, last)
    decreases |pairs|
  {
    if |pairs| > 0 {
      var tail := pairs[1..];
      assert forall i :: 0 <= i < |tail| ==> tail[i] == pairs[i + 1];
      StakerRewardsAscend(span, tail, pairs[0].0 + 1, last);
    }
  }

  /** The claim of an account in one call: the last era it covers, and the end of the staked
      period if that is over. */
  ghost predicate ClaimCovers(cfg: Config, s: State, l: AccountLedger, span: EraRewardSpan, claimEra: EraNumber, periodEnd: Option<EraNumber>) {
    var length := cfg.erasPerBuildAndEarn;
    && l.EarliestStakedEra().Some? && l.StakedPeriod().Some?
    && 1 <= span.firstEra <= l.EarliestStakedEra().value
    && claimEra <= span.lastEra && claimEra < s.protocol.era
    && |span.span| == span.lastEra + 1 - span.firstEra
    && (periodEnd != Some(claimEra) ==> claimEra < FinalEra(length, l.StakedPeriod().value))
    && (periodEnd.Some? ==> periodEnd.value >= claimEra && l.StakedPeriod().value < s.protocol.periodInfo.number)
  }

  lemma SpanHolds(length: nat, era: EraNumber, spans: Spans, index: EraNumber, history: History, x: EraNumber)
    requires length > 0 && SpansOk(length, era, spans, index, history) && SpanIndex(length, x) in spans && x >= 1
    ensures var span := spans[SpanIndex(length, x)];
            && 1 <= span.firstEra <= x && span.lastEra < era && |span.span| == span.lastEra + 1 - span.firstEra
  {
    SpanIndexBounds(length, x);
    assert SpanOk(length, era, SpanIndex(length, x), spans[SpanIndex(length, x)], history);
  }

  /** Within the retention window, the end of the staked period is known whenever it is
      needed, and the claim stays within finished eras. */
  lemma ClaimIsCovered(cfg: Config, s: State, account: AccountId)
    requires Inv(cfg, s)
    requires var l := LedgerOf(s.ledgers, account);
             && l.StakedPeriod().Some? && l.StakedPeriod().value >= cfg.OldestClaimablePeriod(s.protocol.periodInfo.number)
             && SpanIndex(cfg.eraRewardSpanLength, l.EarliestStakedEra().value) in s.spans
    ensures var l := LedgerOf(s.ledgers, account);
            var span := s.spans[SpanIndex(cfg.eraRewardSpanLength, l.EarliestStakedEra().value)];
            var limit := ClaimLimit(s, l.StakedPeriod().value);
            limit.Some? && ClaimCovers(cfg, s, l, span, Min(span.lastEra, limit.value.0), limit.value.1)
  {
    var length, era, period := cfg.erasPerBuildAndEarn, s.protocol.era, s.protocol.periodInfo.number;
    var l := LedgerOf(s.ledgers, account);
    StakedPeriodIs(cfg, s, account);
    StoredSpanIs(cfg, s, l.EarliestStakedEra().value);
    if l.StakedPeriod().value < period {
      StoredEndIs(cfg, s, l.StakedPeriod().value);
      EarlierPeriodEarlierEra(length, FinalEra(length, l.StakedPeriod().value), l.StakedPeriod().value, era, period);
    }
  }

  lemma StakedPeriodIs(cfg: Config, s: State, account: AccountId)
    requires Inv(cfg, s) && LedgerOf(s.ledgers, account).StakedPeriod().Some?
    ensures var l := LedgerOf(s.ledgers, account);
            && l.StakedPeriod().value <= s.protocol.periodInfo.number
            && InPeriod(cfg.erasPerBuildAndEarn, l.EarliestStakedEra().value, l.StakedPeriod().value)
    ensures InPeriod(cfg.erasPerBuildAndEarn, s.protocol.era, s.protocol.periodInfo.number)
  {
    InvStakes(cfg, s);
    LedgerOfIsOk(cfg, s.protocol.era, s.protocol.periodInfo.number, s.ledgers, account);
  }

  lemma StoredSpanIs(cfg: Config, s: State, x: EraNumber)
    requires Inv(cfg, s) && SpanIndex(cfg.eraRewardSpanLength, x) in s.spans && x >= 1
    ensures var span := s.spans[SpanIndex(cfg.eraRewardSpanLength, x)];
            && 1 <= span.firstEra <= x && span.lastEra < s.protocol.era && |span.span| == span.lastEra + 1 - span.firstEra
  {
    assert Holds(Pruning, cfg, s);
    SpanHolds(cfg.eraRewardSpanLength, s.protocol.era, s.spans, s.marker.eraRewardIndex, s.trace.rewards, x);
  }

  /** A finished period within the retention window has its end recorded. */
  lemma StoredEndIs(cfg: Config, s: State, period: PeriodNumber)
    requires Inv(cfg, s) && 1 <= period < s.protocol.periodInfo.number
    requires period >= cfg.OldestClaimablePeriod(s.protocol.periodInfo.number)
    ensures period in s.trace.ended && period in s.periodEnds && s.periodEnds[period] == s.trace.ended[period]
    ensures s.periodEnds[period].finalEra == FinalEra(cfg.erasPerBuildAndEarn, period)
  {
    assert Holds(Pruning, cfg, s);
  }

  /** What a covered claim does to the ledger and which rewards it pays. */
  lemma CoveredClaim(cfg: Config, s: State, account: AccountId, span: EraRewardSpan, claimEra: EraNumber, periodEnd: Option<EraNumber>)
    requires Inv(cfg, s) && ClaimCovers(cfg, s, LedgerOf(s.ledgers, account), span, claimEra, periodEnd)
    ensures var l := LedgerOf(s.ledgers, account);
            var r := l.ClaimUpToEra(claimEra, periodEnd);
            && (r.Err? ==> r.error == NothingToClaim)
            && (r.Ok? ==>
                  && var (after, pairs) := r.value;
                     var rewards := StakerRewards(span, pairs.Pairs());
                     && rewards.Some? && AscendWithin(rewards.value, l.EarliestStakedEra().value, claimEra)
                     && FundsMove(cfg, s, account, after, s.eraInfo, s.trace.unlocks)
                     && l.EarliestStakedEra().value <= claimEra
                     && (after.EarliestStakedEra().Some? ==> after.EarliestStakedEra().value == claimEra + 1))
  {
    var era, period := s.protocol.era, s.protocol.periodInfo.number;
    var l := LedgerOf(s.ledgers, account);
    InvLedgers(cfg, s);
    LedgerOfIsOk(cfg, era, period, s.ledgers, account);
    ClaimYieldsStakeInForce(l, claimEra, periodEnd, era);
    var r := l.ClaimUpToEra(claimEra, periodEnd);
    if r.Ok? {
      var (after, pairs) := r.value;
      StakerRewardsAscend(span, pairs.Pairs(), l.EarliestStakedEra().value, claimEra);
      ClaimedLedger(cfg, era, period, l, claimEra, periodEnd);
      StoreKeepsUnlocks(cfg, s.ledgers, s.trace.unlocks, account, after);
    }
  }

  lemma ClaimedLedger(cfg: Config, era: EraNumber, period: PeriodNumber, l: AccountLedger, claimEra: EraNumber, periodEnd: Option<EraNumber>)
    requires period >= 1 && LedgerOk(cfg, era, period, l) && l.StakedPeriod().Some? && claimEra < era
    requires periodEnd != Some(claimEra) ==> claimEra < FinalEra(cfg.erasPerBuildAndEarn, l.StakedPeriod().value)
    requires periodEnd.Some? ==> periodEnd.value >= claimEra && l.StakedPeriod().value < period
    requires l.ClaimUpToEra(claimEra, periodEnd).Ok?
    ensures var after := l.ClaimUpToEra(claimEra, periodEnd).value.0;
            && LedgerOk(cfg, era, period, after) && after.StakedAmount(period) == l.StakedAmount(period)
            && after.locked == l.locked && after.unlocking == l.unlocking
            && (after.EarliestStakedEra().Some? ==> after.EarliestStakedEra().value == claimEra + 1)
            && (l.EarliestStakedEra().Some? ==> l.EarliestStakedEra().value <= claimEra)
  {
    ClaimKeepsTheRest(cfg.erasPerBuildAndEarn, l, claimEra, periodEnd, era, period);
    ClaimYieldsStakeInForce(l, claimEra, periodEnd, era);
  }

  /** Paying eras that the stored ledger can no longer claim keeps every era paid once. */
  lemma PayKeepsPaidOnce(era: EraNumber, before: Ledgers, ledgers: Ledgers, paid: seq<StakerReward>,
                         account: AccountId, rewards: seq<(EraNumber, Balance)>, last: EraNumber)
    requires StakerPaidOnce(era, before, paid) && StakerPaidOnce(era, ledgers, paid)
    requires LedgerOf(before, account).EarliestStakedEra().Some? && last < era
    requires AscendWithin(rewards, LedgerOf(before, account).EarliestStakedEra().value, last)
    requires LedgerOf(ledgers, account).EarliestStakedEra().Some? ==> last < LedgerOf(ledgers, account).EarliestStakedEra().value
    ensures StakerPaidOnce(era, ledgers, paid + RewardEvents(account, rewards))
  {
    var events := RewardEvents(account, rewards);
    var all := paid + events;
    forall i, j | 0 <= i < j < |all|
      ensures all[i].era != all[j].era || all[i].account != all[j].account
    {
      if i >= |paid| {
        assert all[i] == events[i - |paid|] && all[j] == events[j - |paid|];
      } else if j >= |paid| {
        assert all[i] == paid[i] && all[j] == events[j - |paid|];
      }
    }
  }

  lemma LogStakerRewards(cfg: Config, s: State, paid: seq<StakerReward>)
    requires Inv(cfg, s) && StakerPaidOnce(s.protocol.era, s.ledgers, paid)
    ensures Inv(cfg, s.(trace := s.trace.(stakerRewards := paid)))
  {
    InvParts(cfg, s);
    InvFromParts(cfg, s.(trace := s.trace.(stakerRewards := paid)));
  }

  lemma ClaimStakerKeepsInv(cfg: Config, s: State, account: AccountId, payoutOk: bool)
    requires Inv(cfg, s) && ClaimStakerRewards(cfg, s, account, payoutOk).Done?
    ensures Inv(cfg, ClaimStakerRewards(cfg, s, account, payoutOk).state)
  {
    var l := LedgerOf(s.ledgers, account);
    var span := s.spans[SpanIndex(cfg.eraRewardSpanLength, l.EarliestStakedEra().value)];
    ClaimIsCovered(cfg, s, account);
    var limit := ClaimLimit(s, l.StakedPeriod().value).value;
    var claimEra := Min(span.lastEra, limit.0);
    CoveredClaim(cfg, s, account, span, claimEra, limit.1);
    var (after, pairs) := l.ClaimUpToEra(claimEra, limit.1).value;
    var rewards := StakerRewards(span, pairs.Pairs()).value;
    PaidClaimKeepsInv(cfg, s, account, after, rewards, claimEra);
  }

  lemma PaidClaimKeepsInv(cfg: Config, s: State, account: AccountId, after: AccountLedger, rewards: seq<(EraNumber, Balance)>, claimEra: EraNumber)
    requires Inv(cfg, s) && FundsMove(cfg, s, account, after, s.eraInfo, s.trace.unlocks) && claimEra < s.protocol.era
    requires LedgerOf(s.ledgers, account).EarliestStakedEra().Some?
    requires AscendWithin(rewards, LedgerOf(s.ledgers, account).EarliestStakedEra().value, claimEra)
    requires after.EarliestStakedEra().Some? ==> after.EarliestStakedEra().value == claimEra + 1
    ensures Inv(cfg, UpdateLedger(s, account, after).(
                       trace := s.trace.(stakerRewards := s.trace.stakerRewards + RewardEvents(account, rewards))))
  {
    StoreKeepsInvQuietly(cfg, s, account, after, s.eraInfo);
    var stored := UpdateLedger(s, account, after).(eraInfo := s.eraInfo);
    assert Holds(Payouts, cfg, s) && Holds(Payouts, cfg, stored);
    StoredLedger(s.ledgers, account, after, account);
    PayKeepsPaidOnce(s.protocol.era, s.ledgers, stored.ledgers, s.trace.stakerRewards, account, rewards, claimEra);
    LogStakerRewards(cfg, stored, s.trace.stakerRewards + RewardEvents(account, rewards));
  }

  /** A staker claim never ends in one of the internal errors. */
  lemma ClaimStakerHasNoInternalError(cfg: Config, s: State, account: AccountId, payoutOk: bool)
    requires Inv(cfg, s)
    ensures ClaimStakerRewards(cfg, s, account, payoutOk) != Failed(InternalClaimStakerError)
  {
    var l := LedgerOf(s.ledgers, account);
    if !s.protocol.maintenance && l.StakedPeriod().Some?
       && l.StakedPeriod().value >= cfg.OldestClaimablePeriod(s.protocol.periodInfo.number)
       && SpanIndex(cfg.eraRewardSpanLength, l.EarliestStakedEra().value) in s.spans
    {
      var span := s.spans[SpanIndex(cfg.eraRewardSpanLength, l.EarliestStakedEra().value)];
      ClaimIsCovered(cfg, s, account);
      var limit := ClaimLimit(s, l.StakedPeriod().value).value;
      CoveredClaim(cfg, s, account, span, Min(span.lastEra, limit.0), limit.1);
    }
  }

  /** What an account is due for the eras `first .. last`: its part of the recorded stake, in
      parts per billion, of the staker pool of each era. */
  function DueRewards(l: AccountLedger, history: History, first: EraNumber, last: EraNumber): seq<(EraNumber, Balance)>
    requires forall x :: first <= x <= last ==> x in history
    decreases last + 1 - first
  {
    if first > last then []
    else RewardFor(history[first], first, l.StakeAt(first)) + DueRewards(l, history, first + 1, last)
  }

  lemma {:induction false} StakerRewardsAreDue(span: EraRewardSpan, l: AccountLedger, history: History, first: EraNumber, last: EraNumber)
    requires forall x :: first <= x <= last ==> x in history && span.Get(x) == Some(history[x])
    ensures StakerRewards(span, InForce(l, first, last)) == Some(DueRewards(l, history, first, last))
    decreases last + 1 - first
  {
    var pairs := InForce(l, first, last);
    if first <= last {
      assert pairs[0] == (first, l.StakeAt(first)) && pairs[1..] == InForce(l, first + 1, last);
      assert span.Get(first) == Some(history[first]);
      StakerRewardsAreDue(span, l, history, first + 1, last);
    }
  }

  /** The eras of a span give what was recorded for them. */
  lemma SpanGives(length: nat, era: EraNumber, spans: Spans, index: EraNumber, history: History, x: EraNumber, last: EraNumber)
    requires length > 0 && SpansOk(length, era, spans, index, history) && SpanIndex(length, x) in spans && x >= 1
    requires last <= spans[SpanIndex(length, x)].lastEra
    ensures forall y :: x <= y <= last ==> y in history && spans[SpanIndex(length, x)].Get(y) == Some(history[y])
  {
    SpanIndexBounds(length, x);
    assert SpanOk(length, era, SpanIndex(length, x), spans[SpanIndex(length, x)], history);
  }

  /** A successful claim pays exactly what is due for the eras it covers, from the earliest
      unclaimed one on, and afterwards only later eras can be claimed. */
  lemma ClaimPaysWhatIsDue(cfg: Config, s: State, account: AccountId, payoutOk: bool)
    requires Inv(cfg, s) && ClaimStakerRewards(cfg, s, account, payoutOk).Done?
    ensures var l := LedgerOf(s.ledgers, account);
            var after := ClaimStakerRewards(cfg, s, account, payoutOk).state;
            var first := l.EarliestStakedEra().value;
            exists last :: first <= last < s.protocol.era && (forall x :: first <= x <= last ==> x in s.trace.rewards)
              && after.trace.stakerRewards
                 == s.trace.stakerRewards + RewardEvents(account, DueRewards(l, s.trace.rewards, first, last))
              && (LedgerOf(after.ledgers, account).EarliestStakedEra().Some? ==>
                    LedgerOf(after.ledgers, account).EarliestStakedEra().value == last + 1)
  {
    var l := LedgerOf(s.ledgers, account);
    var first := l.EarliestStakedEra().value;
    var span := s.spans[SpanIndex(cfg.eraRewardSpanLength, first)];
    ClaimIsCovered(cfg, s, account);
    var limit := ClaimLimit(s, l.StakedPeriod().value).value;
    var last := Min(span.lastEra, limit.0);
    CoveredClaim(cfg, s, account, span, last, limit.1);
    ClaimedPairs(cfg, s, account, last, limit.1);
    StoredLedger(s.ledgers, account, l.ClaimUpToEra(last, limit.1).value.0, account);
    SpanCovers(cfg, s, first, last);
    StakerRewardsAreDue(span, l, s.trace.rewards, first, last);
  }

  lemma ClaimedPairs(cfg: Config, s: State, account: AccountId, last: EraNumber, periodEnd: Option<EraNumber>)
    requires Inv(cfg, s) && LedgerOf(s.ledgers, account).EarliestStakedEra().Some?
    requires LedgerOf(s.ledgers, account).ClaimUpToEra(last, periodEnd).Ok?
    ensures var l := LedgerOf(s.ledgers, account);
            l.ClaimUpToEra(last, periodEnd).value.1.Pairs() == InForce(l, l.EarliestStakedEra().value, last)
  {
    InvLedgers(cfg, s);
    LedgerOfIsOk(cfg, s.protocol.era, s.protocol.periodInfo.number, s.ledgers, account);
    ClaimYieldsStakeInForce(LedgerOf(s.ledgers, account), last, periodEnd, s.protocol.era);
  }

  lemma SpanCovers(cfg: Config, s: State, first: EraNumber, last: EraNumber)
    requires Inv(cfg, s) && SpanIndex(cfg.eraRewardSpanLength, first) in s.spans && first >= 1
    requires last <= s.spans[SpanIndex(cfg.eraRewardSpanLength, first)].lastEra
    ensures var span := s.spans[SpanIndex(cfg.eraRewardSpanLength, first)];
            forall x :: first <= x <= last ==> x in s.trace.rewards && span.Get(x) == Some(s.trace.rewards[x])
  {
    InvSpans(cfg, s);
    SpanGives(cfg.eraRewardSpanLength, s.protocol.era, s.spans, s.marker.eraRewardIndex, s.trace.rewards, first, last);
  }

  // ---------- bonus rewards ----------

  lemma PaidKeepsBonuses(era: EraNumber, period: PeriodNumber, ended: map<PeriodNumber, PeriodEndInfo>, bonuses: seq<BonusReward>,
                         stakers: Stakers, key: StakerKey)
    requires BonusesOk(period, ended, bonuses, stakers) && key in stakers && stakers[key].staked.period < period
    requires stakers[key].staked.period in ended && ended[stakers[key].staked.period].totalVpStake > 0
    ensures var q := stakers[key].staked.period;
            var pay := ProRata(PERBILL, stakers[key].staked.voting, ended[q].totalVpStake, ended[q].bonusRewardPool);
            BonusesOk(period, ended, bonuses + [BonusReward(key.account, key.contract, q, pay)], stakers - {key})
  {
    var q := stakers[key].staked.period;
    var pay := ProRata(PERBILL, stakers[key].staked.voting, ended[q].totalVpStake, ended[q].bonusRewardPool);
    var event := BonusReward(key.account, key.contract, q, pay);
    forall p | p in ended
      ensures BonusBounded(ended[p], LogSum(bonuses + [event], BonusPaid(p)), LogSum(bonuses + [event], BonusCount(p)),
                           Sum(stakers - {key}, VotingStake(p)))
    {
      LogSumAppend(bonuses, event, BonusPaid(p));
      LogSumAppend(bonuses, event, BonusCount(p));
      SumRemove(stakers, key, VotingStake(p));
      if p == q {
        PoolStep(ended[p].bonusRewardPool, ended[p].totalVpStake, LogSum(bonuses, BonusPaid(p)), LogSum(bonuses, BonusCount(p)),
                 Sum(stakers, VotingStake(p)), stakers[key].staked.voting);
      }
    }
  }

  /** The ledgers of the other accounts, and of `account` up to its count of contracts. */
  ghost predicate OnlyRecounted(ledgers: Ledgers, account: AccountId, ledgers': Ledgers) {
    var l := LedgerOf(ledgers, account);
    exists count: nat :: count <= l.contractStakeCount && ledgers' == ledgers[account := l.(contractStakeCount := count)]
  }

  lemma RecountSum(ledgers: Ledgers, account: AccountId, ledgers': Ledgers, w: (AccountId, AccountLedger) -> nat)
    requires OnlyRecounted(ledgers, account, ledgers') && w(account, NO_LEDGER) == 0
    requires w(account, LedgerOf(ledgers', account)) == w(account, LedgerOf(ledgers, account))
    ensures Sum(ledgers', w) == Sum(ledgers, w)
  {
    SumInsert(ledgers, account, ledgers'[account], w);
  }

  /** All but the count of contracts of every ledger is as before. */
  lemma RecountedOf(ledgers: Ledgers, account: AccountId, ledgers': Ledgers, a: AccountId)
    requires OnlyRecounted(ledgers, account, ledgers')
    ensures LedgerOf(ledgers', a) == LedgerOf(ledgers, a).(contractStakeCount := LedgerOf(ledgers', a).contractStakeCount)
    ensures LedgerOf(ledgers', a).contractStakeCount <= LedgerOf(ledgers, a).contractStakeCount
  {
  }

  lemma RecountKeepsStakeInv(cfg: Config, s: State, account: AccountId, ledgers: Ledgers)
    requires Inv(cfg, s) && OnlyRecounted(s.ledgers, account, ledgers)
    ensures StakeInv(cfg, s.(ledgers := ledgers))
  {
    assert Holds(Stakes, cfg, s);
    var period := s.protocol.periodInfo.number;
    RecountKeepsLedgers(cfg, s.protocol.era, period, s.ledgers, account, ledgers);
    RecountKeepsFunds(s.ledgers, s.freezes, s.eraInfo.totalLocked, s.eraInfo.unlocking, account, ledgers);
    RecountKeepsStakes(period, s.ledgers, s.stakers, s.eraInfo.nextStakeAmount.total, account, ledgers);
  }

  lemma RecountKeepsLedgers(cfg: Config, era: EraNumber, period: PeriodNumber, ledgers: Ledgers, account: AccountId, ledgers': Ledgers)
    requires LedgersOk(cfg, era, period, ledgers) && OnlyRecounted(ledgers, account, ledgers')
    ensures LedgersOk(cfg, era, period, ledgers')
  {
    forall a | a in ledgers'
      ensures LedgerOk(cfg, era, period, ledgers'[a])
    {
      RecountedOf(ledgers, account, ledgers', a);
      LedgerOfIsOk(cfg, era, period, ledgers, a);
    }
  }

  lemma RecountKeepsFunds(ledgers: Ledgers, freezes: map<AccountId, Balance>, locked: Balance, unlocking: Balance, account: AccountId, ledgers': Ledgers)
    requires FundsOk(ledgers, freezes, locked, unlocking) && OnlyRecounted(ledgers, account, ledgers')
    ensures FundsOk(ledgers', freezes, locked, unlocking)
  {
    RecountedOf(ledgers, account, ledgers', account);
    RecountSum(ledgers, account, ledgers', LockedAmount());
    RecountSum(ledgers, account, ledgers', UnlockingAmount());
    forall a: AccountId
      ensures FreezeOf(freezes, a) == LedgerOf(ledgers', a).totalLocked
    {
      RecountedOf(ledgers, account, ledgers', a);
    }
  }

  lemma RecountKeepsStakes(period: PeriodNumber, ledgers: Ledgers, stakers: Stakers, total: Balance, account: AccountId, ledgers': Ledgers)
    requires period >= 1 && StakesAgree(period, ledgers, stakers, total) && OnlyRecounted(ledgers, account, ledgers')
    ensures StakesAgree(period, ledgers', stakers, total)
  {
    RecountedOf(ledgers, account, ledgers', account);
    RecountSum(ledgers, account, ledgers', LedgerStake(period));
    forall a: AccountId
      ensures LedgerOf(ledgers', a).StakedAmount(period) == Sum(stakers, StakeBy(a, period))
    {
      RecountedOf(ledgers, account, ledgers', a);
      assert LedgerOf(ledgers, a).StakedAmount(period) == Sum(stakers, StakeBy(a, period));
    }
  }

  lemma RecountKeepsPayoutInv(cfg: Config, s: State, account: AccountId, ledgers: Ledgers)
    requires Inv(cfg, s) && OnlyRecounted(s.ledgers, account, ledgers)
    ensures PayoutInv(cfg, s.(ledgers := ledgers))
  {
    assert Holds(Payouts, cfg, s);
    RecountKeepsPaid(s.protocol.era, s.ledgers, s.trace.stakerRewards, account, ledgers);
    RecountKeepsUnlocks(cfg, s.ledgers, s.trace.unlocks, account, ledgers);
  }

  lemma RecountKeepsPaid(era: EraNumber, ledgers: Ledgers, paid: seq<StakerReward>, account: AccountId, ledgers': Ledgers)
    requires StakerPaidOnce(era, ledgers, paid) && OnlyRecounted(ledgers, account, ledgers')
    ensures StakerPaidOnce(era, ledgers', paid)
  {
    forall i | 0 <= i < |paid|
      ensures LedgerOf(ledgers', paid[i].account).EarliestStakedEra() == LedgerOf(ledgers, paid[i].account).EarliestStakedEra()
    {
      RecountedOf(ledgers, account, ledgers', paid[i].account);
    }
  }

  lemma RecountKeepsUnlocks(cfg: Config, ledgers: Ledgers, unlocks: seq<UnlockEvent>, account: AccountId, ledgers': Ledgers)
    requires UnlocksOk(cfg, ledgers, unlocks) && OnlyRecounted(ledgers, account, ledgers')
    ensures UnlocksOk(cfg, ledgers', unlocks)
  {
    forall a: AccountId, b: BlockNumber
      ensures LogSum(unlocks, ClaimedBy(a, b)) + MaturedTotal(LedgerOf(ledgers', a).unlocking, b)
              <= LogSum(unlocks, StartedBy(a, cfg.UnlockingBlocks(), b))
    {
      RecountedOf(ledgers, account, ledgers', a);
      assert LogSum(unlocks, ClaimedBy(a, b)) + MaturedTotal(LedgerOf(ledgers, a).unlocking, b)
             <= LogSum(unlocks, StartedBy(a, cfg.UnlockingBlocks(), b));
    }
  }

  lemma RecountKeepsInv(cfg: Config, s: State, account: AccountId, ledgers: Ledgers)
    requires Inv(cfg, s) && OnlyRecounted(s.ledgers, account, ledgers)
    ensures Inv(cfg, s.(ledgers := ledgers))
  {
    RecountKeepsStakeInv(cfg, s, account, ledgers);
    RecountKeepsPayoutInv(cfg, s, account, ledgers);
    InvParts(cfg, s);
    InvFromParts(cfg, s.(ledgers := ledgers));
  }

  /** The entry of an account that may still claim its bonus has a recorded period end with
      enough voting stake. */
  lemma BonusIsClaimable(cfg: Config, s: State, key: StakerKey)
    requires Inv(cfg, s) && key in s.stakers && s.stakers[key].loyalStaker
    requires cfg.OldestClaimablePeriod(s.protocol.periodInfo.number) <= s.stakers[key].staked.period < s.protocol.periodInfo.number
    ensures var q := s.stakers[key].staked.period;
            && q in s.periodEnds && q in s.trace.ended && s.periodEnds[q] == s.trace.ended[q]
            && s.periodEnds[q].totalVpStake >= s.stakers[key].staked.voting > 0
  {
    InvStakes(cfg, s);
    assert InfoOk(s.protocol.era, s.protocol.periodInfo.number, s.stakers[key]);
    var q := s.stakers[key].staked.period;
    StoredEndIs(cfg, s, q);
    assert Holds(Votes, cfg, s);
    SumCoversEntry(s.stakers, key, VotingStake(q));
  }

  lemma ClaimBonusKeepsInv(cfg: Config, s: State, account: AccountId, contract: SmartContract, payoutOk: bool)
    requires Inv(cfg, s) && ClaimBonusReward(cfg, s, account, contract, payoutOk).Done?
    ensures Inv(cfg, ClaimBonusReward(cfg, s, account, contract, payoutOk).state)
  {
    var key := StakerKey(account, contract);
    var l := LedgerOf(s.ledgers, account);
    var ledgers := s.ledgers[account := l.(contractStakeCount := SatSub(l.contractStakeCount, 1))];
    BonusIsClaimable(cfg, s, key);
    RecountKeepsInv(cfg, s, account, ledgers);
    BonusKeepsInv(cfg, s.(ledgers := ledgers), key);
  }

  lemma BonusKeepsInv(cfg: Config, s: State, key: StakerKey)
    requires Inv(cfg, s) && key in s.stakers && s.stakers[key].staked.period < s.protocol.periodInfo.number
    requires s.stakers[key].staked.period in s.trace.ended && s.trace.ended[s.stakers[key].staked.period].totalVpStake > 0
    ensures var q := s.stakers[key].staked.period;
            var pay := ProRata(PERBILL, s.stakers[key].staked.voting, s.trace.ended[q].totalVpStake, s.trace.ended[q].bonusRewardPool);
            Inv(cfg, s.(stakers := s.stakers - {key},
                        trace := s.trace.(bonuses := s.trace.bonuses + [BonusReward(key.account, key.contract, q, pay)])))
  {
    var q := s.stakers[key].staked.period;
    var pay := ProRata(PERBILL, s.stakers[key].staked.voting, s.trace.ended[q].totalVpStake, s.trace.ended[q].bonusRewardPool);
    DropKeepsInv(cfg, s, {key});
    assert BonusesOk(s.protocol.periodInfo.number, s.trace.ended, s.trace.bonuses, s.stakers) by { assert Holds(Votes, cfg, s); }
    PaidKeepsBonuses(s.protocol.era, s.protocol.periodInfo.number, s.trace.ended, s.trace.bonuses, s.stakers, key);
    LogBonus(cfg, s.(stakers := s.stakers - {key}), s.trace.bonuses + [BonusReward(key.account, key.contract, q, pay)]);
  }

  lemma LogBonus(cfg: Config, s: State, bonuses: seq<BonusReward>)
    requires Inv(cfg, s) && BonusesOk(s.protocol.periodInfo.number, s.trace.ended, bonuses, s.stakers)
    ensures Inv(cfg, s.(trace := s.trace.(bonuses := bonuses)))
  {
    InvParts(cfg, s);
    InvFromParts(cfg, s.(trace := s.trace.(bonuses := bonuses)));
  }

  /** A bonus claim never ends in an internal error. */
  lemma ClaimBonusHasNoInternalError(cfg: Config, s: State, account: AccountId, contract: SmartContract, payoutOk: bool)
    requires Inv(cfg, s)
    ensures ClaimBonusReward(cfg, s, account, contract, payoutOk) != Failed(InternalClaimBonusError)
  {
    var key := StakerKey(account, contract);
    if key in s.stakers && s.stakers[key].loyalStaker
       && cfg.OldestClaimablePeriod(s.protocol.periodInfo.number) <= s.stakers[key].staked.period < s.protocol.periodInfo.number
    {
      BonusIsClaimable(cfg, s, key);
    }
  }

  // ---------- dApp rewards ----------

  lemma PaidKeepsTierShares(cfg: Config, rewards: History, tiers: map<EraNumber, DAppTierRewards>, paid: seq<DAppReward>, era: EraNumber, id: DAppId)
    requires TierSharesOk(cfg, rewards, tiers, paid) && era in tiers && tiers[era].TryClaim(id).Some?
    ensures var (after, amount, ranked) := tiers[era].TryClaim(id).value;
            TierSharesOk(cfg, rewards, tiers[era := after], paid + [DAppReward(id, era, ranked.tier, amount)])
  {
    var (after, amount, ranked) := tiers[era].TryClaim(id).value;
    var event := DAppReward(id, era, ranked.tier, amount);
    forall x: EraNumber, t: nat | x in rewards && OwnNumber(|cfg.tierParams.rewardPortion|, t)
      ensures LogSum(paid + [event], DAppPaid(x, t)) + LiabilityOfEra(tiers[era := after], x, t)
              <= MulNearest(PERMILL, cfg.tierParams.rewardPortion[t], rewards[x].dappRewardPool)
    {
      LogSumAppend(paid, event, DAppPaid(x, t));
      ClaimPaysLiability(tiers[era], id, t);
    }
  }

  lemma PaidKeepsDAppPaidOnce(now: EraNumber, tiers: map<EraNumber, DAppTierRewards>, paid: seq<DAppReward>, era: EraNumber, id: DAppId)
    requires DAppPaidOnce(now, tiers, paid) && era in tiers && era < now && tiers[era].TryClaim(id).Some?
    ensures var (after, amount, ranked) := tiers[era].TryClaim(id).value;
            DAppPaidOnce(now, tiers[era := after], paid + [DAppReward(id, era, ranked.tier, amount)])
  {
  }

  lemma ClaimDAppKeepsInv(cfg: Config, s: State, contract: SmartContract, era: EraNumber, payoutOk: bool)
    requires Inv(cfg, s) && ClaimDAppReward(cfg, s, contract, era, payoutOk).Done?
    ensures Inv(cfg, ClaimDAppReward(cfg, s, contract, era, payoutOk).state)
  {
    InvParts(cfg, s);
    var id := s.integrated[contract];
    PaidKeepsTierShares(cfg, s.trace.rewards, s.dappTiers, s.trace.dappRewards, era, id);
    PaidKeepsDAppPaidOnce(s.protocol.era, s.dappTiers, s.trace.dappRewards, era, id);
    InvFromParts(cfg, ClaimDAppReward(cfg, s, contract, era, payoutOk).state);
  }

  lemma MaintenanceKeepsInv(cfg: Config, s: State, enabled: bool)
    requires Inv(cfg, s)
    ensures Inv(cfg, s.(protocol := s.protocol.(maintenance := enabled)))
  {
    InvParts(cfg, s);
    InvFromParts(cfg, s.(protocol := s.protocol.(maintenance := enabled)));
  }
}

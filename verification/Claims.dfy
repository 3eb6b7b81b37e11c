/** What the claims of staker and dApp rewards pay, era by era. */
module Claims {
  import opened Arithmetic
  import opened StakeTypes
  import opened Pools
  import opened Calendar
  import opened Ledger
  import opened RewardHistory
  import opened Protocol
  import opened Invariant
  import opened Frames
  import opened RewardSteps
  import opened Runs

  // ---------- staker rewards ----------

  /** `pay` is the share of `stake` in the recorded stake of an era, and never more than all of
      its pool. */
  predicate IsStakerShare(reward: EraReward, stake: Balance, pay: Balance) {
    if stake <= reward.staked then IsShare(stake, reward.staked, reward.stakerRewardPool, pay) else pay == reward.stakerRewardPool
  }

  /** Every reward is the share of the stake in force in its era, and every era from `first` to
      `last` with stake in force, and any recorded, has one. */
  ghost predicate PaysShares(l: AccountLedger, history: History, first: EraNumber, last: EraNumber, rewards: seq<(EraNumber, Balance)>) {
    && (forall i :: 0 <= i < |rewards| ==>
          && first <= rewards[i].0 <= last && rewards[i].0 in history
          && IsStakerShare(history[rewards[i].0], l.StakeAt(rewards[i].0), rewards[i].1))
    && (forall x :: first <= x <= last && x in history && l.StakeAt(x) > 0 && history[x].staked > 0 ==>
          exists i :: 0 <= i < |rewards| && rewards[i].0 == x)
    && (forall i, j :: 0 <= i < j < |rewards| ==> rewards[i].0 < rewards[j].0)
  }

  lemma RewardIsShare(reward: EraReward, stake: Balance)
    requires reward.staked > 0
    ensures IsStakerShare(reward, stake, ProRata(PERBILL, stake, reward.staked, reward.stakerRewardPool))
  {
    if stake <= reward.staked {
      ProRataIsShare(stake, reward.staked, reward.stakerRewardPool);
    } else {
      WholeQuotient(reward.stakerRewardPool, PERBILL);
      MultipleHasNoRemainder(PERBILL, reward.stakerRewardPool);
    }
  }

  lemma {:induction false} DueRewardsAreShares(l: AccountLedger, history: History, first: EraNumber, last: EraNumber)
    requires forall x :: first <= x <= last ==> x in history
    ensures PaysShares(l, history, first, last, DueRewards(l, history, first, last))
    decreases last + 1 - first
  {
    if first <= last {
      var head, rest := RewardFor(history[first], first, l.StakeAt(first)), DueRewards(l, history, first + 1, last);
      DueRewardsAreShares(l, history, first + 1, last);
      if history[first].staked > 0 {
        RewardIsShare(history[first], l.StakeAt(first));
      }
      OneMoreShare(l, history, first, last, head, rest);
    }
  }

  lemma OneMoreShare(l: AccountLedger, history: History, first: EraNumber, last: EraNumber, head: seq<(EraNumber, Balance)>, rest: seq<(EraNumber, Balance)>)
    requires first <= last && first in history && PaysShares(l, history, first + 1, last, rest)
    requires |head| <= 1 && (l.StakeAt(first) > 0 && history[first].staked > 0 ==> |head| == 1)
    requires |head| == 1 ==> head[0].0 == first && IsStakerShare(history[first], l.StakeAt(first), head[0].1)
    ensures PaysShares(l, history, first, last, head + rest)
  {
    var all := head + rest;
    forall x | first <= x <= last && x in history && l.StakeAt(x) > 0 && history[x].staked > 0
      ensures exists i :: 0 <= i < |all| && all[i].0 == x
    {
      if x == first {
        assert all[0].0 == first;
      } else {
        var i :| 0 <= i < |rest| && rest[i].0 == x;
        assert all[|head| + i].0 == x;
      }
    }
  }

  /** The last era that a claim starting with era `first` of period `period` covers: it reaches
      to the end of the chunk of the history that holds `first`, to the last finished era, and
      to the end of the period, whichever comes first. */
  function LastClaimed(cfg: Config, era: EraNumber, first: EraNumber, period: PeriodNumber): EraNumber {
    var chunkEnd := SpanIndex(cfg.eraRewardSpanLength, first) + cfg.eraRewardSpanLength;
    Min(SatSub(Min(chunkEnd, era), 1), FinalEra(cfg.erasPerBuildAndEarn, period))
  }

  lemma ClaimReachesTo(cfg: Config, s: State, account: AccountId, span: EraRewardSpan, limit: (EraNumber, Option<EraNumber>))
    requires Inv(cfg, s) && LedgerOf(s.ledgers, account).StakedPeriod().Some?
    requires LedgerOf(s.ledgers, account).StakedPeriod().value >= cfg.OldestClaimablePeriod(s.protocol.periodInfo.number)
    requires var l := LedgerOf(s.ledgers, account);
             var index := SpanIndex(cfg.eraRewardSpanLength, l.EarliestStakedEra().value);
             index in s.spans && s.spans[index] == span && ClaimLimit(s, l.StakedPeriod().value) == Some(limit)
    ensures var l := LedgerOf(s.ledgers, account);
            var final := FinalEra(cfg.erasPerBuildAndEarn, l.StakedPeriod().value);
            && Min(span.lastEra, limit.0) == LastClaimed(cfg, s.protocol.era, l.EarliestStakedEra().value, l.StakedPeriod().value)
            && (limit.1 == Some(final) || (limit.1.None? && Min(span.lastEra, limit.0) < final))
  {
    var l := LedgerOf(s.ledgers, account);
    var index := SpanIndex(cfg.eraRewardSpanLength, l.EarliestStakedEra().value);
    StakedPeriodIs(cfg, s, account);
    InvSpans(cfg, s);
    assert SpanOk(cfg.eraRewardSpanLength, s.protocol.era, index, span, s.trace.rewards);
    if l.StakedPeriod().value < s.protocol.periodInfo.number {
      StoredEndIs(cfg, s, l.StakedPeriod().value);
    }
  }

  /** A staker claim pays the share of every era from the earliest unclaimed one on, as far as a
      single claim reaches, and leaves exactly the later eras to claim. */
  ghost predicate ClaimsShares(cfg: Config, s: State, t: State, account: AccountId) {
    var before, after := LedgerOf(s.ledgers, account), LedgerOf(t.ledgers, account);
    && before.EarliestStakedEra().Some? && before.StakedPeriod().Some?
    && var first := before.EarliestStakedEra().value;
       var last := LastClaimed(cfg, s.protocol.era, first, before.StakedPeriod().value);
       && first <= last < s.protocol.era
       && (exists rewards :: && PaysShares(before, s.trace.rewards, first, last, rewards)
                             && t.trace.stakerRewards == s.trace.stakerRewards + RewardEvents(account, rewards))
       && LeavesLaterEras(before, after, last, FinalEra(cfg.erasPerBuildAndEarn, before.StakedPeriod().value))
  }

  /** The stake of the eras after `last` is still there, unless those are beyond the period. */
  ghost predicate LeavesLaterEras(before: AccountLedger, after: AccountLedger, last: EraNumber, final: EraNumber) {
    && after.locked == before.locked && after.unlocking == before.unlocking
    && if last < final then after.EarliestStakedEra() == Some(last + 1) && forall x :: last < x ==> after.StakeAt(x) == before.StakeAt(x)
       else after.EarliestStakedEra().None?
  }

  lemma ClaimedLedgerLeaves(cfg: Config, s: State, account: AccountId, last: EraNumber, periodEnd: Option<EraNumber>)
    requires Inv(cfg, s) && LedgerOf(s.ledgers, account).StakedPeriod().Some? && last < s.protocol.era
    requires LedgerOf(s.ledgers, account).ClaimUpToEra(last, periodEnd).Ok?
    requires var final := FinalEra(cfg.erasPerBuildAndEarn, LedgerOf(s.ledgers, account).StakedPeriod().value);
             last <= final && (periodEnd == Some(final) || (periodEnd.None? && last < final))
    ensures var before := LedgerOf(s.ledgers, account);
            LeavesLaterEras(before, before.ClaimUpToEra(last, periodEnd).value.0, last, FinalEra(cfg.erasPerBuildAndEarn, before.StakedPeriod().value))
  {
    var l, period := LedgerOf(s.ledgers, account), s.protocol.periodInfo.number;
    InvLedgers(cfg, s);
    LedgerOfIsOk(cfg, s.protocol.era, period, s.ledgers, account);
    ClaimKeepsTheRest(cfg.erasPerBuildAndEarn, l, last, periodEnd, s.protocol.era, period);
    if last < FinalEra(cfg.erasPerBuildAndEarn, l.StakedPeriod().value) {
      forall x | last < x
        ensures l.ClaimUpToEra(last, periodEnd).value.0.StakeAt(x) == l.StakeAt(x)
      {
        ClaimKeepsLaterEras(l, last, periodEnd, s.protocol.era, x);
      }
    }
  }

  /** An account whose stored ledger became empty has no stake left to claim. */
  lemma StoredLeaves(ledgers: Ledgers, account: AccountId, before: AccountLedger, l: AccountLedger, last: EraNumber, final: EraNumber)
    requires LeavesLaterEras(before, l, last, final)
    ensures LeavesLaterEras(before, LedgerOf(StoreLedger(ledgers, account, l), account), last, final)
  {
    StoredLedger(ledgers, account, l, account);
  }

  lemma StakerClaimPaysShares(cfg: Config, s: State, account: AccountId, payoutOk: bool, t: State)
    requires Reachable(cfg, s) && ClaimStakerRewards(cfg, s, account, payoutOk) == Done(t)
    ensures ClaimsShares(cfg, s, t, account)
  {
    ReachableIsOk(cfg, s);
    var l := LedgerOf(s.ledgers, account);
    var first := l.EarliestStakedEra().value;
    var span := s.spans[SpanIndex(cfg.eraRewardSpanLength, first)];
    ClaimIsCovered(cfg, s, account);
    var limit := ClaimLimit(s, l.StakedPeriod().value).value;
    ClaimReachesTo(cfg, s, account, span, limit);
    var last := Min(span.lastEra, limit.0);
    CoveredClaim(cfg, s, account, span, last, limit.1);
    ClaimedPairs(cfg, s, account, last, limit.1);
    SpanCovers(cfg, s, first, last);
    StakerRewardsAreDue(span, l, s.trace.rewards, first, last);
    DueRewardsAreShares(l, s.trace.rewards, first, last);
    ClaimedLedgerLeaves(cfg, s, account, last, limit.1);
    StoredLeaves(s.ledgers, account, l, l.ClaimUpToEra(last, limit.1).value.0, last, FinalEra(cfg.erasPerBuildAndEarn, l.StakedPeriod().value));
    assert t.trace.stakerRewards == s.trace.stakerRewards + RewardEvents(account, DueRewards(l, s.trace.rewards, first, last));
  }

  // ---------- dApp rewards ----------

  /** A dApp claim pays the reward of the tier and the rank reward for every rank of the dApp, and
      takes it off the tier assignment of that era only. */
  lemma DAppClaimPaysTierAndRank(cfg: Config, s: State, contract: SmartContract, era: EraNumber, payoutOk: bool, t: State)
    requires ClaimDAppReward(cfg, s, contract, era, payoutOk) == Done(t)
    ensures contract in s.integrated && era in s.dappTiers && s.integrated[contract] in s.dappTiers[era].dapps
    ensures var id, r := s.integrated[contract], s.dappTiers[era];
            var ranked := r.dapps[id];
            && t.dappTiers == s.dappTiers[era := r.(dapps := r.dapps - {id})]
            && exists amount: Balance ::
                 && t.trace.dappRewards == s.trace.dappRewards + [DAppReward(id, era, ranked.tier, amount)]
                 && (ranked.tier < |r.rewards| && ranked.tier < |r.rankRewards| ==>
                       amount == r.rewards[ranked.tier] + ranked.rank * r.rankRewards[ranked.tier])
  {
    var id, r := s.integrated[contract], s.dappTiers[era];
    var ranked := r.dapps[id];
    assert t.trace.dappRewards == s.trace.dappRewards + [DAppReward(id, era, ranked.tier, r.TierShare(ranked))];
  }
}

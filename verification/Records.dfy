/** What the block that ends an era records, and that nothing else in a run does. */
module Records {
  import opened StakeTypes
  import opened RewardHistory
  import opened Tiers
  import opened TierAssignment
  import opened Protocol
  import opened Invariant
  import opened StakeSteps
  import opened EraSteps
  import opened Runs

  /** The next block ends the current era. */
  predicate EndsEraNext(s: State) {
    !s.protocol.maintenance && s.protocol.nextEraStart <= s.now + 1
  }

  // ---------- one block ----------

  /** The reward of an era: no pools for a Voting subperiod, and those passed in otherwise. */
  predicate IsRewardOf(s: State, inputs: EraInputs, reward: EraReward) {
    && reward.staked == s.eraInfo.currentStakeAmount.total
    && if s.protocol.periodInfo.subperiod == Voting then reward.stakerRewardPool == 0 && reward.dappRewardPool == 0
       else reward.stakerRewardPool == inputs.stakerPool && reward.dappRewardPool == inputs.dappPool
  }

  predicate IsEndOf(s: State, inputs: EraInputs, end: PeriodEndInfo) {
    && end.bonusRewardPool == inputs.bonusPool && end.totalVpStake == s.eraInfo.currentStakeAmount.voting
    && end.finalEra == s.protocol.era
  }

  /** The records of all other eras and periods stay as they are. */
  predicate BlockRecords(s: State, inputs: EraInputs, t: State) {
    var era, info := s.protocol.era, s.protocol.periodInfo;
    && era in t.trace.rewards && IsRewardOf(s, inputs, t.trace.rewards[era])
    && t.trace.rewards == s.trace.rewards[era := t.trace.rewards[era]]
    && if info.IsNextPeriod(era + 1)
       then && info.number in t.trace.ended && IsEndOf(s, inputs, t.trace.ended[info.number])
            && t.trace.ended == s.trace.ended[info.number := t.trace.ended[info.number]]
       else t.trace.ended == s.trace.ended
  }

  lemma ClosedEraRecords(cfg: Config, s: State, inputs: EraInputs, t: State)
    requires RecordsPeriod(cfg, s, t, inputs.bonusPool) && RecordsReward(cfg, s, t, RewardOfEra(s, inputs))
    ensures BlockRecords(s, inputs, t)
  {
  }

  lemma NewEraRecords(cfg: Config, s: State, inputs: EraInputs, t: State)
    requires t == NewEra(cfg, s, inputs)
    ensures BlockRecords(s, inputs, t)
  {
    CloseEraCloses(cfg, s, inputs.bonusPool, RewardOfEra(s, inputs), AssignTiers(cfg, s, inputs),
                   NextTierConfig(cfg, s.tierConfig, inputs.price, inputs.issuance));
    ClosedEraRecords(cfg, s, inputs, t);
  }

  lemma AnyBlockNumber(s: State, now: BlockNumber, inputs: EraInputs, t: State)
    requires BlockRecords(s.(now := now), inputs, t)
    ensures BlockRecords(s, inputs, t)
  {
  }

  lemma EndingBlockRecords(cfg: Config, s: State, inputs: EraInputs, t: State)
    requires EndsEraNext(s) && t == OnInitialize(cfg, s, inputs)
    ensures BlockRecords(s, inputs, t)
  {
    NewEraRecords(cfg, s.(now := s.now + 1), inputs, t);
    AnyBlockNumber(s, s.now + 1, inputs, t);
  }

  /** The tiers of a Build&Earn era are assigned with the configuration, the ranking and the
      dApp pool of its end, and every era ends with the configuration for the new price. */
  lemma EndingBlockAssignsTiers(cfg: Config, s: State, inputs: EraInputs, t: State)
    requires EndsEraNext(s) && t == OnInitialize(cfg, s, inputs)
    ensures t.dappTiers == if s.protocol.periodInfo.subperiod == Voting then s.dappTiers
                           else s.dappTiers[s.protocol.era := TierRewards(s.tierConfig, cfg.rankingEnabled, inputs.ranking,
                                                                          s.protocol.periodInfo.number, inputs.dappPool)]
    ensures t.tierConfig == CalculateNew(cfg.tierParams, cfg.slotFactor, cfg.basePrice, inputs.price, inputs.issuance)
  {
  }

  // ---------- runs ----------

  predicate KeepsRecords(s: State, t: State) {
    t.trace.rewards == s.trace.rewards && t.trace.ended == s.trace.ended
  }

  lemma OtherCallKeepsRecords(cfg: Config, s: State, call: Call, t: State)
    requires !call.CallStake? && !call.CallUnstake? && !call.CallOnInitialize? && Dispatch(cfg, s, call) == Done(t)
    ensures KeepsRecords(s, t)
  {
  }

  /** Every record is an earlier one, or one of the block that ends the era or period. */
  ghost predicate RecordsOnly(s: State, call: Call, t: State) {
    && (forall x :: x in t.trace.rewards ==>
          || (x in s.trace.rewards && s.trace.rewards[x] == t.trace.rewards[x])
          || (call.CallOnInitialize? && EndsEraNext(s) && s.protocol.era == x && IsRewardOf(s, call.inputs, t.trace.rewards[x])))
    && (forall q :: q in t.trace.ended ==>
          || (q in s.trace.ended && s.trace.ended[q] == t.trace.ended[q])
          || (&& call.CallOnInitialize? && EndsEraNext(s) && s.protocol.periodInfo.number == q
              && s.protocol.periodInfo.IsNextPeriod(s.protocol.era + 1) && IsEndOf(s, call.inputs, t.trace.ended[q])))
  }

  lemma EndingBlockRecordsOnly(cfg: Config, s: State, call: Call, t: State)
    requires call.CallOnInitialize? && EndsEraNext(s) && t == OnInitialize(cfg, s, call.inputs)
    ensures RecordsOnly(s, call, t)
  {
    EndingBlockRecords(cfg, s, call.inputs, t);
  }

  lemma KeptRecords(s: State, call: Call, t: State)
    requires KeepsRecords(s, t)
    ensures RecordsOnly(s, call, t)
  {
  }

  lemma QuietBlockKeepsRecords(cfg: Config, s: State, inputs: EraInputs, t: State)
    requires !EndsEraNext(s) && t == OnInitialize(cfg, s, inputs)
    ensures KeepsRecords(s, t)
  {
  }

  lemma CallKeepsRecords(cfg: Config, s: State, call: Call, t: State)
    requires Dispatch(cfg, s, call) == Done(t) && !call.CallOnInitialize?
    ensures KeepsRecords(s, t)
  {
    match call
    case CallStake(a, c, amount) => StakeIs(cfg, s, a, c, amount);
    case CallUnstake(a, c, amount) => UnstakeIs(cfg, s, a, c, amount);
    case _ => OtherCallKeepsRecords(cfg, s, call, t);
  }

  lemma CallRecordsOnly(cfg: Config, s: State, call: Call, t: State)
    requires t == Next(cfg, s, call)
    ensures RecordsOnly(s, call, t)
  {
    if call.CallOnInitialize? && EndsEraNext(s) {
      EndingBlockRecordsOnly(cfg, s, call, t);
    } else {
      if call.CallOnInitialize? {
        QuietBlockKeepsRecords(cfg, s, call.inputs, t);
      } else if Dispatch(cfg, s, call).Done? {
        CallKeepsRecords(cfg, s, call, t);
      }
      KeptRecords(s, call, t);
    }
  }

  /** The `i`-th call of the run is the block that ended era `era`, with this reward. */
  ghost predicate RewardedAt(cfg: Config, genesis: State, calls: seq<Call>, i: nat, era: EraNumber, reward: EraReward) {
    && i < |calls| && calls[i].CallOnInitialize?
    && var s := Execute(cfg, genesis, calls[..i]);
       EndsEraNext(s) && s.protocol.era == era && IsRewardOf(s, calls[i].inputs, reward)
  }

  /** The `i`-th call of the run is the block that ended period `period`, with this record. */
  ghost predicate EndedAt(cfg: Config, genesis: State, calls: seq<Call>, i: nat, period: PeriodNumber, end: PeriodEndInfo) {
    && i < |calls| && calls[i].CallOnInitialize?
    && var s := Execute(cfg, genesis, calls[..i]);
       && EndsEraNext(s) && s.protocol.periodInfo.number == period && s.protocol.periodInfo.IsNextPeriod(s.protocol.era + 1)
       && IsEndOf(s, calls[i].inputs, end)
  }

  ghost predicate RewardsTraced(cfg: Config, genesis: State, calls: seq<Call>, rewards: History) {
    forall x :: x in rewards ==> exists i: nat :: RewardedAt(cfg, genesis, calls, i, x, rewards[x])
  }

  ghost predicate EndsTraced(cfg: Config, genesis: State, calls: seq<Call>, ended: map<PeriodNumber, PeriodEndInfo>) {
    forall q :: q in ended ==> exists i: nat :: EndedAt(cfg, genesis, calls, i, q, ended[q])
  }

  lemma RewardsStayTraced(cfg: Config, genesis: State, calls: seq<Call>, before: State, t: State)
    requires |calls| > 0 && before == Execute(cfg, genesis, calls[..|calls| - 1]) && RecordsOnly(before, calls[|calls| - 1], t)
    requires RewardsTraced(cfg, genesis, calls[..|calls| - 1], before.trace.rewards)
    ensures RewardsTraced(cfg, genesis, calls, t.trace.rewards)
  {
    var fewer := calls[..|calls| - 1];
    forall x | x in t.trace.rewards
      ensures exists i: nat :: RewardedAt(cfg, genesis, calls, i, x, t.trace.rewards[x])
    {
      if x in before.trace.rewards && before.trace.rewards[x] == t.trace.rewards[x] {
        var i: nat :| RewardedAt(cfg, genesis, fewer, i, x, before.trace.rewards[x]);
        assert fewer[..i] == calls[..i];
        assert RewardedAt(cfg, genesis, calls, i, x, t.trace.rewards[x]);
      } else {
        assert RewardedAt(cfg, genesis, calls, |calls| - 1, x, t.trace.rewards[x]);
      }
    }
  }

  lemma EndsStayTraced(cfg: Config, genesis: State, calls: seq<Call>, before: State, t: State)
    requires |calls| > 0 && before == Execute(cfg, genesis, calls[..|calls| - 1]) && RecordsOnly(before, calls[|calls| - 1], t)
    requires EndsTraced(cfg, genesis, calls[..|calls| - 1], before.trace.ended)
    ensures EndsTraced(cfg, genesis, calls, t.trace.ended)
  {
    var fewer := calls[..|calls| - 1];
    forall q | q in t.trace.ended
      ensures exists i: nat :: EndedAt(cfg, genesis, calls, i, q, t.trace.ended[q])
    {
      if q in before.trace.ended && before.trace.ended[q] == t.trace.ended[q] {
        var i: nat :| EndedAt(cfg, genesis, fewer, i, q, before.trace.ended[q]);
        assert fewer[..i] == calls[..i];
        assert EndedAt(cfg, genesis, calls, i, q, t.trace.ended[q]);
      } else {
        assert EndedAt(cfg, genesis, calls, |calls| - 1, q, t.trace.ended[q]);
      }
    }
  }

  /** In every run, the reward recorded for an era, and the end recorded for a period, are those
      of the block that ended it, with the pools passed in to that block. */
  lemma {:induction false} RecordsComeFromEndingBlocks(cfg: Config, genesis: State, calls: seq<Call>)
    requires genesis.trace.rewards == map[] && genesis.trace.ended == map[]
    ensures RewardsTraced(cfg, genesis, calls, Execute(cfg, genesis, calls).trace.rewards)
    ensures EndsTraced(cfg, genesis, calls, Execute(cfg, genesis, calls).trace.ended)
    decreases |calls|
  {
    if |calls| > 0 {
      var before, t := Execute(cfg, genesis, calls[..|calls| - 1]), Execute(cfg, genesis, calls);
      RecordsComeFromEndingBlocks(cfg, genesis, calls[..|calls| - 1]);
      CallRecordsOnly(cfg, before, calls[|calls| - 1], t);
      RewardsStayTraced(cfg, genesis, calls, before, t);
      EndsStayTraced(cfg, genesis, calls, before, t);
    }
  }

  /** In particular, the stored end of a period that a bonus is paid from. */
  lemma StoredEndComesFromItsBlock(cfg: Config, c: TierConfig, calls: seq<Call>, period: PeriodNumber)
    requires c.rewardPortion == cfg.tierParams.rewardPortion && ValidRun(cfg, Genesis(cfg, c), calls)
    requires period in Execute(cfg, Genesis(cfg, c), calls).periodEnds
    ensures exists i: nat :: EndedAt(cfg, Genesis(cfg, c), calls, i, period, Execute(cfg, Genesis(cfg, c), calls).periodEnds[period])
  {
    RunKeepsInv(cfg, c, calls);
    InvEnds(cfg, Execute(cfg, Genesis(cfg, c), calls));
    RecordsComeFromEndingBlocks(cfg, Genesis(cfg, c), calls);
  }
}

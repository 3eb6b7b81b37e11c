/** What happens at most once in a run: an id is given to one contract and never comes back,
    and a bonus is paid once. */
module Lifetimes {
  import opened StakeTypes
  import opened Protocol
  import opened Invariant
  import opened StakeSteps
  import opened EraSteps
  import opened Runs

  // ---------- what most calls leave alone ----------

  /** Entries are kept with their period, dropped, or made in the current period. */
  ghost predicate EntriesMove(period: PeriodNumber, stakers: Stakers, stakers': Stakers) {
    forall k :: k in stakers' ==>
      || stakers'[k].staked.period == period
      || (k in stakers && stakers'[k].staked.period == stakers[k].staked.period)
  }

  /** Nothing is registered, and no bonus and no dApp reward is paid. */
  ghost predicate Ordinary(s: State, t: State) {
    && EntriesMove(s.protocol.periodInfo.number, s.stakers, t.stakers)
    && t.trace.bonuses == s.trace.bonuses && t.trace.dappRewards == s.trace.dappRewards
    && t.integrated == s.integrated && t.nextDAppId == s.nextDAppId
  }

  lemma StakeIsOrdinary(cfg: Config, s: State, account: AccountId, contract: SmartContract, amount: Balance)
    requires Stake(cfg, s, account, contract, amount).Done?
    ensures Ordinary(s, Stake(cfg, s, account, contract, amount).state)
  {
    StakeIs(cfg, s, account, contract, amount);
  }

  lemma UnstakeIsOrdinary(cfg: Config, s: State, account: AccountId, contract: SmartContract, amount: Balance)
    requires Unstake(cfg, s, account, contract, amount).Done?
    ensures Ordinary(s, Unstake(cfg, s, account, contract, amount).state)
  {
    UnstakeIs(cfg, s, account, contract, amount);
  }

  predicate IsSpecial(call: Call) {
    call.CallRegister? || call.CallUnregister? || call.CallClaimBonus? || call.CallClaimDApp?
  }

  predicate MovesFunds(call: Call) {
    call.CallLock? || call.CallUnlock? || call.CallClaimUnlocked? || call.CallRelock? || call.CallClaimStaker?
  }

  lemma FundsCallsAreOrdinary(cfg: Config, s: State, call: Call, t: State)
    requires Dispatch(cfg, s, call) == Done(t) && MovesFunds(call)
    ensures Ordinary(s, t)
  {
  }

  lemma OtherCallsAreOrdinary(cfg: Config, s: State, call: Call, t: State)
    requires Dispatch(cfg, s, call) == Done(t) && !IsSpecial(call)
    ensures Ordinary(s, t)
  {
    if MovesFunds(call) {
      FundsCallsAreOrdinary(cfg, s, call, t);
    } else {
      match call
      case CallStake(a, c, amount) => StakeIsOrdinary(cfg, s, a, c, amount);
      case CallUnstake(a, c, amount) => UnstakeIsOrdinary(cfg, s, a, c, amount);
      case CallOnInitialize(inputs) => BlockPasses(cfg, s, inputs, t);
      case _ =>
    }
  }

  // ---------- ids of contracts ----------

  /** `id` was given out, and no contract has it any more. */
  ghost predicate Retired(s: State, id: DAppId) {
    id < s.nextDAppId && forall c :: c in s.integrated ==> s.integrated[c] != id
  }

  /** The dApp rewards paid after `earlier`, none of them to `id`. */
  ghost predicate NothingNewFor(id: DAppId, earlier: seq<DAppReward>, later: seq<DAppReward>) {
    && |earlier| <= |later| && later[..|earlier|] == earlier
    && forall i :: |earlier| <= i < |later| ==> later[i].id != id
  }

  /** Registering, unregistering and claiming a bonus pay no dApp reward. */
  lemma OthersKeepRetired(cfg: Config, s: State, call: Call, t: State, id: DAppId)
    requires Retired(s, id) && Dispatch(cfg, s, call) == Done(t) && (call.CallRegister? || call.CallUnregister? || call.CallClaimBonus?)
    ensures Retired(t, id) && t.trace.dappRewards == s.trace.dappRewards
  {
  }

  lemma DAppClaimPaysOthers(cfg: Config, s: State, contract: SmartContract, era: EraNumber, payoutOk: bool, id: DAppId)
    requires Retired(s, id) && ClaimDAppReward(cfg, s, contract, era, payoutOk).Done?
    ensures var t := ClaimDAppReward(cfg, s, contract, era, payoutOk).state;
            Retired(t, id) && NothingNewFor(id, s.trace.dappRewards, t.trace.dappRewards)
  {
  }

  lemma SpecialCallKeepsRetired(cfg: Config, s: State, call: Call, t: State, id: DAppId)
    requires Retired(s, id) && IsSpecial(call) && Dispatch(cfg, s, call) == Done(t)
    ensures Retired(t, id) && NothingNewFor(id, s.trace.dappRewards, t.trace.dappRewards)
  {
    if call.CallClaimDApp? {
      DAppClaimPaysOthers(cfg, s, call.contract, call.era, call.payoutOk, id);
    } else {
      OthersKeepRetired(cfg, s, call, t, id);
    }
  }

  lemma RetiredStaysRetired(cfg: Config, s: State, call: Call, t: State, id: DAppId)
    requires Retired(s, id) && t == Next(cfg, s, call)
    ensures Retired(t, id) && NothingNewFor(id, s.trace.dappRewards, t.trace.dappRewards)
  {
    if Dispatch(cfg, s, call).Done? {
      if IsSpecial(call) {
        SpecialCallKeepsRetired(cfg, s, call, t, id);
      } else {
        OtherCallsAreOrdinary(cfg, s, call, t);
      }
    }
  }

  lemma NothingNewSince(id: DAppId, first: seq<DAppReward>, second: seq<DAppReward>, third: seq<DAppReward>)
    requires NothingNewFor(id, first, second) && NothingNewFor(id, second, third)
    ensures NothingNewFor(id, first, third)
  {
    assert third[..|first|] == third[..|second|][..|first|];
    forall i | |first| <= i < |third|
      ensures third[i].id != id
    {
      assert i < |second| ==> third[i] == third[..|second|][i];
    }
  }

  /** Once a contract has left, its id is never in use again in any continuation of the run,
      and no dApp reward is ever paid to it. */
  lemma {:induction false} RetiredIdNeverReturns(cfg: Config, s: State, calls: seq<Call>, t: State, id: DAppId)
    requires Retired(s, id) && t == Execute(cfg, s, calls)
    ensures Retired(t, id) && NothingNewFor(id, s.trace.dappRewards, t.trace.dappRewards)
    decreases |calls|
  {
    if |calls| > 0 {
      var before := Execute(cfg, s, calls[..|calls| - 1]);
      RetiredIdNeverReturns(cfg, s, calls[..|calls| - 1], before, id);
      RetiredStaysRetired(cfg, before, calls[|calls| - 1], t, id);
      NothingNewSince(id, s.trace.dappRewards, before.trace.dappRewards, t.trace.dappRewards);
    }
  }

  /** Unregistering retires the id of the contract. */
  lemma UnregisterRetires(cfg: Config, s: State, contract: SmartContract)
    requires Inv(cfg, s) && Unregister(s, contract).Done?
    ensures Retired(Unregister(s, contract).state, s.integrated[contract])
  {
    assert IdsOk(s.integrated, s.nextDAppId, s.contracts) by { InvContracts(cfg, s); }
  }

  /** After its contract was unregistered, a dApp is paid no reward for any era, whatever it
      had left to claim and whatever is called later. */
  lemma UnregisteredDAppIsNeverPaid(cfg: Config, s: State, contract: SmartContract, calls: seq<Call>)
    requires Reachable(cfg, s) && Unregister(s, contract).Done?
    ensures NothingNewFor(s.integrated[contract], s.trace.dappRewards,
                          Execute(cfg, Unregister(s, contract).state, calls).trace.dappRewards)
  {
    ReachableIsOk(cfg, s);
    UnregisterRetires(cfg, s, contract);
    var after := Unregister(s, contract).state;
    RetiredIdNeverReturns(cfg, after, calls, Execute(cfg, after, calls), s.integrated[contract]);
  }

  // ---------- slots of contracts ----------

  lemma RegistrationKeepsWithinMaximum(cfg: Config, s: State, contract: SmartContract)
    requires |s.integrated| <= cfg.maxNumberOfContracts
    ensures Register(cfg, s, contract).Done? ==> |Register(cfg, s, contract).state.integrated| <= cfg.maxNumberOfContracts
    ensures Unregister(s, contract).Done? ==> |Unregister(s, contract).state.integrated| <= cfg.maxNumberOfContracts
  {
    FewerKeys(s.integrated, contract);
  }

  lemma CallKeepsWithinMaximum(cfg: Config, s: State, call: Call, t: State)
    requires |s.integrated| <= cfg.maxNumberOfContracts && t == Next(cfg, s, call)
    ensures |t.integrated| <= cfg.maxNumberOfContracts
  {
    if Dispatch(cfg, s, call).Done? {
      if call.CallRegister? || call.CallUnregister? {
        RegistrationKeepsWithinMaximum(cfg, s, call.contract);
      } else if !IsSpecial(call) {
        OtherCallsAreOrdinary(cfg, s, call, t);
      }
    }
  }

  lemma FewerKeys(integrated: map<SmartContract, DAppId>, contract: SmartContract)
    ensures |integrated - {contract}| == |integrated| - if contract in integrated then 1 else 0
  {
    var after := integrated - {contract};
    assert |after| == |after.Keys| && |integrated| == |integrated.Keys|;
    assert after.Keys == integrated.Keys - {contract};
  }

  lemma {:induction false} RunStaysWithinMaximum(cfg: Config, c: TierConfig, calls: seq<Call>)
    ensures |Execute(cfg, Genesis(cfg, c), calls).integrated| <= cfg.maxNumberOfContracts
    decreases |calls|
  {
    if |calls| > 0 {
      RunStaysWithinMaximum(cfg, c, calls[..|calls| - 1]);
      CallKeepsWithinMaximum(cfg, Execute(cfg, Genesis(cfg, c), calls[..|calls| - 1]), calls[|calls| - 1], Execute(cfg, Genesis(cfg, c), calls));
    }
  }

  /** No more contracts are ever registered than allowed, and unregistering one always makes
      room for another. */
  lemma UnregisteringFreesSlot(cfg: Config, s: State, contract: SmartContract, other: SmartContract)
    requires Reachable(cfg, s)
    ensures |s.integrated| <= cfg.maxNumberOfContracts
    ensures Unregister(s, contract).Done? ==>
              Register(cfg, Unregister(s, contract).state, other) != Failed(ExceededMaxNumberOfContracts)
  {
    var c: TierConfig, calls: seq<Call> :|
      && c.rewardPortion == cfg.tierParams.rewardPortion
      && ValidRun(cfg, Genesis(cfg, c), calls) && s == Execute(cfg, Genesis(cfg, c), calls);
    RunStaysWithinMaximum(cfg, c, calls);
    FewerKeys(s.integrated, contract);
  }

  // ---------- bonuses ----------

  /** No bonus is paid twice, and the entry of a paid one is gone for good. */
  ghost predicate BonusesOnce(bonuses: seq<BonusReward>, stakers: Stakers) {
    && (forall i, j :: 0 <= i < j < |bonuses| ==>
          bonuses[i].account != bonuses[j].account || bonuses[i].contract != bonuses[j].contract || bonuses[i].period != bonuses[j].period)
    && (forall i :: 0 <= i < |bonuses| && StakerKey(bonuses[i].account, bonuses[i].contract) in stakers ==>
          stakers[StakerKey(bonuses[i].account, bonuses[i].contract)].staked.period != bonuses[i].period)
  }

  lemma EntriesKeepBonuses(period: PeriodNumber, bonuses: seq<BonusReward>, stakers: Stakers, stakers': Stakers)
    requires BonusesOnce(bonuses, stakers) && EntriesMove(period, stakers, stakers')
    requires forall i :: 0 <= i < |bonuses| ==> bonuses[i].period < period
    ensures BonusesOnce(bonuses, stakers')
  {
  }

  lemma PaidBonusIsOnce(bonuses: seq<BonusReward>, stakers: Stakers, key: StakerKey, amount: Balance)
    requires BonusesOnce(bonuses, stakers) && key in stakers
    ensures BonusesOnce(bonuses + [BonusReward(key.account, key.contract, stakers[key].staked.period, amount)], stakers - {key})
  {
    var more := bonuses + [BonusReward(key.account, key.contract, stakers[key].staked.period, amount)];
    forall i, j | 0 <= i < j < |more|
      ensures more[i].account != more[j].account || more[i].contract != more[j].contract || more[i].period != more[j].period
    {
      if j == |bonuses| {
        assert more[i] == bonuses[i];
        assert key == StakerKey(key.account, key.contract);
      }
    }
  }

  lemma BonusClaimKeepsOnce(cfg: Config, s: State, call: Call, t: State)
    requires call.CallClaimBonus? && Dispatch(cfg, s, call) == Done(t) && BonusesOnce(s.trace.bonuses, s.stakers)
    ensures BonusesOnce(t.trace.bonuses, t.stakers)
  {
    PaidBonusIsOnce(s.trace.bonuses, s.stakers, StakerKey(call.account, call.contract), t.trace.bonuses[|s.trace.bonuses|].amount);
  }

  lemma CallKeepsBonusesOnce(cfg: Config, s: State, call: Call, t: State)
    requires Inv(cfg, s) && t == Next(cfg, s, call) && BonusesOnce(s.trace.bonuses, s.stakers)
    ensures BonusesOnce(t.trace.bonuses, t.stakers)
  {
    if Dispatch(cfg, s, call).Done? {
      if call.CallClaimBonus? {
        BonusClaimKeepsOnce(cfg, s, call, t);
      } else if !IsSpecial(call) {
        OtherCallsAreOrdinary(cfg, s, call, t);
        assert BonusesOk(s.protocol.periodInfo.number, s.trace.ended, s.trace.bonuses, s.stakers) by { assert Holds(Votes, cfg, s); }
        EntriesKeepBonuses(s.protocol.periodInfo.number, s.trace.bonuses, s.stakers, t.stakers);
      }
    }
  }

  lemma {:induction false} RunKeepsBonusesOnce(cfg: Config, c: TierConfig, calls: seq<Call>)
    requires c.rewardPortion == cfg.tierParams.rewardPortion && ValidRun(cfg, Genesis(cfg, c), calls)
    ensures var s := Execute(cfg, Genesis(cfg, c), calls);
            BonusesOnce(s.trace.bonuses, s.stakers)
    decreases |calls|
  {
    if |calls| > 0 {
      RunKeepsBonusesOnce(cfg, c, calls[..|calls| - 1]);
      RunKeepsInv(cfg, c, calls[..|calls| - 1]);
      CallKeepsBonusesOnce(cfg, Execute(cfg, Genesis(cfg, c), calls[..|calls| - 1]), calls[|calls| - 1], Execute(cfg, Genesis(cfg, c), calls));
    }
  }

  /** In every reachable state a bonus was paid at most once per account, contract and period. */
  lemma BonusIsPaidOnce(cfg: Config, s: State, i: nat, j: nat)
    requires Reachable(cfg, s) && i < j < |s.trace.bonuses|
    ensures var paid := s.trace.bonuses;
            paid[i].account != paid[j].account || paid[i].contract != paid[j].contract || paid[i].period != paid[j].period
  {
    var c: TierConfig, calls: seq<Call> :|
      && c.rewardPortion == cfg.tierParams.rewardPortion
      && ValidRun(cfg, Genesis(cfg, c), calls) && s == Execute(cfg, Genesis(cfg, c), calls);
    RunKeepsBonusesOnce(cfg, c, calls);
  }
}

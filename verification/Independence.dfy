/** Over runs: no call touches the funds and stakes of another account, and no entry ever falls
    below the minimum stake. */
module Independence {
  import opened StakeTypes
  import opened Ledger
  import opened Protocol
  import opened Invariant
  import opened StakeSteps
  import opened EraSteps
  import opened Runs
  import opened Bonuses
  import opened Effects

  // ---------- other accounts ----------

  /** The account whose funds or stakes a call is about. */
  function Acting(call: Call): Option<AccountId> {
    match call
    case CallLock(a, _, _, _) => Some(a)
    case CallUnlock(a, _) => Some(a)
    case CallClaimUnlocked(a, _) => Some(a)
    case CallRelock(a) => Some(a)
    case CallStake(a, _, _) => Some(a)
    case CallUnstake(a, _, _) => Some(a)
    case CallUnstakeFromUnregistered(a, _) => Some(a)
    case CallCleanupExpired(a) => Some(a)
    case CallClaimStaker(a, _) => Some(a)
    case CallClaimBonus(a, _, _) => Some(a)
    case _ => None
  }

  ghost predicate Untouched(s: State, t: State, account: AccountId) {
    && LedgerOf(t.ledgers, account) == LedgerOf(s.ledgers, account)
    && FreezeOf(t.freezes, account) == FreezeOf(s.freezes, account)
    && SameEntries(s.stakers, t.stakers, account)
  }

  ghost predicate SameEntries(stakers: Stakers, stakers': Stakers, account: AccountId) {
    forall k: StakerKey :: k.account == account ==> (k in stakers <==> k in stakers') && (k in stakers ==> stakers'[k] == stakers[k])
  }

  lemma StoreLeavesOthers(s: State, who: AccountId, l: AccountLedger, t: State, account: AccountId)
    requires t.ledgers == StoreLedger(s.ledgers, who, l) && t.freezes == StoreFreeze(s.freezes, who, l) && who != account
    requires SameEntries(s.stakers, t.stakers, account)
    ensures Untouched(s, t, account)
  {
  }

  lemma StakeLeavesOthers(cfg: Config, s: State, call: Call, t: State, account: AccountId)
    requires call.CallStake? && Dispatch(cfg, s, call) == Done(t) && call.account != account
    ensures Untouched(s, t, account)
  {
    StakeIs(cfg, s, call.account, call.contract, call.amount);
    var isNew := EntryForStake(cfg, s, StakerKey(call.account, call.contract)).value.1;
    StoreLeavesOthers(s, call.account, LedgerAfterStake(cfg, s, call.account, call.amount, isNew).value, t, account);
  }

  lemma UnstakeLeavesOthers(cfg: Config, s: State, call: Call, t: State, account: AccountId)
    requires call.CallUnstake? && Dispatch(cfg, s, call) == Done(t) && call.account != account
    ensures Untouched(s, t, account)
  {
    var key, info := StakerKey(call.account, call.contract), s.protocol.periodInfo;
    UnstakeIs(cfg, s, call.account, call.contract, call.amount);
    var toUnstake := AmountToUnstake(cfg, s.stakers[key], call.amount);
    var l := LedgerOf(s.ledgers, call.account).UnstakeAmount(toUnstake, s.protocol.era, info).value;
    StoreLeavesOthers(s, call.account, Recounted(l, s.stakers[key].Unstake(toUnstake, s.protocol.era, info.subperiod).0), t, account);
  }

  /** The calls that move funds between the parts of a ledger. */
  lemma FundsCallLeavesOthers(cfg: Config, s: State, call: Call, t: State, account: AccountId)
    requires (call.CallLock? || call.CallUnlock? || call.CallRelock?) && Dispatch(cfg, s, call) == Done(t) && call.account != account
    ensures Untouched(s, t, account)
  {
  }

  lemma ClaimStakerLeavesOthers(cfg: Config, s: State, call: Call, t: State, account: AccountId)
    requires call.CallClaimStaker? && Dispatch(cfg, s, call) == Done(t) && call.account != account
    ensures Untouched(s, t, account)
  {
  }

  lemma ClaimLeavesOthers(cfg: Config, s: State, call: Call, t: State, account: AccountId)
    requires (call.CallClaimUnlocked? || call.CallClaimBonus?) && Dispatch(cfg, s, call) == Done(t) && call.account != account
    ensures Untouched(s, t, account)
  {
  }

  lemma RemovalLeavesOthers(cfg: Config, s: State, call: Call, t: State, account: AccountId)
    requires (call.CallUnstakeFromUnregistered? || call.CallCleanupExpired?) && Dispatch(cfg, s, call) == Done(t) && call.account != account
    ensures Untouched(s, t, account)
  {
  }

  lemma CommonCallLeavesAll(cfg: Config, s: State, call: Call, t: State)
    requires call.CallMaintenance? || call.CallRegister? || call.CallUnregister? || call.CallClaimDApp? || call.CallOnIdle?
    requires Dispatch(cfg, s, call) == Done(t)
    ensures t.ledgers == s.ledgers && t.freezes == s.freezes && t.stakers == s.stakers
  {
  }

  /** A call of somebody else, and any block, leaves funds and stakes of an account as they are. */
  lemma CallLeavesOthers(cfg: Config, s: State, call: Call, t: State, account: AccountId)
    requires t == Next(cfg, s, call) && Acting(call) != Some(account)
    ensures Untouched(s, t, account)
  {
    if Dispatch(cfg, s, call).Done? {
      if call.CallClaimUnlocked? || call.CallClaimBonus? {
        ClaimLeavesOthers(cfg, s, call, t, account);
      } else if call.CallUnstakeFromUnregistered? || call.CallCleanupExpired? {
        RemovalLeavesOthers(cfg, s, call, t, account);
      } else {
        match call
        case CallStake(_, _, _) => StakeLeavesOthers(cfg, s, call, t, account);
        case CallUnstake(_, _, _) => UnstakeLeavesOthers(cfg, s, call, t, account);
        case CallLock(_, _, _, _) => FundsCallLeavesOthers(cfg, s, call, t, account);
        case CallUnlock(_, _) => FundsCallLeavesOthers(cfg, s, call, t, account);
        case CallRelock(_) => FundsCallLeavesOthers(cfg, s, call, t, account);
        case CallClaimStaker(_, _) => ClaimStakerLeavesOthers(cfg, s, call, t, account);
        case CallOnInitialize(inputs) => BlockPasses(cfg, s, inputs, t);
        case _ => CommonCallLeavesAll(cfg, s, call, t);
      }
    }
  }

  lemma UntouchedTwice(s: State, t: State, u: State, account: AccountId)
    requires Untouched(s, t, account) && Untouched(t, u, account)
    ensures Untouched(s, u, account)
  {
  }

  /** As long as an account makes no call, it keeps its funds and its stakes, in any run. */
  lemma {:induction false} RunLeavesIdleAccount(cfg: Config, s: State, calls: seq<Call>, account: AccountId)
    requires forall i :: 0 <= i < |calls| ==> Acting(calls[i]) != Some(account)
    ensures Untouched(s, Execute(cfg, s, calls), account)
    decreases |calls|
  {
    if |calls| > 0 {
      var before := Execute(cfg, s, calls[..|calls| - 1]);
      RunLeavesIdleAccount(cfg, s, calls[..|calls| - 1], account);
      CallLeavesOthers(cfg, before, calls[|calls| - 1], Execute(cfg, s, calls), account);
      UntouchedTwice(s, before, Execute(cfg, s, calls), account);
    }
  }

  // ---------- the minimum stake ----------

  ghost predicate AboveMinimum(cfg: Config, stakers: Stakers) {
    forall k :: k in stakers ==> stakers[k].staked.total >= cfg.minimumStakeAmount
  }

  lemma StakeStaysAboveMinimum(cfg: Config, s: State, account: AccountId, contract: SmartContract, amount: Balance)
    requires Stake(cfg, s, account, contract, amount).Done? && AboveMinimum(cfg, s.stakers)
    ensures AboveMinimum(cfg, Stake(cfg, s, account, contract, amount).state.stakers)
  {
  }

  lemma UnstakeStaysAboveMinimum(cfg: Config, s: State, account: AccountId, contract: SmartContract, amount: Balance)
    requires Inv(cfg, s) && Unstake(cfg, s, account, contract, amount).Done? && AboveMinimum(cfg, s.stakers)
    ensures AboveMinimum(cfg, Unstake(cfg, s, account, contract, amount).state.stakers)
  {
    var key := StakerKey(account, contract);
    UnstakeIs(cfg, s, account, contract, amount);
    InvStakes(cfg, s);
    EntryShrinks(cfg, s.protocol.era, s.protocol.periodInfo, s.stakers, key, amount);
  }

  lemma DroppingCallOnlyDrops(cfg: Config, s: State, call: Call, t: State)
    requires MayDrop(call) && Dispatch(cfg, s, call) == Done(t)
    ensures forall k :: k in t.stakers ==> k in s.stakers && t.stakers[k] == s.stakers[k]
  {
  }

  lemma CallStaysAboveMinimum(cfg: Config, s: State, call: Call, t: State)
    requires Inv(cfg, s) && t == Next(cfg, s, call) && AboveMinimum(cfg, s.stakers)
    ensures AboveMinimum(cfg, t.stakers)
  {
    if Dispatch(cfg, s, call).Done? {
      if IsQuiet(call) {
        QuietCallKeepsEntries(cfg, s, call, t);
      } else if MayDrop(call) {
        DroppingCallOnlyDrops(cfg, s, call, t);
      } else {
        match call
        case CallStake(a, c, amount) => StakeStaysAboveMinimum(cfg, s, a, c, amount);
        case CallUnstake(a, c, amount) => UnstakeStaysAboveMinimum(cfg, s, a, c, amount);
        case CallOnInitialize(inputs) => BlockPasses(cfg, s, inputs, t);
      }
    }
  }

  lemma {:induction false} RunStaysAboveMinimum(cfg: Config, c: TierConfig, calls: seq<Call>)
    requires c.rewardPortion == cfg.tierParams.rewardPortion && ValidRun(cfg, Genesis(cfg, c), calls)
    ensures AboveMinimum(cfg, Execute(cfg, Genesis(cfg, c), calls).stakers)
    decreases |calls|
  {
    if |calls| > 0 {
      var before := Execute(cfg, Genesis(cfg, c), calls[..|calls| - 1]);
      RunKeepsInv(cfg, c, calls[..|calls| - 1]);
      RunStaysAboveMinimum(cfg, c, calls[..|calls| - 1]);
      CallStaysAboveMinimum(cfg, before, calls[|calls| - 1], Execute(cfg, Genesis(cfg, c), calls));
    }
  }

  /** In every reachable state every entry has at least the minimum stake. */
  lemma EntriesReachMinimum(cfg: Config, s: State, key: StakerKey)
    requires Reachable(cfg, s) && key in s.stakers
    ensures s.stakers[key].staked.total >= cfg.minimumStakeAmount
  {
    var c: TierConfig, calls: seq<Call> :|
      && c.rewardPortion == cfg.tierParams.rewardPortion
      && ValidRun(cfg, Genesis(cfg, c), calls) && s == Execute(cfg, Genesis(cfg, c), calls);
    RunStaysAboveMinimum(cfg, c, calls);
  }
}

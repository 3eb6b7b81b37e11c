/** The pallet under any sequence of calls: every object starts in a reachable state and every
    call leads to another one, so the theorems about reachable states hold of it. */
module PalletRuns {
  import opened StakeTypes
  import opened Ledger
  import opened Protocol
  import opened Pallet
  import opened Runs

  /** The pallet at genesis. */
  method Start(cfg: Config, tiers: TierConfig) returns (pallet: DappStaking)
    requires tiers.rewardPortion == cfg.tierParams.rewardPortion
    ensures fresh(pallet) && pallet.cfg == cfg && Reachable(cfg, pallet.View())
  {
    pallet := new DappStaking(cfg, tiers);
    GenesisIsReachable(cfg, tiers);
  }

  lemma GenesisIsReachable(cfg: Config, tiers: TierConfig)
    requires tiers.rewardPortion == cfg.tierParams.rewardPortion
    ensures Reachable(cfg, Genesis(cfg, tiers))
  {
    assert ValidRun(cfg, Genesis(cfg, tiers), []) && Genesis(cfg, tiers) == Execute(cfg, Genesis(cfg, tiers), []);
  }

  method DispatchFunds(pallet: DappStaking, call: Call) returns (error: Option<Error>)
    requires call.CallLock? || call.CallUnlock? || call.CallClaimUnlocked? || call.CallRelock?
    requires call.CallUnlock? ==> ChunksAfter(LedgerOf(pallet.ledgers, call.account).unlocking, -1)
    modifies pallet
    ensures pallet.Happened(Dispatch(pallet.cfg, old(pallet.View()), call), old(pallet.View()), error)
  {
    match call
    case CallLock(a, amount, balance, allowed) => error := pallet.Lock(a, amount, balance, allowed);
    case CallUnlock(a, amount) => error := pallet.Unlock(a, amount);
    case CallClaimUnlocked(a, cleared) => error := pallet.ClaimUnlocked(a, cleared);
    case CallRelock(a) => error := pallet.RelockUnlocking(a);
  }

  method DispatchStakes(pallet: DappStaking, call: Call) returns (error: Option<Error>)
    requires call.CallRegister? || call.CallUnregister? || call.CallStake? || call.CallUnstake? || call.CallUnstakeFromUnregistered?
    modifies pallet
    ensures pallet.Happened(Dispatch(pallet.cfg, old(pallet.View()), call), old(pallet.View()), error)
  {
    match call
    case CallRegister(c) => error := pallet.Register(c);
    case CallUnregister(c) => error := pallet.Unregister(c);
    case CallStake(a, c, amount) => error := pallet.Stake(a, c, amount);
    case CallUnstake(a, c, amount) => error := pallet.Unstake(a, c, amount);
    case CallUnstakeFromUnregistered(a, c) => error := pallet.UnstakeFromUnregistered(a, c);
  }

  method DispatchRewards(pallet: DappStaking, call: Call) returns (error: Option<Error>)
    requires call.CallCleanupExpired? || call.CallClaimStaker? || call.CallClaimBonus? || call.CallClaimDApp?
    modifies pallet
    ensures pallet.Happened(Dispatch(pallet.cfg, old(pallet.View()), call), old(pallet.View()), error)
  {
    match call
    case CallCleanupExpired(a) => error := pallet.CleanupExpiredEntries(a);
    case CallClaimStaker(a, payoutOk) => error := pallet.ClaimStakerRewards(a, payoutOk);
    case CallClaimBonus(a, c, payoutOk) => error := pallet.ClaimBonusReward(a, c, payoutOk);
    case CallClaimDApp(c, era, payoutOk) => error := pallet.ClaimDAppReward(c, era, payoutOk);
  }

  predicate IsHook(call: Call) {
    call.CallMaintenance? || call.CallOnInitialize? || call.CallOnIdle?
  }

  /** Any extrinsic on a reachable pallet does what its specification says, reports its error,
      and leaves a reachable pallet. */
  method Extrinsic(pallet: DappStaking, call: Call) returns (error: Option<Error>)
    requires Reachable(pallet.cfg, pallet.View()) && !IsHook(call)
    modifies pallet
    ensures pallet.Happened(Dispatch(pallet.cfg, old(pallet.View()), call), old(pallet.View()), error)
    ensures Reachable(pallet.cfg, pallet.View())
  {
    ghost var before := pallet.View();
    if call.CallLock? || call.CallUnlock? || call.CallClaimUnlocked? || call.CallRelock? {
      FundsAddUp(pallet.cfg, before, call.account);
      error := DispatchFunds(pallet, call);
    } else if call.CallCleanupExpired? || call.CallClaimStaker? || call.CallClaimBonus? || call.CallClaimDApp? {
      error := DispatchRewards(pallet, call);
    } else {
      error := DispatchStakes(pallet, call);
    }
    NextIsReachable(pallet.cfg, before, call);
  }

  /** The hooks of a block, and switching maintenance, leave a reachable pallet. */
  method Initialize(pallet: DappStaking, stakerPool: Balance, dappPool: Balance, bonusPool: Balance, price: nat, issuance: Balance)
    returns (ghost inputs: EraInputs)
    requires Reachable(pallet.cfg, pallet.View())
    modifies pallet
    ensures inputs == EraInputs(stakerPool, dappPool, bonusPool, price, issuance, inputs.ranking)
    ensures pallet.View() == OnInitialize(pallet.cfg, old(pallet.View()), inputs) && Reachable(pallet.cfg, pallet.View())
  {
    ghost var before := pallet.View();
    inputs := pallet.OnInitialize(stakerPool, dappPool, bonusPool, price, issuance);
    BlockReaches(pallet.cfg, before, inputs, pallet.View());
  }

  lemma BlockReaches(cfg: Config, s: State, inputs: EraInputs, t: State)
    requires Reachable(cfg, s) && Enabled(s, CallOnInitialize(inputs)) && t == OnInitialize(cfg, s, inputs)
    ensures Reachable(cfg, t)
  {
    NextIsReachable(cfg, s, CallOnInitialize(inputs));
  }

  method Idle(pallet: DappStaking, enoughWeight: bool)
    requires Reachable(pallet.cfg, pallet.View())
    modifies pallet
    ensures pallet.View() == OnIdle(pallet.cfg, old(pallet.View()), enoughWeight) && Reachable(pallet.cfg, pallet.View())
  {
    ghost var before := pallet.View();
    pallet.OnIdle(enoughWeight);
    NextIsReachable(pallet.cfg, before, CallOnIdle(enoughWeight));
  }

  method Maintenance(pallet: DappStaking, enabled: bool)
    requires Reachable(pallet.cfg, pallet.View())
    modifies pallet
    ensures pallet.View() == old(pallet.View()).(protocol := old(pallet.View()).protocol.(maintenance := enabled))
    ensures Reachable(pallet.cfg, pallet.View())
  {
    ghost var before := pallet.View();
    pallet.SetMaintenance(enabled);
    NextIsReachable(pallet.cfg, before, CallMaintenance(enabled));
  }
}

/** Funds that were started to unlock come back: what a successful claim pays, over runs. */
module Unlocks {
  import opened StakeTypes
  import opened MapSums
  import opened Ledger
  import opened Protocol
  import opened Invariant
  import opened Frames
  import opened StakeSteps
  import opened EraSteps

  /** Amount `account` claimed back. */
  ghost function PaidTo(account: AccountId): UnlockEvent -> nat {
    (e: UnlockEvent) => if e.ClaimedUnlocked? && e.account == account then e.amount else 0
  }

  /** Unlocking funds of `account` that are due by `block`. */
  function DueBy(s: State, account: AccountId, block: BlockNumber): Balance {
    MaturedTotal(LedgerOf(s.ledgers, account).unlocking, block)
  }

  // ---------- single calls ----------

  /** Neither the unlocking funds of `account` nor the history of unlocks change. */
  predicate KeepsUnlocking(s: State, t: State, account: AccountId) {
    && LedgerOf(t.ledgers, account).unlocking == LedgerOf(s.ledgers, account).unlocking
    && t.trace.unlocks == s.trace.unlocks && s.now <= t.now
  }

  predicate MovesUnlocking(call: Call) {
    call.CallUnlock? || call.CallClaimUnlocked? || call.CallRelock?
  }

  lemma StakeKeepsUnlocking(cfg: Config, s: State, who: AccountId, contract: SmartContract, amount: Balance, account: AccountId)
    requires Stake(cfg, s, who, contract, amount).Done?
    ensures KeepsUnlocking(s, Stake(cfg, s, who, contract, amount).state, account)
  {
    StakeIs(cfg, s, who, contract, amount);
  }

  lemma UnstakeKeepsUnlocking(cfg: Config, s: State, who: AccountId, contract: SmartContract, amount: Balance, account: AccountId)
    requires Unstake(cfg, s, who, contract, amount).Done?
    ensures KeepsUnlocking(s, Unstake(cfg, s, who, contract, amount).state, account)
  {
    UnstakeIs(cfg, s, who, contract, amount);
  }

  lemma LockKeepsUnlocking(cfg: Config, s: State, call: Call, t: State, account: AccountId)
    requires call.CallLock? && Dispatch(cfg, s, call) == Done(t)
    ensures KeepsUnlocking(s, t, account)
  {
  }

  lemma ClaimStakerKeepsUnlocking(cfg: Config, s: State, call: Call, t: State, account: AccountId)
    requires call.CallClaimStaker? && Dispatch(cfg, s, call) == Done(t)
    ensures KeepsUnlocking(s, t, account)
  {
  }

  lemma RemovalKeepsUnlocking(cfg: Config, s: State, call: Call, t: State, account: AccountId)
    requires (call.CallUnstakeFromUnregistered? || call.CallCleanupExpired?) && Dispatch(cfg, s, call) == Done(t)
    ensures KeepsUnlocking(s, t, account)
  {
  }

  lemma ClaimBonusKeepsUnlocking(cfg: Config, s: State, call: Call, t: State, account: AccountId)
    requires call.CallClaimBonus? && Dispatch(cfg, s, call) == Done(t)
    ensures KeepsUnlocking(s, t, account)
  {
  }

  /** The calls that do not store a ledger at all. */
  lemma QuietCallKeepsUnlocking(cfg: Config, s: State, call: Call, t: State, account: AccountId)
    requires call.CallMaintenance? || call.CallRegister? || call.CallUnregister? || call.CallClaimDApp? || call.CallOnIdle?
    requires Dispatch(cfg, s, call) == Done(t)
    ensures KeepsUnlocking(s, t, account)
  {
  }

  lemma CallKeepsUnlocking(cfg: Config, s: State, call: Call, t: State, account: AccountId)
    requires !MovesUnlocking(call) && Dispatch(cfg, s, call) == Done(t)
    ensures KeepsUnlocking(s, t, account)
  {
    match call
    case CallStake(a, c, amount) => StakeKeepsUnlocking(cfg, s, a, c, amount, account);
    case CallUnstake(a, c, amount) => UnstakeKeepsUnlocking(cfg, s, a, c, amount, account);
    case CallOnInitialize(inputs) => BlockPasses(cfg, s, inputs, t);
    case CallClaimBonus(_, _, _) => ClaimBonusKeepsUnlocking(cfg, s, call, t, account);
    case CallLock(_, _, _, _) => LockKeepsUnlocking(cfg, s, call, t, account);
    case CallClaimStaker(_, _) => ClaimStakerKeepsUnlocking(cfg, s, call, t, account);
    case CallUnstakeFromUnregistered(_, _) => RemovalKeepsUnlocking(cfg, s, call, t, account);
    case CallCleanupExpired(_) => RemovalKeepsUnlocking(cfg, s, call, t, account);
    case _ => QuietCallKeepsUnlocking(cfg, s, call, t, account);
  }

  // ---------- accounts ----------

  /** From any block on: what `account` had due by it at `s`, and what it has started to unlock
      early enough since then, is what it has due now and what it was paid since. */
  ghost predicate Accounts(cfg: Config, s: State, t: State, account: AccountId) {
    && s.trace.unlocks <= t.trace.unlocks
    && var since := t.trace.unlocks[|s.trace.unlocks|..];
       forall block: BlockNumber :: t.now <= block ==>
         DueBy(s, account, block) + LogSum(since, StartedBy(account, cfg.blocksPerEra * cfg.unlockingPeriod, block))
         == DueBy(t, account, block) + LogSum(since, PaidTo(account))
  }

  /** One more event in the history, of an amount that became due by `block` for `account`, was
      paid to it, or neither. */
  lemma EventKeepsAccounts(cfg: Config, s: State, t: State, u: State, account: AccountId, event: UnlockEvent)
    requires Accounts(cfg, s, t, account) && u.trace.unlocks == t.trace.unlocks + [event] && t.now <= u.now
    requires forall block: BlockNumber :: u.now <= block ==>
               DueBy(t, account, block) + StartedBy(account, cfg.blocksPerEra * cfg.unlockingPeriod, block)(event)
               == DueBy(u, account, block) + PaidTo(account)(event)
    ensures Accounts(cfg, s, u, account)
  {
    var n := |s.trace.unlocks|;
    var since := t.trace.unlocks[n..];
    assert u.trace.unlocks[n..] == since + [event];
    LogSumAppend(since, event, PaidTo(account));
    forall block: BlockNumber | u.now <= block
      ensures DueBy(s, account, block) + LogSum(since + [event], StartedBy(account, cfg.blocksPerEra * cfg.unlockingPeriod, block))
              == DueBy(u, account, block) + LogSum(since + [event], PaidTo(account))
    {
      LogSumAppend(since, event, StartedBy(account, cfg.blocksPerEra * cfg.unlockingPeriod, block));
    }
  }

  lemma UnlockKeepsAccounts(cfg: Config, s: State, t: State, who: AccountId, amount: Balance, u: State, account: AccountId)
    requires Accounts(cfg, s, t, account) && Unlock(cfg, t, who, amount) == Done(u)
    ensures Accounts(cfg, s, u, account)
  {
    var l := LedgerOf(t.ledgers, who);
    var toUnlock := AmountToUnlock(cfg, l, amount, t.protocol.periodInfo.number).value;
    var unlockBlock := t.now + cfg.blocksPerEra * cfg.unlockingPeriod;
    var after := l.(locked := l.locked - toUnlock, unlocking := WithChunk(l.unlocking, toUnlock, unlockBlock));
    assert u.ledgers == StoreLedger(t.ledgers, who, after);
    StoredLedger(t.ledgers, who, after, account);
    forall block: BlockNumber
      ensures DueBy(u, account, block) == DueBy(t, account, block) + if who == account && unlockBlock <= block then toUnlock else 0
    {
      WithChunkMatures(l.unlocking, toUnlock, unlockBlock, block);
    }
    EventKeepsAccounts(cfg, s, t, u, account, Unlocking(who, toUnlock, t.now));
  }

  lemma ClaimKeepsAccounts(cfg: Config, s: State, t: State, who: AccountId, cleared: set<SmartContract>, u: State, account: AccountId)
    requires Accounts(cfg, s, t, account) && ClaimUnlocked(t, who, cleared) == Done(u)
    ensures Accounts(cfg, s, u, account) && DueBy(u, who, u.now) == 0
  {
    var (after, amount) := LedgerOf(t.ledgers, who).ClaimUnlocked(t.now);
    StoredLedger(t.ledgers, who, after, account);
    StoredLedger(t.ledgers, who, after, who);
    RetainedMatures(LedgerOf(t.ledgers, who).unlocking, t.now, t.now);
    forall block: BlockNumber | t.now <= block
      ensures DueBy(t, account, block) == DueBy(u, account, block) + if who == account then amount else 0
    {
      RetainedMatures(LedgerOf(t.ledgers, who).unlocking, t.now, block);
    }
    EventKeepsAccounts(cfg, s, t, u, account, ClaimedUnlocked(who, amount, t.now));
  }

  lemma RelockKeepsAccounts(cfg: Config, s: State, t: State, who: AccountId, u: State, account: AccountId)
    requires Accounts(cfg, s, t, account) && RelockUnlocking(cfg, t, who) == Done(u) && who != account
    ensures Accounts(cfg, s, u, account)
  {
  }

  lemma UnchangedKeepsAccounts(cfg: Config, s: State, t: State, u: State, account: AccountId)
    requires Accounts(cfg, s, t, account) && KeepsUnlocking(t, u, account)
    ensures Accounts(cfg, s, u, account)
  {
  }

  lemma MovingCallKeepsAccounts(cfg: Config, s: State, t: State, call: Call, u: State, account: AccountId)
    requires Accounts(cfg, s, t, account) && MovesUnlocking(call) && Dispatch(cfg, t, call) == Done(u) && call != CallRelock(account)
    ensures Accounts(cfg, s, u, account)
  {
    match call
    case CallUnlock(a, amount) => UnlockKeepsAccounts(cfg, s, t, a, amount, u, account);
    case CallClaimUnlocked(a, cleared) => ClaimKeepsAccounts(cfg, s, t, a, cleared, u, account);
    case CallRelock(a) => RelockKeepsAccounts(cfg, s, t, a, u, account);
  }

  lemma OtherCallKeepsAccounts(cfg: Config, s: State, t: State, call: Call, u: State, account: AccountId)
    requires Accounts(cfg, s, t, account) && !MovesUnlocking(call) && Dispatch(cfg, t, call) == Done(u)
    ensures Accounts(cfg, s, u, account)
  {
    CallKeepsUnlocking(cfg, t, call, u, account);
    UnchangedKeepsAccounts(cfg, s, t, u, account);
  }

  lemma CallKeepsAccounts(cfg: Config, s: State, t: State, call: Call, u: State, account: AccountId)
    requires Accounts(cfg, s, t, account) && u == Next(cfg, t, call) && call != CallRelock(account)
    ensures Accounts(cfg, s, u, account)
  {
    if Dispatch(cfg, t, call).Done? {
      if MovesUnlocking(call) {
        MovingCallKeepsAccounts(cfg, s, t, call, u, account);
      } else {
        OtherCallKeepsAccounts(cfg, s, t, call, u, account);
      }
    }
  }

  lemma {:induction false} RunKeepsAccounts(cfg: Config, s: State, calls: seq<Call>, account: AccountId)
    requires CallRelock(account) !in calls
    ensures Accounts(cfg, s, Execute(cfg, s, calls), account)
    decreases |calls|
  {
    if |calls| == 0 {
      assert s.trace.unlocks[|s.trace.unlocks|..] == [];
    } else {
      var before := Execute(cfg, s, calls[..|calls| - 1]);
      RunKeepsAccounts(cfg, s, calls[..|calls| - 1], account);
      CallKeepsAccounts(cfg, s, before, calls[|calls| - 1], Execute(cfg, s, calls), account);
    }
  }

  // ---------- what comes back ----------

  /** After a successful claim, and as long as it relocks nothing, an account was paid since any
      earlier state exactly what it had unlocking then and is due by now, and what it has
      started to unlock since then at least the full unlocking period ago. */
  lemma ClaimPaysAllThatIsDue(cfg: Config, s: State, calls: seq<Call>, account: AccountId, cleared: set<SmartContract>, u: State)
    requires CallRelock(account) !in calls && ClaimUnlocked(Execute(cfg, s, calls), account, cleared) == Done(u)
    ensures s.trace.unlocks <= u.trace.unlocks
    ensures var since := u.trace.unlocks[|s.trace.unlocks|..];
            LogSum(since, PaidTo(account))
            == DueBy(s, account, u.now) + LogSum(since, StartedBy(account, cfg.blocksPerEra * cfg.unlockingPeriod, u.now))
  {
    RunKeepsAccounts(cfg, s, calls, account);
    ClaimKeepsAccounts(cfg, s, Execute(cfg, s, calls), account, cleared, u, account);
  }

  /** What starting to unlock does: the event is logged, and the amount is due from the end of
      the unlocking period on. */
  lemma UnlockStarts(cfg: Config, s: State, account: AccountId, amount: Balance, started: State, block: BlockNumber)
    requires Unlock(cfg, s, account, amount) == Done(started)
    ensures exists unlocked: Balance ::
              && unlocked > 0 && started.trace.unlocks == s.trace.unlocks + [Unlocking(account, unlocked, s.now)]
              && DueBy(started, account, block)
                 == DueBy(s, account, block) + if s.now + cfg.blocksPerEra * cfg.unlockingPeriod <= block then unlocked else 0
  {
    var l := LedgerOf(s.ledgers, account);
    var toUnlock := AmountToUnlock(cfg, l, amount, s.protocol.periodInfo.number).value;
    var unlockBlock := s.now + cfg.blocksPerEra * cfg.unlockingPeriod;
    StoredLedger(s.ledgers, account, l.(locked := l.locked - toUnlock, unlocking := WithChunk(l.unlocking, toUnlock, unlockBlock)), account);
    WithChunkMatures(l.unlocking, toUnlock, unlockBlock, block);
    assert started.trace.unlocks == s.trace.unlocks + [Unlocking(account, toUnlock, s.now)];
  }

  /** In particular, an amount whose unlocking was started in block `s.now`, and which is not
      relocked, has been paid by any successful claim from the end of the unlocking period on. */
  lemma UnlockedAmountIsPaid(cfg: Config, s: State, account: AccountId, amount: Balance, started: State, calls: seq<Call>,
                             cleared: set<SmartContract>, u: State)
    requires Unlock(cfg, s, account, amount) == Done(started)
    requires CallRelock(account) !in calls && ClaimUnlocked(Execute(cfg, started, calls), account, cleared) == Done(u)
    requires s.now + cfg.blocksPerEra * cfg.unlockingPeriod <= u.now
    ensures exists unlocked: Balance ::
              && unlocked > 0 && started.trace.unlocks == s.trace.unlocks + [Unlocking(account, unlocked, s.now)]
              && started.trace.unlocks <= u.trace.unlocks
              && LogSum(u.trace.unlocks[|started.trace.unlocks|..], PaidTo(account)) >= unlocked
  {
    UnlockStarts(cfg, s, account, amount, started, u.now);
    ClaimPaysAllThatIsDue(cfg, started, calls, account, cleared, u);
  }

  /** And a claim is refused only in maintenance mode, or when nothing is due. */
  lemma ClaimUnlockedSucceedsIff(s: State, account: AccountId, cleared: set<SmartContract>)
    ensures ClaimUnlocked(s, account, cleared).Done? <==> !s.protocol.maintenance && DueBy(s, account, s.now) > 0
  {
  }
}

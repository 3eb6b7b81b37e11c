/** Locking, unlocking, claiming unlocked funds and relocking keep the invariant. */
module LockSteps {
  import opened Arithmetic
  import opened StakeTypes
  import opened MapSums
  import opened Ledger
  import opened Protocol
  import opened Invariant
  import opened Frames

  /** The stored ledger is sound, has the stake it had and reopens no era, and the protocol
      totals and the unlocking history move along with it. */
  ghost predicate FundsMove(cfg: Config, s: State, account: AccountId, l: AccountLedger, totals: EraInfo, unlocks: seq<UnlockEvent>) {
    var before := LedgerOf(s.ledgers, account);
    && LedgerOk(cfg, s.protocol.era, s.protocol.periodInfo.number, l)
    && l.StakedAmount(s.protocol.periodInfo.number) == before.StakedAmount(s.protocol.periodInfo.number)
    && NotReopened(s.protocol.era, before, l)
    && totals == s.eraInfo.(totalLocked := totals.totalLocked, unlocking := totals.unlocking)
    && totals.totalLocked + before.locked == s.eraInfo.totalLocked + l.locked
    && totals.unlocking + ChunkTotal(before.unlocking) == s.eraInfo.unlocking + ChunkTotal(l.unlocking)
    && UnlocksOk(cfg, StoreLedger(s.ledgers, account, l), unlocks)
  }

  lemma StoreKeepsInv(cfg: Config, s: State, account: AccountId, l: AccountLedger, totals: EraInfo, unlocks: seq<UnlockEvent>)
    requires Inv(cfg, s) && FundsMove(cfg, s, account, l, totals, unlocks)
    ensures Inv(cfg, UpdateLedger(s, account, l).(eraInfo := totals, trace := s.trace.(unlocks := unlocks)))
  {
    InvParts(cfg, s);
    var era, period := s.protocol.era, s.protocol.periodInfo.number;
    StoreKeepsLedgers(cfg, era, period, s.ledgers, account, l);
    StoreKeepsFunds(s.ledgers, s.freezes, s.eraInfo.totalLocked, s.eraInfo.unlocking, account, l,
                    totals.totalLocked, totals.unlocking);
    StoreKeepsStakes(period, s.ledgers, s.stakers, s.eraInfo.nextStakeAmount.total, account, l);
    StoreKeepsPaid(era, s.ledgers, s.trace.stakerRewards, account, l);
    InvFromParts(cfg, UpdateLedger(s, account, l).(eraInfo := totals, trace := s.trace.(unlocks := unlocks)));
  }

  lemma StoreKeepsInvQuietly(cfg: Config, s: State, account: AccountId, l: AccountLedger, totals: EraInfo)
    requires Inv(cfg, s) && FundsMove(cfg, s, account, l, totals, s.trace.unlocks)
    ensures Inv(cfg, UpdateLedger(s, account, l).(eraInfo := totals))
  {
    StoreKeepsInv(cfg, s, account, l, totals, s.trace.unlocks);
    assert s.trace.(unlocks := s.trace.unlocks) == s.trace;
  }

  lemma LockKeepsInv(cfg: Config, s: State, account: AccountId, amount: Balance, totalBalance: Balance, allowed: bool)
    requires Inv(cfg, s) && Lock(cfg, s, account, amount, totalBalance, allowed).Done?
    ensures Inv(cfg, Lock(cfg, s, account, amount, totalBalance, allowed).state)
  {
    var l := LedgerOf(s.ledgers, account);
    var toLock := Min(SatSub(totalBalance, l.totalLocked), amount);
    var after := l.(locked := l.locked + toLock);
    LockMovesFunds(cfg, s, account, toLock);
    StoreKeepsInvQuietly(cfg, s, account, after, s.eraInfo.AddLocked(toLock));
  }

  lemma LockMovesFunds(cfg: Config, s: State, account: AccountId, toLock: Balance)
    requires Inv(cfg, s)
    requires LedgerOf(s.ledgers, account).locked + toLock >= cfg.minimumLockedAmount
    ensures var l := LedgerOf(s.ledgers, account);
            FundsMove(cfg, s, account, l.(locked := l.locked + toLock), s.eraInfo.AddLocked(toLock), s.trace.unlocks)
  {
    InvLedgers(cfg, s);
    var l := LedgerOf(s.ledgers, account);
    LedgerOfIsOk(cfg, s.protocol.era, s.protocol.periodInfo.number, s.ledgers, account);
    StoreKeepsUnlocks(cfg, s.ledgers, s.trace.unlocks, account, l.(locked := l.locked + toLock));
  }

  lemma UnlockedLedger(cfg: Config, era: EraNumber, period: PeriodNumber, l: AccountLedger, amount: Balance, unlockBlock: BlockNumber)
    requires LedgerOk(cfg, era, period, l)
    requires AmountToUnlock(cfg, l, amount, period).Some?
    requires var toUnlock := AmountToUnlock(cfg, l, amount, period).value;
             toUnlock > 0 && l.(locked := SatSub(l.locked, toUnlock)).AddUnlockingChunk(toUnlock, unlockBlock, cfg.maxUnlockingChunks).Ok?
    ensures var toUnlock := AmountToUnlock(cfg, l, amount, period).value;
            var after := l.(locked := SatSub(l.locked, toUnlock)).AddUnlockingChunk(toUnlock, unlockBlock, cfg.maxUnlockingChunks).value;
            && LedgerOk(cfg, era, period, after)
            && after.locked + toUnlock == l.locked
            && after == l.(locked := after.locked, unlocking := WithChunk(l.unlocking, toUnlock, unlockBlock))
            && ChunkTotal(after.unlocking) == ChunkTotal(l.unlocking) + toUnlock
  {
    var toUnlock := AmountToUnlock(cfg, l, amount, period).value;
    WithChunkAdds(l.unlocking, toUnlock, unlockBlock);
    WithChunkSorted(l.unlocking, -1, toUnlock, unlockBlock);
    WithChunkLength(l.unlocking, -1, toUnlock, unlockBlock);
  }

  lemma StartKeepsUnlocks(cfg: Config, ledgers: Ledgers, unlocks: seq<UnlockEvent>, account: AccountId, l: AccountLedger, amount: Balance, now: BlockNumber)
    requires UnlocksOk(cfg, ledgers, unlocks) && amount > 0
    requires l.unlocking == WithChunk(LedgerOf(ledgers, account).unlocking, amount, now + cfg.UnlockingBlocks())
    ensures UnlocksOk(cfg, StoreLedger(ledgers, account, l), unlocks + [Unlocking(account, amount, now)])
  {
    var ledgers' := StoreLedger(ledgers, account, l);
    var event := Unlocking(account, amount, now);
    var delay := cfg.UnlockingBlocks();
    forall a: AccountId, b: BlockNumber
      ensures LogSum(unlocks + [event], ClaimedBy(a, b)) + MaturedTotal(LedgerOf(ledgers', a).unlocking, b)
              <= LogSum(unlocks + [event], StartedBy(a, delay, b))
    {
      assert LogSum(unlocks, ClaimedBy(a, b)) + MaturedTotal(LedgerOf(ledgers, a).unlocking, b)
             <= LogSum(unlocks, StartedBy(a, delay, b));
      StoredLedger(ledgers, account, l, a);
      LogSumAppend(unlocks, event, ClaimedBy(a, b));
      LogSumAppend(unlocks, event, StartedBy(a, delay, b));
      WithChunkMatures(LedgerOf(ledgers, account).unlocking, amount, now + delay, b);
    }
  }

  lemma UnlockKeepsInv(cfg: Config, s: State, account: AccountId, amount: Balance)
    requires Inv(cfg, s) && Unlock(cfg, s, account, amount).Done?
    ensures Inv(cfg, Unlock(cfg, s, account, amount).state)
  {
    var l := LedgerOf(s.ledgers, account);
    var toUnlock := AmountToUnlock(cfg, l, amount, s.protocol.periodInfo.number).value;
    var reduced := l.(locked := SatSub(l.locked, toUnlock));
    var after := reduced.AddUnlockingChunk(toUnlock, s.now + cfg.UnlockingBlocks(), cfg.maxUnlockingChunks).value;
    UnlockMovesFunds(cfg, s, account, amount);
    StoreKeepsInv(cfg, s, account, after, s.eraInfo.UnlockingStarted(toUnlock),
                  s.trace.unlocks + [Unlocking(account, toUnlock, s.now)]);
  }

  lemma UnlockMovesFunds(cfg: Config, s: State, account: AccountId, amount: Balance)
    requires Inv(cfg, s)
    requires var l := LedgerOf(s.ledgers, account);
             var toUnlock := AmountToUnlock(cfg, l, amount, s.protocol.periodInfo.number);
             && toUnlock.Some? && toUnlock.value > 0
             && l.(locked := SatSub(l.locked, toUnlock.value))
                 .AddUnlockingChunk(toUnlock.value, s.now + cfg.UnlockingBlocks(), cfg.maxUnlockingChunks).Ok?
    ensures var l := LedgerOf(s.ledgers, account);
            var toUnlock := AmountToUnlock(cfg, l, amount, s.protocol.periodInfo.number).value;
            var reduced := l.(locked := SatSub(l.locked, toUnlock));
            var after := reduced.AddUnlockingChunk(toUnlock, s.now + cfg.UnlockingBlocks(), cfg.maxUnlockingChunks).value;
            FundsMove(cfg, s, account, after, s.eraInfo.UnlockingStarted(toUnlock),
                      s.trace.unlocks + [Unlocking(account, toUnlock, s.now)])
  {
    var era, period := s.protocol.era, s.protocol.periodInfo.number;
    var l := LedgerOf(s.ledgers, account);
    var toUnlock := AmountToUnlock(cfg, l, amount, period).value;
    var unlockBlock := s.now + cfg.UnlockingBlocks();
    var after := l.(locked := SatSub(l.locked, toUnlock)).AddUnlockingChunk(toUnlock, unlockBlock, cfg.maxUnlockingChunks).value;
    InvLedgers(cfg, s);
    LedgerOfIsOk(cfg, era, period, s.ledgers, account);
    UnlockedLedger(cfg, era, period, l, amount, unlockBlock);
    LedgerWithinFunds(s.ledgers, s.freezes, s.eraInfo.totalLocked, s.eraInfo.unlocking, account);
    StartKeepsUnlocks(cfg, s.ledgers, s.trace.unlocks, account, after, toUnlock, s.now);
  }

  lemma ClaimKeepsUnlocks(cfg: Config, ledgers: Ledgers, unlocks: seq<UnlockEvent>, account: AccountId, l: AccountLedger, now: BlockNumber)
    requires UnlocksOk(cfg, ledgers, unlocks)
    requires l.unlocking == Retained(LedgerOf(ledgers, account).unlocking, now)
    ensures UnlocksOk(cfg, StoreLedger(ledgers, account, l),
                      unlocks + [ClaimedUnlocked(account, MaturedTotal(LedgerOf(ledgers, account).unlocking, now), now)])
  {
    var ledgers' := StoreLedger(ledgers, account, l);
    var chunks := LedgerOf(ledgers, account).unlocking;
    var event := ClaimedUnlocked(account, MaturedTotal(chunks, now), now);
    var delay := cfg.UnlockingBlocks();
    forall a: AccountId, b: BlockNumber
      ensures LogSum(unlocks + [event], ClaimedBy(a, b)) + MaturedTotal(LedgerOf(ledgers', a).unlocking, b)
              <= LogSum(unlocks + [event], StartedBy(a, delay, b))
    {
      assert LogSum(unlocks, ClaimedBy(a, b)) + MaturedTotal(LedgerOf(ledgers, a).unlocking, b)
             <= LogSum(unlocks, StartedBy(a, delay, b));
      StoredLedger(ledgers, account, l, a);
      LogSumAppend(unlocks, event, ClaimedBy(a, b));
      LogSumAppend(unlocks, event, StartedBy(a, delay, b));
      RetainedMatures(chunks, now, b);
    }
  }

  lemma ClaimUnlockedKeepsInv(cfg: Config, s: State, account: AccountId, cleared: set<SmartContract>)
    requires Inv(cfg, s) && ClaimUnlocked(s, account, cleared).Done?
    ensures Inv(cfg, ClaimUnlocked(s, account, cleared).state)
  {
    var period := s.protocol.periodInfo.number;
    var (after, amount) := LedgerOf(s.ledgers, account).ClaimUnlocked(s.now);
    var unlocks := s.trace.unlocks + [ClaimedUnlocked(account, amount, s.now)];
    ClaimMovesFunds(cfg, s, account);
    StoreKeepsInv(cfg, s, account, after, s.eraInfo.UnlockingRemoved(amount), unlocks);
    if after.IsEmpty() {
      ExitDropsOnlyOld(cfg, s, account, cleared);
      DropKeepsInv(cfg, UpdateLedger(s, account, after).(eraInfo := s.eraInfo.UnlockingRemoved(amount), trace := s.trace.(unlocks := unlocks)),
                   KeysOf(account, cleared));
    }
  }

  lemma ClaimMovesFunds(cfg: Config, s: State, account: AccountId)
    requires Inv(cfg, s)
    ensures var (after, amount) := LedgerOf(s.ledgers, account).ClaimUnlocked(s.now);
            FundsMove(cfg, s, account, after, s.eraInfo.UnlockingRemoved(amount),
                      s.trace.unlocks + [ClaimedUnlocked(account, amount, s.now)])
  {
    InvLedgers(cfg, s);
    var l := LedgerOf(s.ledgers, account);
    LedgerOfIsOk(cfg, s.protocol.era, s.protocol.periodInfo.number, s.ledgers, account);
    RetainedKeepsTheRest(l.unlocking, -1, s.now);
    LedgerWithinFunds(s.ledgers, s.freezes, s.eraInfo.totalLocked, s.eraInfo.unlocking, account);
    ClaimKeepsUnlocks(cfg, s.ledgers, s.trace.unlocks, account, l.ClaimUnlocked(s.now).0, s.now);
  }

  /** An account that exits has no entry of the current period left. */
  lemma ExitDropsOnlyOld(cfg: Config, s: State, account: AccountId, cleared: set<SmartContract>)
    requires Inv(cfg, s) && LedgerOf(s.ledgers, account).ClaimUnlocked(s.now).0.IsEmpty()
    ensures OnlyOld(s.stakers, KeysOf(account, cleared), s.protocol.periodInfo.number)
  {
    InvStakes(cfg, s);
    var period := s.protocol.periodInfo.number;
    forall k | k in s.stakers && k in KeysOf(account, cleared)
      ensures s.stakers[k].staked.period != period
    {
      NoStakeNoEntry(s.protocol.era, period, s.ledgers, s.stakers, s.eraInfo.nextStakeAmount.total, account, k);
    }
  }

  /** Dropping entries of earlier periods keeps the invariant. */
  lemma DropKeepsInv(cfg: Config, s: State, dropped: set<StakerKey>)
    requires Inv(cfg, s) && OnlyOld(s.stakers, dropped, s.protocol.periodInfo.number)
    ensures Inv(cfg, s.(stakers := s.stakers - dropped))
  {
    InvParts(cfg, s);
    var era, period := s.protocol.era, s.protocol.periodInfo;
    DropKeepsStakes(period.number, s.ledgers, s.stakers, s.eraInfo.nextStakeAmount.total, dropped);
    DropKeepsContracts(era, period.number, s.integrated, s.contracts, s.stakers, s.trace.unregistered, dropped);
    DropKeepsVotes(era, period, s.stakers, s.eraInfo.currentStakeAmount, s.eraInfo.nextStakeAmount,
                   s.trace.ended, s.trace.bonuses, s.trace.votes, dropped);
    InvFromParts(cfg, s.(stakers := s.stakers - dropped));
  }

  lemma RelockKeepsUnlocks(cfg: Config, ledgers: Ledgers, unlocks: seq<UnlockEvent>, account: AccountId, l: AccountLedger)
    requires UnlocksOk(cfg, ledgers, unlocks) && l.unlocking == []
    ensures UnlocksOk(cfg, StoreLedger(ledgers, account, l), unlocks)
  {
    var ledgers' := StoreLedger(ledgers, account, l);
    forall a: AccountId, b: BlockNumber
      ensures LogSum(unlocks, ClaimedBy(a, b)) + MaturedTotal(LedgerOf(ledgers', a).unlocking, b)
              <= LogSum(unlocks, StartedBy(a, cfg.UnlockingBlocks(), b))
    {
      StoredLedger(ledgers, account, l, a);
      assert LogSum(unlocks, ClaimedBy(a, b)) + MaturedTotal(LedgerOf(ledgers, a).unlocking, b)
             <= LogSum(unlocks, StartedBy(a, cfg.UnlockingBlocks(), b));
    }
  }

  lemma RelockKeepsInv(cfg: Config, s: State, account: AccountId)
    requires Inv(cfg, s) && RelockUnlocking(cfg, s, account).Done?
    ensures Inv(cfg, RelockUnlocking(cfg, s, account).state)
  {
    var l := LedgerOf(s.ledgers, account);
    var amount := ChunkTotal(l.unlocking);
    RelockMovesFunds(cfg, s, account);
    StoreKeepsInvQuietly(cfg, s, account, l.(unlocking := [], locked := l.locked + amount),
                         s.eraInfo.AddLocked(amount).UnlockingRemoved(amount));
  }

  lemma RelockMovesFunds(cfg: Config, s: State, account: AccountId)
    requires Inv(cfg, s)
    requires LedgerOf(s.ledgers, account).totalLocked >= cfg.minimumLockedAmount
    ensures var l := LedgerOf(s.ledgers, account);
            var amount := ChunkTotal(l.unlocking);
            FundsMove(cfg, s, account, l.(unlocking := [], locked := l.locked + amount),
                      s.eraInfo.AddLocked(amount).UnlockingRemoved(amount), s.trace.unlocks)
  {
    InvLedgers(cfg, s);
    var l := LedgerOf(s.ledgers, account);
    LedgerOfIsOk(cfg, s.protocol.era, s.protocol.periodInfo.number, s.ledgers, account);
    LedgerWithinFunds(s.ledgers, s.freezes, s.eraInfo.totalLocked, s.eraInfo.unlocking, account);
    RelockKeepsUnlocks(cfg, s.ledgers, s.trace.unlocks, account, l.(unlocking := [], locked := l.locked + ChunkTotal(l.unlocking)));
  }
}

/** The pallet with its storage items as fields. Every extrinsic and hook is a method that
    reads, changes and writes them step by step, and is proved to do what the corresponding
    function of `Protocol` says; a failed call leaves everything as it was. */
module Pallet {
  import opened Arithmetic
  import opened StakeTypes
  import opened Ledger
  import opened ContractStake
  import opened RewardHistory
  import opened TierAssignment
  import opened Protocol
  import opened StakeObjects
  import opened TierLoop

  class DappStaking {
    const cfg: Config
    var now: BlockNumber
    var protocol: ProtocolState
    var nextDAppId: DAppId
    var integrated: map<SmartContract, DAppId>
    var ledgers: map<AccountId, AccountLedger>
    var freezes: map<AccountId, Balance>
    var stakers: map<StakerKey, StakingInfo>
    var contracts: map<DAppId, ContractStakeAmount>
    var eraInfo: EraInfo
    var spans: Spans
    var periodEnds: map<PeriodNumber, PeriodEndInfo>
    var dappTiers: map<EraNumber, DAppTierRewards>
    var tierConfig: TierConfig
    var marker: CleanupMarker
    ghost var trace: Trace

    ghost function View(): State
      reads this
    {
      State(now, protocol, nextDAppId, integrated, ledgers, freezes, stakers, contracts, eraInfo,
            spans, periodEnds, dappTiers, tierConfig, marker, trace)
    }

    /** `outcome` is what happened: an error and no change since `before`, or the new state. */
    ghost predicate Happened(outcome: Outcome, before: State, error: Option<Error>)
      reads this
    {
      match outcome
      case Failed(e) => error == Some(e) && View() == before
      case Done(after) => error == None && View() == after
    }

    constructor (config: Config, tiers: TierConfig)
      ensures cfg == config && View() == Genesis(config, tiers)
    {
      cfg := config;
      now := 0;
      protocol := ProtocolState(1, config.BlocksPerVotingPeriod() + 1, PeriodInfo(1, Voting, 2), false);
      nextDAppId, integrated := 0, map[];
      ledgers, freezes, stakers, contracts := map[], map[], map[], map[];
      eraInfo := NO_ERA_INFO;
      spans, periodEnds, dappTiers := map[], map[], map[];
      tierConfig := tiers;
      marker := CleanupMarker(0, 0, 0);
      trace := Trace([], [], [], [], map[], map[], map[], map[]);
    }

    /** Stores the ledger and keeps the freeze equal to its total. */
    method UpdateLedger(account: AccountId, ledger: AccountLedger)
      modifies this`ledgers, this`freezes
      ensures ledgers == StoreLedger(old(ledgers), account, ledger)
      ensures freezes == StoreFreeze(old(freezes), account, ledger)
    {
      if ledger.IsEmpty() {
        ledgers := ledgers - {account};
        freezes := freezes - {account};
      } else {
        freezes := freezes[account := ledger.totalLocked];
        ledgers := ledgers[account := ledger];
      }
    }

    /** Stores a ledger together with the protocol totals. */
    method StoreFunds(account: AccountId, ledger: AccountLedger, totals: EraInfo)
      modifies this
      ensures View() == Protocol.UpdateLedger(old(View()), account, ledger).(eraInfo := totals)
    {
      UpdateLedger(account, ledger);
      eraInfo := totals;
    }

    /** Stores all that a changed stake changes. */
    method StoreStake(account: AccountId, ledger: AccountLedger, entries: map<StakerKey, StakingInfo>,
                      totalsByContract: map<DAppId, ContractStakeAmount>, totals: EraInfo)
      modifies this
      ensures View() == Protocol.UpdateLedger(old(View()), account, ledger).(
                          stakers := entries, contracts := totalsByContract, eraInfo := totals)
    {
      eraInfo := totals;
      UpdateLedger(account, ledger);
      stakers := entries;
      contracts := totalsByContract;
    }

    ghost method LogUnlock(event: UnlockEvent)
      modifies this`trace
      ensures View() == Protocol.LogUnlock(old(View()), event)
    {
      trace := trace.(unlocks := trace.unlocks + [event]);
    }

    // ---------- contracts ----------

    method Register(contract: SmartContract) returns (error: Option<Error>)
      modifies this
      ensures Happened(Protocol.Register(cfg, old(View()), contract), old(View()), error)
    {
      if protocol.maintenance {
        return Some(Disabled);
      }
      if contract in integrated {
        return Some(ContractAlreadyExists);
      }
      if |integrated| >= cfg.maxNumberOfContracts {
        return Some(ExceededMaxNumberOfContracts);
      }
      var id := nextDAppId;
      if id >= 0xFFFF {
        return Some(NewDAppIdUnavailable);
      }
      integrated := integrated[contract := id];
      nextDAppId := id + 1;
      return None;
    }

    method Unregister(contract: SmartContract) returns (error: Option<Error>)
      modifies this
      ensures Happened(Protocol.Unregister(old(View()), contract), old(View()), error)
    {
      if protocol.maintenance {
        return Some(Disabled);
      }
      if contract !in integrated {
        return Some(ContractNotFound);
      }
      contracts := contracts - {integrated[contract]};
      integrated := integrated - {contract};
      trace := trace.(unregistered := trace.unregistered[contract := protocol.periodInfo.number]);
      return None;
    }

    // ---------- locking ----------

    method Lock(account: AccountId, amount: Balance, totalBalance: Balance, allowed: bool) returns (error: Option<Error>)
      modifies this
      ensures Happened(Protocol.Lock(cfg, old(View()), account, amount, totalBalance, allowed), old(View()), error)
    {
      if protocol.maintenance {
        return Some(Disabled);
      }
      var ledger := new LedgerRecord(LedgerOf(ledgers, account));
      if ledger.View().IsEmpty() && !allowed {
        return Some(AccountNotAvailableForDappStaking);
      }
      var toLock := Min(SatSub(totalBalance, ledger.View().totalLocked), amount);
      if toLock == 0 {
        return Some(ZeroAmount);
      }
      ledger.locked := ledger.locked + toLock;
      if ledger.locked < cfg.minimumLockedAmount {
        return Some(LockedAmountBelowThreshold);
      }
      StoreFunds(account, ledger.View(), eraInfo.AddLocked(toLock));
      return None;
    }

    /** The amount to unlock; `None` when stake is in the way of unlocking everything. */
    method UnlockableOf(ledger: AccountLedger, amount: Balance) returns (r: Option<Balance>)
      ensures r == AmountToUnlock(cfg, ledger, amount, protocol.periodInfo.number)
    {
      var period := protocol.periodInfo.number;
      var toUnlock := Min(ledger.UnlockableAmount(period), amount);
      if SatSub(ledger.locked, toUnlock) < cfg.minimumLockedAmount {
        if ledger.StakedAmount(period) != 0 {
          return None;
        }
        toUnlock := ledger.locked;
      }
      return Some(toUnlock);
    }

    /** The binary search relies on the order of the chunks. */
    method Unlock(account: AccountId, amount: Balance) returns (error: Option<Error>)
      requires ChunksAfter(LedgerOf(ledgers, account).unlocking, -1)
      modifies this
      ensures Happened(Protocol.Unlock(cfg, old(View()), account, amount), old(View()), error)
    {
      if protocol.maintenance {
        return Some(Disabled);
      }
      var ledger := new LedgerRecord(LedgerOf(ledgers, account));
      var unlockable := UnlockableOf(ledger.View(), amount);
      if unlockable.None? {
        return Some(RemainingStakePreventsFullUnlock);
      }
      var toUnlock := unlockable.value;
      if toUnlock == 0 {
        return Some(ZeroAmount);
      }
      ledger.locked := SatSub(ledger.locked, toUnlock);
      var failed := ledger.AddUnlockingChunk(toUnlock, now + cfg.UnlockingBlocks(), cfg.maxUnlockingChunks);
      if failed.Some? {
        return Some(TooManyUnlockingChunks);
      }
      StoreFunds(account, ledger.View(), eraInfo.UnlockingStarted(toUnlock));
      LogUnlock(Unlocking(account, toUnlock, now));
      return None;
    }

    method ClaimUnlocked(account: AccountId, cleared: set<SmartContract>) returns (error: Option<Error>)
      modifies this
      ensures Happened(Protocol.ClaimUnlocked(old(View()), account, cleared), old(View()), error)
    {
      if protocol.maintenance {
        return Some(Disabled);
      }
      var ledger := new LedgerRecord(LedgerOf(ledgers, account));
      var amount := ledger.ClaimUnlocked(now);
      if amount == 0 {
        return Some(NoUnlockedChunksToClaim);
      }
      var entries := stakers;
      if ledger.View().IsEmpty() {
        entries := entries - KeysOf(account, cleared);
      }
      StoreStake(account, ledger.View(), entries, contracts, eraInfo.UnlockingRemoved(amount));
      LogUnlock(ClaimedUnlocked(account, amount, now));
      return None;
    }

    method RelockUnlocking(account: AccountId) returns (error: Option<Error>)
      modifies this
      ensures Happened(Protocol.RelockUnlocking(cfg, old(View()), account), old(View()), error)
    {
      if protocol.maintenance {
        return Some(Disabled);
      }
      var ledger := new LedgerRecord(LedgerOf(ledgers, account));
      if |ledger.unlocking| == 0 {
        return Some(NoUnlockingChunks);
      }
      var amount := ledger.ConsumeUnlockingChunks();
      ledger.locked := ledger.locked + amount;
      if ledger.locked < cfg.minimumLockedAmount {
        return Some(LockedAmountBelowThreshold);
      }
      var totals := eraInfo.AddLocked(amount);
      totals := totals.UnlockingRemoved(amount);
      StoreFunds(account, ledger.View(), totals);
      return None;
    }

    // ---------- staking ----------

    /** The entry to stake with, new or current; `None` when a bonus must be claimed first. */
    method EntryToStake(key: StakerKey) returns (r: Option<(StakingInfo, bool)>)
      ensures r == EntryForStake(cfg, View(), key)
    {
      var period := protocol.periodInfo;
      if key in stakers {
        var entry := stakers[key];
        if entry.staked.period == period.number {
          return Some((entry, false));
        }
        if entry.staked.period >= cfg.OldestClaimablePeriod(period.number) && entry.loyalStaker {
          return None;
        }
      }
      return Some((StakingInfo.New(period.number, period.subperiod), true));
    }

    method StakeInLedger(account: AccountId, amount: Balance) returns (r: LedgerResult<AccountLedger>)
      ensures r == LedgerOf(ledgers, account).MaybeCleanupExpired(cfg.OldestClaimablePeriod(protocol.periodInfo.number))
                                             .AddStakeAmount(amount, protocol.era, protocol.periodInfo)
    {
      var ledger := new LedgerRecord(LedgerOf(ledgers, account));
      var _ := ledger.MaybeCleanupExpired(cfg.OldestClaimablePeriod(protocol.periodInfo.number));
      var failed := ledger.AddStakeAmount(amount, protocol.era, protocol.periodInfo);
      r := if failed.Some? then Err(failed.value) else Ok(ledger.View());
    }

    method StakeWithEntry(info: StakingInfo, amount: Balance) returns (after: StakingInfo)
      ensures after == info.Stake(amount, protocol.era, protocol.periodInfo.subperiod)
    {
      var entry := new StakerRecord(info);
      entry.Stake(amount, protocol.era, protocol.periodInfo.subperiod);
      after := entry.View();
    }

    method StakeOnContract(id: DAppId, amount: Balance) returns (after: ContractStakeAmount)
      ensures after == ContractOf(contracts, id).Stake(amount, protocol.periodInfo, protocol.era)
    {
      var contractStake := new ContractRecord(ContractOf(contracts, id));
      contractStake.Stake(amount, protocol.periodInfo, protocol.era);
      after := contractStake.View();
    }

    method UnstakeFromContract(id: DAppId, pairs: EraPairs) returns (after: ContractStakeAmount)
      ensures after == ContractOf(contracts, id).Unstake(pairs, protocol.periodInfo, protocol.era)
    {
      var contractStake := new ContractRecord(ContractOf(contracts, id));
      contractStake.Unstake(pairs, protocol.periodInfo, protocol.era);
      after := contractStake.View();
    }

    /** Stores a changed ledger and entry with the totals of the contract and of the era. */
    method StoreNewStake(key: StakerKey, amount: Balance, ledger: AccountLedger, entry: StakingInfo)
      requires key.contract in integrated
      modifies this
      ensures var s, id := old(View()), old(integrated[key.contract]);
              View() == Protocol.UpdateLedger(s, key.account, ledger).(
                          stakers := s.stakers[key := entry],
                          contracts := s.contracts[id := ContractOf(s.contracts, id).Stake(amount, s.protocol.periodInfo, s.protocol.era)],
                          eraInfo := s.eraInfo.AddStakeAmount(amount, s.protocol.periodInfo.subperiod))
    {
      var id := integrated[key.contract];
      var contractStake := StakeOnContract(id, amount);
      StoreStake(key.account, ledger, stakers[key := entry], contracts[id := contractStake],
                 eraInfo.AddStakeAmount(amount, protocol.periodInfo.subperiod));
    }

    method Stake(account: AccountId, contract: SmartContract, amount: Balance) returns (error: Option<Error>)
      modifies this
      ensures Happened(Protocol.Stake(cfg, old(View()), account, contract, amount), old(View()), error)
    {
      if protocol.maintenance {
        return Some(Disabled);
      }
      if amount == 0 {
        return Some(ZeroAmount);
      }
      if contract !in integrated {
        return Some(ContractNotFound);
      }
      var period, era := protocol.periodInfo, protocol.era;
      if period.IsNextPeriod(era + 1) {
        return Some(PeriodEndsInNextEra);
      }
      var staked := StakeInLedger(account, amount);
      if staked.Err? {
        return Some(match staked.error
                    case InvalidPeriod => UnclaimedRewards
                    case InvalidEra => UnclaimedRewards
                    case UnavailableStakeFunds => UnavailableFunds
                    case _ => InternalStakeError);
      }
      var key := StakerKey(account, contract);
      var chosen := EntryToStake(key);
      if chosen.None? {
        return Some(UnclaimedRewards);
      }
      var entry := StakeWithEntry(chosen.value.0, amount);
      if entry.staked.total < cfg.minimumStakeAmount {
        return Some(InsufficientStakeAmount);
      }
      var ledger := staked.value;
      if chosen.value.1 {
        ledger := ledger.(contractStakeCount := ledger.contractStakeCount + 1);
        if ledger.contractStakeCount > cfg.maxNumberOfStakedContracts {
          return Some(TooManyStakedContracts);
        }
      }
      StoreNewStake(key, amount, ledger, entry);
      return None;
    }

    method Unstake(account: AccountId, contract: SmartContract, amount: Balance) returns (error: Option<Error>)
      modifies this
      ensures Happened(Protocol.Unstake(cfg, old(View()), account, contract, amount), old(View()), error)
    {
      if protocol.maintenance {
        return Some(Disabled);
      }
      if amount == 0 {
        return Some(ZeroAmount);
      }
      if contract !in integrated {
        return Some(ContractNotFound);
      }
      var period, era, key := protocol.periodInfo, protocol.era, StakerKey(account, contract);
      if key !in stakers {
        return Some(NoStakingInfo);
      }
      var entry := new StakerRecord(stakers[key]);
      if entry.staked.period != period.number {
        return Some(UnstakeFromPastPeriod);
      }
      if entry.staked.total < amount {
        return Some(UnstakeAmountTooLarge);
      }
      var toUnstake := if SatSub(entry.staked.total, amount) < cfg.minimumStakeAmount then entry.staked.total else amount;
      var pairs := entry.Unstake(toUnstake, era, period.subperiod);
      var ledger := new LedgerRecord(LedgerOf(ledgers, account));
      var failed := ledger.UnstakeAmount(toUnstake, era, period);
      if failed.Some? {
        return Some(match failed.value
                    case InvalidPeriod => UnclaimedRewards
                    case InvalidEra => UnclaimedRewards
                    case UnstakeAmountLargerThanStake => UnstakeAmountTooLarge
                    case _ => InternalUnstakeError);
      }
      var id := integrated[contract];
      var contractStake := UnstakeFromContract(id, pairs);
      var entries := stakers;
      if entry.staked.IsEmpty() {
        ledger.contractStakeCount := SatSub(ledger.contractStakeCount, 1);
        entries := entries - {key};
      } else {
        entries := entries[key := entry.View()];
      }
      StoreStake(account, ledger.View(), entries, contracts[id := contractStake], eraInfo.UnstakeAmount(toUnstake));
      return None;
    }

    method UnstakeFromUnregistered(account: AccountId, contract: SmartContract) returns (error: Option<Error>)
      modifies this
      ensures Happened(Protocol.UnstakeFromUnregistered(old(View()), account, contract), old(View()), error)
    {
      if protocol.maintenance {
        return Some(Disabled);
      }
      if contract in integrated {
        return Some(ContractStillActive);
      }
      var key := StakerKey(account, contract);
      if key !in stakers {
        return Some(NoStakingInfo);
      }
      if stakers[key].staked.period != protocol.periodInfo.number {
        return Some(UnstakeFromPastPeriod);
      }
      var amount := stakers[key].staked.total;
      var ledger := new LedgerRecord(LedgerOf(ledgers, account));
      var failed := ledger.UnstakeAmount(amount, protocol.era, protocol.periodInfo);
      if failed.Some? {
        return Some(match failed.value
                    case InvalidPeriod => UnclaimedRewards
                    case InvalidEra => UnclaimedRewards
                    case _ => InternalUnstakeError);
      }
      StoreStake(account, ledger.View(), stakers - {key}, contracts, eraInfo.UnstakeAmount(amount));
      return None;
    }

    /** The expired entries of the account, found in any order. */
    method FindExpired(account: AccountId) returns (found: set<StakerKey>)
      ensures found == ExpiredKeys(cfg, View(), account)
    {
      found := {};
      var rest := stakers.Keys;
      while rest != {}
        invariant rest <= stakers.Keys
        invariant forall k :: k in found <==>
                    k in stakers && k !in rest && k.account == account && IsExpired(cfg, protocol.periodInfo.number, stakers[k])
        decreases |rest|
      {
        var key :| key in rest;
        rest := rest - {key};
        if key.account == account && IsExpired(cfg, protocol.periodInfo.number, stakers[key]) {
          found := found + {key};
        }
      }
    }

    /** The entries once all of `keys` are removed, one by one. */
    method WithoutEntries(keys: set<StakerKey>) returns (entries: map<StakerKey, StakingInfo>)
      ensures entries == stakers - keys
    {
      entries := stakers;
      var rest := keys;
      while rest != {}
        invariant rest <= keys && entries - rest == stakers - keys
        decreases |rest|
      {
        var key :| key in rest;
        entries := entries - {key};
        rest := rest - {key};
      }
    }

    method StoreEntries(account: AccountId, ledger: AccountLedger, entries: map<StakerKey, StakingInfo>)
      modifies this
      ensures View() == Protocol.UpdateLedger(old(View()), account, ledger).(stakers := entries)
    {
      stakers := entries;
      UpdateLedger(account, ledger);
    }

    method CleanupExpiredEntries(account: AccountId) returns (error: Option<Error>)
      modifies this
      ensures Happened(Protocol.CleanupExpiredEntries(cfg, old(View()), account), old(View()), error)
    {
      if protocol.maintenance {
        return Some(Disabled);
      }
      var expired := FindExpired(account);
      if |expired| == 0 {
        return Some(NoExpiredEntries);
      }
      var entries := WithoutEntries(expired);
      var ledger := new LedgerRecord(LedgerOf(ledgers, account));
      ledger.contractStakeCount := SatSub(ledger.contractStakeCount, |expired|);
      var _ := ledger.MaybeCleanupExpired(cfg.OldestClaimablePeriod(protocol.periodInfo.number));
      StoreEntries(account, ledger.View(), entries);
      return None;
    }

    // ---------- rewards ----------

    method RewardOf(reward: EraReward, era: EraNumber, amount: Balance) returns (r: seq<(EraNumber, Balance)>)
      ensures r == RewardFor(reward, era, amount)
    {
      r := [];
      if amount != 0 && reward.staked != 0 {
        r := r + [(era, ProRata(PERBILL, amount, reward.staked, reward.stakerRewardPool))];
      }
    }

    /** Turns the claimed pairs into rewards; `None` when an era is missing. */
    method CalculateRewards(span: EraRewardSpan, claimed: EraStakePairs) returns (r: Option<seq<(EraNumber, Balance)>>)
      ensures r == StakerRewards(span, claimed.Pairs())
    {
      var rewards: seq<(EraNumber, Balance)> := [];
      var pairs := new PairIterator(claimed);
      ghost var rest := claimed.Pairs();
      JoinedEnds(rewards, StakerRewards(span, rest));
      var pair := pairs.Next();
      while pair.Some?
        invariant fresh(pairs)
        invariant rest == if pair.Some? then [pair.value] + pairs.View().Pairs() else []
        invariant StakerRewards(span, claimed.Pairs()) == Joined(rewards, StakerRewards(span, rest))
        decreases |rest|
      {
        var (era, amount) := pair.value;
        var reward := span.Get(era);
        if reward.None? {
          return None;
        }
        RewardsStep(span, rewards, pair.value, pairs.View().Pairs());
        var more := RewardOf(reward.value, era, amount);
        rewards := rewards + more;
        rest := pairs.View().Pairs();
        pair := pairs.Next();
      }
      JoinedEnds(rewards, None);
      return Some(rewards);
    }

    method ClaimStakerRewards(account: AccountId, payoutOk: bool) returns (error: Option<Error>)
      modifies this
      ensures Happened(Protocol.ClaimStakerRewards(cfg, old(View()), account, payoutOk), old(View()), error)
    {
      if protocol.maintenance {
        return Some(Disabled);
      }
      var ledger := new LedgerRecord(LedgerOf(ledgers, account));
      var stakedPeriod, earliest := ledger.View().StakedPeriod(), ledger.View().EarliestStakedEra();
      if stakedPeriod.None? {
        return Some(NoClaimableRewards);
      }
      if stakedPeriod.value < cfg.OldestClaimablePeriod(protocol.periodInfo.number) {
        return Some(RewardExpired);
      }
      if earliest.None? {
        return Some(InternalClaimStakerError);
      }
      var index := SpanIndex(cfg.eraRewardSpanLength, earliest.value);
      if index !in spans {
        return Some(NoClaimableRewards);
      }
      var span := spans[index];
      var lastPeriodEra, periodEnd := SatSub(protocol.era, 1), None;
      if stakedPeriod.value != protocol.periodInfo.number {
        if stakedPeriod.value !in periodEnds {
          return Some(InternalClaimStakerError);
        }
        lastPeriodEra := periodEnds[stakedPeriod.value].finalEra;
        periodEnd := Some(lastPeriodEra);
      }
      var claimed := ledger.ClaimUpToEra(Min(span.lastEra, lastPeriodEra), periodEnd);
      if claimed.Err? {
        return Some(if claimed.error == NothingToClaim then NoClaimableRewards else InternalClaimStakerError);
      }
      var rewards := CalculateRewards(span, claimed.value);
      if rewards.None? {
        return Some(InternalClaimStakerError);
      }
      if !payoutOk {
        return Some(RewardPayoutFailed);
      }
      StoreClaim(account, ledger.View(), RewardEvents(account, rewards.value));
      return None;
    }

    method StoreClaim(account: AccountId, ledger: AccountLedger, ghost events: seq<StakerReward>)
      modifies this
      ensures View() == Protocol.UpdateLedger(old(View()), account, ledger).(
                          trace := old(trace).(stakerRewards := old(trace).stakerRewards + events))
    {
      UpdateLedger(account, ledger);
      trace := trace.(stakerRewards := trace.stakerRewards + events);
    }

    method ClaimBonusReward(account: AccountId, contract: SmartContract, payoutOk: bool) returns (error: Option<Error>)
      modifies this
      ensures Happened(Protocol.ClaimBonusReward(cfg, old(View()), account, contract, payoutOk), old(View()), error)
    {
      if protocol.maintenance {
        return Some(Disabled);
      }
      var key, period := StakerKey(account, contract), protocol.periodInfo.number;
      if key !in stakers {
        return Some(NoClaimableRewards);
      }
      var entry := stakers[key];
      if entry.staked.period >= period {
        return Some(NoClaimableRewards);
      }
      if !entry.loyalStaker {
        return Some(NotEligibleForBonusReward);
      }
      if entry.staked.period < cfg.OldestClaimablePeriod(period) {
        return Some(RewardExpired);
      }
      if entry.staked.period !in periodEnds {
        return Some(InternalClaimBonusError);
      }
      var end := periodEnds[entry.staked.period];
      if end.totalVpStake == 0 {
        return Some(InternalClaimBonusError);
      }
      var bonus := ProRata(PERBILL, entry.staked.voting, end.totalVpStake, end.bonusRewardPool);
      if !payoutOk {
        return Some(RewardPayoutFailed);
      }
      StoreBonus(key, BonusReward(account, contract, entry.staked.period, bonus));
      return None;
    }

    method StoreBonus(key: StakerKey, ghost event: BonusReward)
      modifies this
      ensures var before, ledger := old(View()), LedgerOf(old(ledgers), key.account);
              View() == before.(stakers := before.stakers - {key},
                                ledgers := before.ledgers[key.account := ledger.(contractStakeCount := SatSub(ledger.contractStakeCount, 1))],
                                trace := before.trace.(bonuses := before.trace.bonuses + [event]))
    {
      stakers := stakers - {key};
      var ledger := LedgerOf(ledgers, key.account);
      ledger := ledger.(contractStakeCount := SatSub(ledger.contractStakeCount, 1));
      ledgers := ledgers[key.account := ledger];
      trace := trace.(bonuses := trace.bonuses + [event]);
    }

    method ClaimDAppReward(contract: SmartContract, era: EraNumber, payoutOk: bool) returns (error: Option<Error>)
      modifies this
      ensures Happened(Protocol.ClaimDAppReward(cfg, old(View()), contract, era, payoutOk), old(View()), error)
    {
      if protocol.maintenance {
        return Some(Disabled);
      }
      if contract !in integrated {
        return Some(ContractNotFound);
      }
      if era >= protocol.era {
        return Some(InvalidClaimEra);
      }
      if era !in dappTiers {
        return Some(NoDAppTierInfo);
      }
      var tiers := dappTiers[era];
      if tiers.period < cfg.OldestClaimablePeriod(protocol.periodInfo.number) {
        return Some(RewardExpired);
      }
      var id := integrated[contract];
      var claimed := tiers.TryClaim(id);
      if claimed.None? {
        return Some(NoClaimableRewards);
      }
      var (after, amount, ranked) := claimed.value;
      if !payoutOk {
        return Some(RewardPayoutFailed);
      }
      dappTiers := dappTiers[era := after];
      trace := trace.(dappRewards := trace.dappRewards + [DAppReward(id, era, ranked.tier, amount)]);
      return None;
    }

    // ---------- hooks ----------

    method SetMaintenance(enabled: bool)
      modifies this`protocol
      ensures View() == old(View()).(protocol := old(protocol).(maintenance := enabled))
    {
      protocol := protocol.(maintenance := enabled);
    }

    method EndVoting()
      modifies this
      ensures View() == Protocol.EndVoting(cfg, old(View()))
    {
      var era, period := protocol.era, protocol.periodInfo.number;
      var state := protocol.AdvanceToNextSubperiod(era + 1 + cfg.erasPerBuildAndEarn, now + cfg.blocksPerEra);
      protocol := state.(era := era + 1);
      eraInfo := eraInfo.MigrateToNextEra(Some(BuildAndEarn));
      trace := trace.(votes := trace.votes[period := VotesOf(stakers, period)]);
    }

    method EndEra()
      modifies this
      ensures View() == Protocol.EndEra(cfg, old(View()))
    {
      protocol := protocol.(era := protocol.era + 1, nextEraStart := now + cfg.blocksPerEra);
      eraInfo := eraInfo.MigrateToNextEra(None);
    }

    method UpdateCleanupMarker(newPeriod: PeriodNumber)
      modifies this`periodEnds, this`marker
      ensures (periodEnds, marker) == ExpirePeriod(cfg, old(periodEnds), old(marker), newPeriod)
    {
      var expired := SatSub(newPeriod, cfg.rewardRetentionInPeriods + 1);
      if expired == 0 || expired !in periodEnds {
        return;
      }
      marker := marker.(oldestValidEra := periodEnds[expired].finalEra + 1);
      periodEnds := periodEnds - {expired};
    }

    /** Moves on to the Voting subperiod of the next period. */
    method StartPeriod(ghost ended: map<PeriodNumber, PeriodEndInfo>)
      modifies this
      ensures var s := old(View());
              View() == s.(protocol := s.protocol.AdvanceToNextSubperiod(s.protocol.era + 2, s.now + cfg.BlocksPerVotingPeriod())
                                                 .(era := s.protocol.era + 1),
                           eraInfo := s.eraInfo.MigrateToNextEra(Some(Voting)),
                           trace := s.trace.(ended := ended))
    {
      var state := protocol.AdvanceToNextSubperiod(protocol.era + 2, now + cfg.BlocksPerVotingPeriod());
      protocol := state.(era := protocol.era + 1);
      eraInfo := eraInfo.MigrateToNextEra(Some(Voting));
      trace := trace.(ended := ended);
    }

    method EndPeriod(bonusPool: Balance)
      modifies this
      ensures View() == Protocol.EndPeriod(cfg, old(View()), bonusPool)
    {
      var period := protocol.periodInfo.number;
      var end := PeriodEndInfo(bonusPool, eraInfo.currentStakeAmount.voting, protocol.era);
      periodEnds := periodEnds[period := end];
      UpdateCleanupMarker(period + 1);
      StartPeriod(trace.ended[period := end]);
    }

    /** Records the reward of the finished era and the new tier configuration. */
    method RecordEra(era: EraNumber, reward: EraReward, tiers: map<EraNumber, DAppTierRewards>, config: TierConfig)
      modifies this
      ensures View() == old(View()).(spans := Record(cfg.eraRewardSpanLength, old(spans), era, reward), dappTiers := tiers, tierConfig := config,
                                     trace := old(trace).(rewards := old(trace).rewards[era := reward]))
    {
      var index := SpanIndex(cfg.eraRewardSpanLength, era);
      var span := SpanFor(spans, index);
      var (pushed, _) := span.Push(era, reward, cfg.eraRewardSpanLength);
      spans := spans[index := pushed];
      dappTiers := tiers;
      tierConfig := config;
      trace := trace.(rewards := trace.rewards[era := reward]);
    }

    method CloseEra(bonusPool: Balance, reward: EraReward, tiers: map<EraNumber, DAppTierRewards>, config: TierConfig)
      modifies this
      ensures View() == Protocol.CloseEra(cfg, old(View()), bonusPool, reward, tiers, config)
    {
      var era, period := protocol.era, protocol.periodInfo;
      if period.subperiod == Voting {
        EndVoting();
      } else if period.IsNextPeriod(era + 1) {
        EndPeriod(bonusPool);
      } else {
        EndEra();
      }
      RecordEra(era, reward, tiers, config);
    }

    /** The tier assignments after this era, and the ranking they follow. */
    method AssignedTiers(dappPool: Balance) returns (tiers: map<EraNumber, DAppTierRewards>, ranking: Ranking)
      ensures protocol.periodInfo.subperiod == BuildAndEarn ==> IsRanking(contracts, protocol.era, protocol.periodInfo.number, ranking)
      ensures tiers == match protocol.periodInfo.subperiod
                       case Voting => dappTiers
                       case BuildAndEarn =>
                         dappTiers[protocol.era := TierRewards(tierConfig, cfg.rankingEnabled, ranking, protocol.periodInfo.number, dappPool)]
    {
      tiers, ranking := dappTiers, [];
      if protocol.periodInfo.subperiod == BuildAndEarn {
        ranking := RankDApps(contracts, protocol.era, protocol.periodInfo.number);
        var rewards := AssignToTiers(tierConfig, cfg.rankingEnabled, ranking, protocol.periodInfo.number, dappPool);
        tiers := tiers[protocol.era := rewards];
      }
    }

    method NewEra(stakerPool: Balance, dappPool: Balance, bonusPool: Balance, price: nat, issuance: Balance)
      returns (ghost inputs: EraInputs)
      modifies this
      ensures inputs == EraInputs(stakerPool, dappPool, bonusPool, price, issuance, inputs.ranking)
      ensures old(protocol).periodInfo.subperiod == BuildAndEarn ==>
                IsRanking(old(contracts), old(protocol).era, old(protocol).periodInfo.number, inputs.ranking)
      ensures View() == Protocol.NewEra(cfg, old(View()), inputs)
    {
      var staked := eraInfo.currentStakeAmount.total;
      var reward := match protocol.periodInfo.subperiod
        case Voting => EraReward(0, staked, 0)
        case BuildAndEarn => EraReward(stakerPool, staked, dappPool);
      var tiers, ranking := AssignedTiers(dappPool);
      inputs := EraInputs(stakerPool, dappPool, bonusPool, price, issuance, ranking);
      CloseEra(bonusPool, reward, tiers, NextTierConfig(cfg, tierConfig, price, issuance));
    }

    /** `on_initialize`; the ranking it sorts is reported as part of the inputs. */
    method OnInitialize(stakerPool: Balance, dappPool: Balance, bonusPool: Balance, price: nat, issuance: Balance)
      returns (ghost inputs: EraInputs)
      modifies this
      ensures inputs == EraInputs(stakerPool, dappPool, bonusPool, price, issuance, inputs.ranking)
      ensures Enabled(old(View()), CallOnInitialize(inputs))
      ensures View() == Protocol.OnInitialize(cfg, old(View()), inputs)
    {
      ghost var before := View();
      now := now + 1;
      assert View() == before.(now := before.now + 1);
      inputs := EraInputs(stakerPool, dappPool, bonusPool, price, issuance, []);
      if !protocol.maintenance && protocol.IsNewEra(now) {
        inputs := NewEra(stakerPool, dappPool, bonusPool, price, issuance);
      }
    }

    method OnIdle(enoughWeight: bool)
      modifies this
      ensures View() == Protocol.OnIdle(cfg, old(View()), enoughWeight)
    {
      if !enoughWeight || !marker.HasPendingCleanups() {
        return;
      }
      var oldest := marker.oldestValidEra;
      if marker.eraRewardIndex < oldest {
        var index := marker.eraRewardIndex;
        if index in spans {
          if spans[index].lastEra < oldest {
            spans := spans - {index};
            marker := marker.(eraRewardIndex := index + cfg.eraRewardSpanLength);
          }
        } else {
          marker := marker.(eraRewardIndex := index + cfg.eraRewardSpanLength);
        }
      }
      if marker.dappTiersIndex < oldest {
        dappTiers := dappTiers - {marker.dappTiersIndex};
        marker := marker.(dappTiersIndex := marker.dappTiersIndex + 1);
      }
    }
  }

  /** `rewards` followed by what is still to come, if that is known. */
  function Joined(rewards: seq<(EraNumber, Balance)>, more: Option<seq<(EraNumber, Balance)>>): Option<seq<(EraNumber, Balance)>> {
    match more
    case None => None
    case Some(rest) => Some(rewards + rest)
  }

  lemma JoinedEnds(rewards: seq<(EraNumber, Balance)>, more: Option<seq<(EraNumber, Balance)>>)
    ensures Joined([], more) == more && Joined(rewards, Some([])) == Some(rewards)
  {
    if more.Some? {
      assert [] + more.value == more.value;
    }
    assert rewards + [] == rewards;
  }

  lemma RewardsStep(span: EraRewardSpan, rewards: seq<(EraNumber, Balance)>, pair: (EraNumber, Balance), rest: seq<(EraNumber, Balance)>)
    requires span.Get(pair.0).Some?
    ensures Joined(rewards, StakerRewards(span, [pair] + rest))
            == Joined(rewards + RewardFor(span.Get(pair.0).value, pair.0, pair.1), StakerRewards(span, rest))
  {
    assert ([pair] + rest)[1..] == rest;
    var first := RewardFor(span.Get(pair.0).value, pair.0, pair.1);
    if StakerRewards(span, rest).Some? {
      assert rewards + (first + StakerRewards(span, rest).value) == (rewards + first) + StakerRewards(span, rest).value;
    }
  }
}

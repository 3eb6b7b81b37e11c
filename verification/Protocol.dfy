/** The dApp staking pallet as a state machine: its storage, every extrinsic and hook as a
    function from state to outcome, and the events of a run. A failed call changes nothing. */
module Protocol {
  import opened Arithmetic
  import opened StakeTypes
  import opened Ledger
  import opened ContractStake
  import opened RewardHistory
  import opened Tiers
  import opened TierAssignment

  // ---------- configuration ----------

  datatype RawConfig = Config(
    eraRewardSpanLength: nat,
    rewardRetentionInPeriods: nat,
    maxNumberOfContracts: nat,
    maxUnlockingChunks: nat,
    minimumLockedAmount: Balance,
    unlockingPeriod: EraNumber,
    maxNumberOfStakedContracts: nat,
    minimumStakeAmount: Balance,
    rankingEnabled: bool,
    erasPerVoting: EraNumber,
    erasPerBuildAndEarn: EraNumber,
    blocksPerEra: BlockNumber,
    slotFactor: nat,
    basePrice: nat,
    tierParams: TierParameters)
  {
    /** The checks of `integrity_test` and of the genesis build. */
    predicate Valid() {
      && eraRewardSpanLength > 0 && rewardRetentionInPeriods > 0 && maxNumberOfContracts > 0
      && maxUnlockingChunks > 0 && unlockingPeriod > 0 && maxNumberOfStakedContracts > 0
      && minimumLockedAmount > 0 && minimumStakeAmount > 0 && minimumLockedAmount >= minimumStakeAmount
      && erasPerVoting > 0 && erasPerBuildAndEarn > 0 && blocksPerEra > 0
      && tierParams.IsValid(|tierParams.rewardPortion|)
    }

    function OldestClaimablePeriod(period: PeriodNumber): PeriodNumber {
      SatSub(period, rewardRetentionInPeriods)
    }

    /** Unlocking period in blocks. */
    function UnlockingBlocks(): BlockNumber {
      blocksPerEra * unlockingPeriod
    }

    function BlocksPerVotingPeriod(): BlockNumber {
      blocksPerEra * erasPerVoting
    }
  }

  type Config = c: RawConfig | c.Valid()
    witness Config(1, 1, 1, 1, 1, 1, 1, 1, true, 1, 1, 1, 1, 1, TierParameters([], [], []))

  type TierConfig = c: TiersConfiguration | ConfigOk(c) witness TiersConfiguration([], [], [])

  // ---------- state ----------

  datatype StakerKey = StakerKey(account: AccountId, contract: SmartContract)

  datatype UnlockEvent =
    | Unlocking(account: AccountId, amount: Balance, block: BlockNumber)
    | ClaimedUnlocked(account: AccountId, amount: Balance, block: BlockNumber)

  datatype StakerReward = StakerReward(account: AccountId, era: EraNumber, amount: Balance)

  datatype BonusReward = BonusReward(account: AccountId, contract: SmartContract, period: PeriodNumber, amount: Balance)

  datatype DAppReward = DAppReward(id: DAppId, era: EraNumber, tier: nat, amount: Balance)

  /** What happened so far: the events of the run by kind, the rewards of all eras, the
      ends of all periods, the voting stakes at the end of each Voting subperiod, and the
      period in which a contract was last unregistered. None of it is storage. */
  datatype Trace = Trace(
    unlocks: seq<UnlockEvent>,
    stakerRewards: seq<StakerReward>,
    bonuses: seq<BonusReward>,
    dappRewards: seq<DAppReward>,
    rewards: History,
    ended: map<PeriodNumber, PeriodEndInfo>,
    votes: map<PeriodNumber, map<StakerKey, Balance>>,
    unregistered: map<SmartContract, PeriodNumber>)

  datatype State = State(
    now: BlockNumber,
    protocol: ProtocolState,
    nextDAppId: DAppId,
    integrated: map<SmartContract, DAppId>,
    ledgers: map<AccountId, AccountLedger>,
    freezes: map<AccountId, Balance>,
    stakers: map<StakerKey, StakingInfo>,
    contracts: map<DAppId, ContractStakeAmount>,
    eraInfo: EraInfo,
    spans: Spans,
    periodEnds: map<PeriodNumber, PeriodEndInfo>,
    dappTiers: map<EraNumber, DAppTierRewards>,
    tierConfig: TierConfig,
    marker: CleanupMarker,
    trace: Trace)

  function Genesis(cfg: Config, tierConfig: TierConfig): State {
    State(0,
          ProtocolState(1, cfg.BlocksPerVotingPeriod() + 1, PeriodInfo(1, Voting, 2), false),
          0, map[], map[], map[], map[], map[], NO_ERA_INFO, map[], map[], map[], tierConfig,
          CleanupMarker(0, 0, 0), Trace([], [], [], [], map[], map[], map[], map[]))
  }

  datatype Error =
    | Disabled | ContractAlreadyExists | ExceededMaxNumberOfContracts | NewDAppIdUnavailable
    | ContractNotFound | ZeroAmount | LockedAmountBelowThreshold | AccountNotAvailableForDappStaking
    | TooManyUnlockingChunks | RemainingStakePreventsFullUnlock | NoUnlockedChunksToClaim | NoUnlockingChunks
    | UnavailableFunds | UnclaimedRewards | InternalStakeError | InsufficientStakeAmount
    | PeriodEndsInNextEra | UnstakeFromPastPeriod | UnstakeAmountTooLarge | NoStakingInfo
    | InternalUnstakeError | RewardExpired | RewardPayoutFailed | NoClaimableRewards
    | InternalClaimStakerError | NotEligibleForBonusReward | InternalClaimBonusError
    | InvalidClaimEra | NoDAppTierInfo | ContractStillActive | TooManyStakedContracts | NoExpiredEntries

  datatype Outcome = Done(state: State) | Failed(error: Error)

  // ---------- storage helpers ----------

  function LedgerOf(ledgers: map<AccountId, AccountLedger>, account: AccountId): AccountLedger {
    if account in ledgers then ledgers[account] else NO_LEDGER
  }

  function FreezeOf(freezes: map<AccountId, Balance>, account: AccountId): Balance {
    if account in freezes then freezes[account] else 0
  }

  function ContractOf(contracts: map<DAppId, ContractStakeAmount>, id: DAppId): ContractStakeAmount {
    if id in contracts then contracts[id] else NO_CONTRACT_STAKE
  }

  function StoreLedger(ledgers: map<AccountId, AccountLedger>, account: AccountId, ledger: AccountLedger)
    : map<AccountId, AccountLedger>
  {
    if ledger.IsEmpty() then ledgers - {account} else ledgers[account := ledger]
  }

  function StoreFreeze(freezes: map<AccountId, Balance>, account: AccountId, ledger: AccountLedger): map<AccountId, Balance> {
    if ledger.IsEmpty() then freezes - {account} else freezes[account := ledger.totalLocked]
  }

  /** `update_ledger`: stores the ledger and sets the freeze to the total locked amount. */
  function UpdateLedger(s: State, account: AccountId, ledger: AccountLedger): State {
    s.(ledgers := StoreLedger(s.ledgers, account, ledger), freezes := StoreFreeze(s.freezes, account, ledger))
  }

  function LogUnlock(s: State, event: UnlockEvent): State {
    s.(trace := s.trace.(unlocks := s.trace.unlocks + [event]))
  }

  // ---------- contracts ----------

  function Register(cfg: Config, s: State, contract: SmartContract): Outcome {
    if s.protocol.maintenance then Failed(Disabled)
    else if contract in s.integrated then Failed(ContractAlreadyExists)
    else if |s.integrated| >= cfg.maxNumberOfContracts then Failed(ExceededMaxNumberOfContracts)
    else if s.nextDAppId >= 0xFFFF then Failed(NewDAppIdUnavailable)
    else Done(s.(integrated := s.integrated[contract := s.nextDAppId], nextDAppId := s.nextDAppId + 1))
  }

  function Unregister(s: State, contract: SmartContract): Outcome {
    if s.protocol.maintenance then Failed(Disabled)
    else if contract !in s.integrated then Failed(ContractNotFound)
    else
      Done(s.(contracts := s.contracts - {s.integrated[contract]},
              integrated := s.integrated - {contract},
              trace := s.trace.(unregistered := s.trace.unregistered[contract := s.protocol.periodInfo.number])))
  }

  // ---------- locking ----------

  /** `totalBalance` and `allowed` come from the currency and the account check. */
  function Lock(cfg: Config, s: State, account: AccountId, amount: Balance, totalBalance: Balance, allowed: bool): Outcome {
    if s.protocol.maintenance then Failed(Disabled)
    else
      var ledger := LedgerOf(s.ledgers, account);
      if ledger.IsEmpty() && !allowed then Failed(AccountNotAvailableForDappStaking)
      else
        var toLock := Min(SatSub(totalBalance, ledger.totalLocked), amount);
        if toLock == 0 then Failed(ZeroAmount)
        else
          var after := ledger.(locked := ledger.locked + toLock);
          if after.locked < cfg.minimumLockedAmount then Failed(LockedAmountBelowThreshold)
          else Done(UpdateLedger(s, account, after).(eraInfo := s.eraInfo.AddLocked(toLock)))
  }

  function AmountToUnlock(cfg: Config, ledger: AccountLedger, amount: Balance, period: PeriodNumber): Option<Balance> {
    var toUnlock := Min(ledger.UnlockableAmount(period), amount);
    if SatSub(ledger.locked, toUnlock) < cfg.minimumLockedAmount then
      if ledger.StakedAmount(period) != 0 then None else Some(ledger.locked)
    else Some(toUnlock)
  }

  function Unlock(cfg: Config, s: State, account: AccountId, amount: Balance): Outcome {
    if s.protocol.maintenance then Failed(Disabled)
    else
      var ledger := LedgerOf(s.ledgers, account);
      match AmountToUnlock(cfg, ledger, amount, s.protocol.periodInfo.number)
      case None => Failed(RemainingStakePreventsFullUnlock)
      case Some(toUnlock) =>
        if toUnlock == 0 then Failed(ZeroAmount)
        else
          var reduced := ledger.(locked := SatSub(ledger.locked, toUnlock));
          match reduced.AddUnlockingChunk(toUnlock, s.now + cfg.UnlockingBlocks(), cfg.maxUnlockingChunks)
          case Err(_) => Failed(TooManyUnlockingChunks)
          case Ok(after) =>
            Done(LogUnlock(UpdateLedger(s, account, after).(eraInfo := s.eraInfo.UnlockingStarted(toUnlock)),
                           Unlocking(account, toUnlock, s.now)))
  }

  function KeysOf(account: AccountId, contracts: set<SmartContract>): set<StakerKey> {
    set c | c in contracts :: StakerKey(account, c)
  }

  /** `cleared` are the staker entries that clearing the prefix of an exiting account
      removes; the storage layer chooses them. */
  function ClaimUnlocked(s: State, account: AccountId, cleared: set<SmartContract>): Outcome {
    if s.protocol.maintenance then Failed(Disabled)
    else
      var (after, amount) := LedgerOf(s.ledgers, account).ClaimUnlocked(s.now);
      if amount == 0 then Failed(NoUnlockedChunksToClaim)
      else
        var stakers := if after.IsEmpty() then s.stakers - KeysOf(account, cleared) else s.stakers;
        Done(LogUnlock(UpdateLedger(s, account, after).(stakers := stakers, eraInfo := s.eraInfo.UnlockingRemoved(amount)),
                       ClaimedUnlocked(account, amount, s.now)))
  }

  function RelockUnlocking(cfg: Config, s: State, account: AccountId): Outcome {
    if s.protocol.maintenance then Failed(Disabled)
    else
      var ledger := LedgerOf(s.ledgers, account);
      if |ledger.unlocking| == 0 then Failed(NoUnlockingChunks)
      else
        var (consumed, amount) := ledger.ConsumeUnlockingChunks();
        var after := consumed.(locked := consumed.locked + amount);
        if after.locked < cfg.minimumLockedAmount then Failed(LockedAmountBelowThreshold)
        else Done(UpdateLedger(s, account, after).(eraInfo := s.eraInfo.AddLocked(amount).UnlockingRemoved(amount)))
  }

  // ---------- staking ----------

  /** The entry a stake is added to and whether it is new; `None` when a claimable bonus of
      an earlier period is in the way. */
  function EntryForStake(cfg: Config, s: State, key: StakerKey): Option<(StakingInfo, bool)> {
    var period := s.protocol.periodInfo;
    if key in s.stakers && s.stakers[key].staked.period == period.number then Some((s.stakers[key], false))
    else if key in s.stakers && s.stakers[key].staked.period >= cfg.OldestClaimablePeriod(period.number)
            && s.stakers[key].loyalStaker then None
    else Some((StakingInfo.New(period.number, period.subperiod), true))
  }

  function Stake(cfg: Config, s: State, account: AccountId, contract: SmartContract, amount: Balance): Outcome {
    var period := s.protocol.periodInfo;
    var era := s.protocol.era;
    if s.protocol.maintenance then Failed(Disabled)
    else if amount == 0 then Failed(ZeroAmount)
    else if contract !in s.integrated then Failed(ContractNotFound)
    else if period.IsNextPeriod(era + 1) then Failed(PeriodEndsInNextEra)
    else
      var ledger := LedgerOf(s.ledgers, account).MaybeCleanupExpired(cfg.OldestClaimablePeriod(period.number));
      match ledger.AddStakeAmount(amount, era, period)
      case Err(error) =>
        Failed(match error
               case InvalidPeriod => UnclaimedRewards
               case InvalidEra => UnclaimedRewards
               case UnavailableStakeFunds => UnavailableFunds
               case _ => InternalStakeError)
      case Ok(staked) =>
        match EntryForStake(cfg, s, StakerKey(account, contract))
        case None => Failed(UnclaimedRewards)
        case Some((entry, isNew)) =>
          var info := entry.Stake(amount, era, period.subperiod);
          var counted := if isNew then staked.(contractStakeCount := staked.contractStakeCount + 1) else staked;
          if info.staked.total < cfg.minimumStakeAmount then Failed(InsufficientStakeAmount)
          else if isNew && counted.contractStakeCount > cfg.maxNumberOfStakedContracts then Failed(TooManyStakedContracts)
          else
            var id := s.integrated[contract];
            Done(UpdateLedger(s, account, counted).(
                   stakers := s.stakers[StakerKey(account, contract) := info],
                   contracts := s.contracts[id := ContractOf(s.contracts, id).Stake(amount, period, era)],
                   eraInfo := s.eraInfo.AddStakeAmount(amount, period.subperiod)))
  }

  /** Everything is unstaked when less than the minimum would remain. */
  function AmountToUnstake(cfg: Config, info: StakingInfo, amount: Balance): Balance {
    if SatSub(info.staked.total, amount) < cfg.minimumStakeAmount then info.staked.total else amount
  }

  function Unstake(cfg: Config, s: State, account: AccountId, contract: SmartContract, amount: Balance): Outcome {
    var period := s.protocol.periodInfo;
    var era := s.protocol.era;
    var key := StakerKey(account, contract);
    if s.protocol.maintenance then Failed(Disabled)
    else if amount == 0 then Failed(ZeroAmount)
    else if contract !in s.integrated then Failed(ContractNotFound)
    else if key !in s.stakers then Failed(NoStakingInfo)
    else if s.stakers[key].staked.period != period.number then Failed(UnstakeFromPastPeriod)
    else if s.stakers[key].staked.total < amount then Failed(UnstakeAmountTooLarge)
    else
      var toUnstake := AmountToUnstake(cfg, s.stakers[key], amount);
      var (info, pairs) := s.stakers[key].Unstake(toUnstake, era, period.subperiod);
      match LedgerOf(s.ledgers, account).UnstakeAmount(toUnstake, era, period)
      case Err(error) =>
        Failed(match error
               case InvalidPeriod => UnclaimedRewards
               case InvalidEra => UnclaimedRewards
               case UnstakeAmountLargerThanStake => UnstakeAmountTooLarge
               case _ => InternalUnstakeError)
      case Ok(ledger) =>
        var id := s.integrated[contract];
        var counted := if info.staked.IsEmpty()
                       then ledger.(contractStakeCount := SatSub(ledger.contractStakeCount, 1)) else ledger;
        Done(UpdateLedger(s, account, counted).(
               stakers := if info.staked.IsEmpty() then s.stakers - {key} else s.stakers[key := info],
               contracts := s.contracts[id := ContractOf(s.contracts, id).Unstake(pairs, period, era)],
               eraInfo := s.eraInfo.UnstakeAmount(toUnstake)))
  }

  function UnstakeFromUnregistered(s: State, account: AccountId, contract: SmartContract): Outcome {
    var period := s.protocol.periodInfo;
    var key := StakerKey(account, contract);
    if s.protocol.maintenance then Failed(Disabled)
    else if contract in s.integrated then Failed(ContractStillActive)
    else if key !in s.stakers then Failed(NoStakingInfo)
    else if s.stakers[key].staked.period != period.number then Failed(UnstakeFromPastPeriod)
    else
      var amount := s.stakers[key].staked.total;
      match LedgerOf(s.ledgers, account).UnstakeAmount(amount, s.protocol.era, period)
      case Err(error) =>
        Failed(match error
               case InvalidPeriod => UnclaimedRewards
               case InvalidEra => UnclaimedRewards
               case _ => InternalUnstakeError)
      case Ok(ledger) =>
        Done(UpdateLedger(s, account, ledger).(
               stakers := s.stakers - {key},
               eraInfo := s.eraInfo.UnstakeAmount(amount)))
  }

  predicate IsExpired(cfg: Config, period: PeriodNumber, info: StakingInfo) {
    || (info.staked.period < period && !info.loyalStaker)
    || info.staked.period < cfg.OldestClaimablePeriod(period)
  }

  function ExpiredKeys(cfg: Config, s: State, account: AccountId): set<StakerKey> {
    set k | k in s.stakers && k.account == account && IsExpired(cfg, s.protocol.periodInfo.number, s.stakers[k])
  }

  function CleanupExpiredEntries(cfg: Config, s: State, account: AccountId): Outcome {
    if s.protocol.maintenance then Failed(Disabled)
    else
      var expired := ExpiredKeys(cfg, s, account);
      if |expired| == 0 then Failed(NoExpiredEntries)
      else
        var ledger := LedgerOf(s.ledgers, account);
        var after := ledger.(contractStakeCount := SatSub(ledger.contractStakeCount, |expired|))
                           .MaybeCleanupExpired(cfg.OldestClaimablePeriod(s.protocol.periodInfo.number));
        Done(UpdateLedger(s, account, after).(stakers := s.stakers - expired))
  }

  // ---------- rewards ----------

  /** The reward for one claimed era, if there is any. */
  function RewardFor(reward: EraReward, era: EraNumber, amount: Balance): seq<(EraNumber, Balance)> {
    if amount == 0 || reward.staked == 0 then []
    else [(era, ProRata(PERBILL, amount, reward.staked, reward.stakerRewardPool))]
  }

  /** The rewards of the claimed eras; `None` when an era is missing in the span. */
  function StakerRewards(span: EraRewardSpan, pairs: seq<(EraNumber, Balance)>): Option<seq<(EraNumber, Balance)>> {
    if |pairs| == 0 then Some([])
    else
      match span.Get(pairs[0].0)
      case None => None
      case Some(reward) =>
        match StakerRewards(span, pairs[1..])
        case None => None
        case Some(rest) => Some(RewardFor(reward, pairs[0].0, pairs[0].1) + rest)
  }

  function RewardEvents(account: AccountId, rewards: seq<(EraNumber, Balance)>): (events: seq<StakerReward>)
    ensures |events| == |rewards|
    ensures forall i :: 0 <= i < |rewards| ==> events[i] == StakerReward(account, rewards[i].0, rewards[i].1)
  {
    seq(|rewards|, i requires 0 <= i < |rewards| => StakerReward(account, rewards[i].0, rewards[i].1))
  }

  /** The last era of the staked period that can be claimed, and the end of that period if
      it is over. */
  function ClaimLimit(s: State, stakedPeriod: PeriodNumber): Option<(EraNumber, Option<EraNumber>)> {
    if stakedPeriod == s.protocol.periodInfo.number then Some((SatSub(s.protocol.era, 1), None))
    else if stakedPeriod in s.periodEnds then
      Some((s.periodEnds[stakedPeriod].finalEra, Some(s.periodEnds[stakedPeriod].finalEra)))
    else None
  }

  /** `payoutOk` tells whether the reward handler accepts the payout. */
  function ClaimStakerRewards(cfg: Config, s: State, account: AccountId, payoutOk: bool): Outcome {
    var ledger := LedgerOf(s.ledgers, account);
    if s.protocol.maintenance then Failed(Disabled)
    else if ledger.StakedPeriod().None? then Failed(NoClaimableRewards)
    else if ledger.StakedPeriod().value < cfg.OldestClaimablePeriod(s.protocol.periodInfo.number) then Failed(RewardExpired)
    else if ledger.EarliestStakedEra().None? then Failed(InternalClaimStakerError)
    else
      var index := SpanIndex(cfg.eraRewardSpanLength, ledger.EarliestStakedEra().value);
      if index !in s.spans then Failed(NoClaimableRewards)
      else
        match ClaimLimit(s, ledger.StakedPeriod().value)
        case None => Failed(InternalClaimStakerError)
        case Some((lastEra, periodEnd)) =>
          match ledger.ClaimUpToEra(Min(s.spans[index].lastEra, lastEra), periodEnd)
          case Err(error) => Failed(if error == NothingToClaim then NoClaimableRewards else InternalClaimStakerError)
          case Ok((after, pairs)) =>
            match StakerRewards(s.spans[index], pairs.Pairs())
            case None => Failed(InternalClaimStakerError)
            case Some(rewards) =>
              if !payoutOk then Failed(RewardPayoutFailed)
              else
                Done(UpdateLedger(s, account, after).(
                       trace := s.trace.(stakerRewards := s.trace.stakerRewards + RewardEvents(account, rewards))))
  }

  function ClaimBonusReward(cfg: Config, s: State, account: AccountId, contract: SmartContract, payoutOk: bool): Outcome {
    var key := StakerKey(account, contract);
    var period := s.protocol.periodInfo.number;
    if s.protocol.maintenance then Failed(Disabled)
    else if key !in s.stakers then Failed(NoClaimableRewards)
    else
      var info := s.stakers[key];
      if info.staked.period >= period then Failed(NoClaimableRewards)
      else if !info.loyalStaker then Failed(NotEligibleForBonusReward)
      else if info.staked.period < cfg.OldestClaimablePeriod(period) then Failed(RewardExpired)
      else if info.staked.period !in s.periodEnds then Failed(InternalClaimBonusError)
      else
        var end := s.periodEnds[info.staked.period];
        if end.totalVpStake == 0 then Failed(InternalClaimBonusError)
        else if !payoutOk then Failed(RewardPayoutFailed)
        else
          var ledger := LedgerOf(s.ledgers, account);
          var bonus := ProRata(PERBILL, info.staked.voting, end.totalVpStake, end.bonusRewardPool);
          Done(s.(stakers := s.stakers - {key},
                  ledgers := s.ledgers[account := ledger.(contractStakeCount := SatSub(ledger.contractStakeCount, 1))],
                  trace := s.trace.(bonuses := s.trace.bonuses + [BonusReward(account, contract, info.staked.period, bonus)])))
  }

  function ClaimDAppReward(cfg: Config, s: State, contract: SmartContract, era: EraNumber, payoutOk: bool): Outcome {
    if s.protocol.maintenance then Failed(Disabled)
    else if contract !in s.integrated then Failed(ContractNotFound)
    else if era >= s.protocol.era then Failed(InvalidClaimEra)
    else if era !in s.dappTiers then Failed(NoDAppTierInfo)
    else if s.dappTiers[era].period < cfg.OldestClaimablePeriod(s.protocol.periodInfo.number) then Failed(RewardExpired)
    else
      match s.dappTiers[era].TryClaim(s.integrated[contract])
      case None => Failed(NoClaimableRewards)
      case Some((after, amount, ranked)) =>
        if !payoutOk then Failed(RewardPayoutFailed)
        else
          Done(s.(dappTiers := s.dappTiers[era := after],
                  trace := s.trace.(dappRewards :=
                    s.trace.dappRewards + [DAppReward(s.integrated[contract], era, ranked.tier, amount)])))
  }

  // ---------- hooks ----------

  /** What a new era takes from outside: the reward pools, the price and issuance for the
      tier configuration, and the dApps in the order the sort left them. */
  datatype EraInputs = EraInputs(
    stakerPool: Balance,
    dappPool: Balance,
    bonusPool: Balance,
    price: nat,
    issuance: Balance,
    ranking: Ranking)

  /** `ranking` lists the dApps with stake in `era`, largest stake first. */
  ghost predicate IsRanking(contracts: map<DAppId, ContractStakeAmount>, era: EraNumber, period: PeriodNumber, ranking: Ranking) {
    && Distinct(ranking) && Descending(ranking)
    && (forall i :: 0 <= i < |ranking| ==>
          && ranking[i].0 in contracts
          && contracts[ranking[i].0].Get(era, period).Some?
          && contracts[ranking[i].0].Get(era, period).value.total == ranking[i].1 > 0)
    && (forall id :: id in contracts && contracts[id].Get(era, period).Some?
                     && contracts[id].Get(era, period).value.total > 0 ==>
          exists i :: 0 <= i < |ranking| && ranking[i].0 == id)
  }

  function NextTierConfig(cfg: Config, current: TierConfig, price: nat, issuance: Balance): TierConfig {
    var updated := CalculateNew(cfg.tierParams, cfg.slotFactor, cfg.basePrice, price, issuance);
    if updated.IsValid(|cfg.tierParams.rewardPortion|) then updated else current
  }

  /** `update_cleanup_marker`: drops the `PeriodEnd` entry of the newly expired period. */
  function ExpirePeriod(cfg: Config, ends: map<PeriodNumber, PeriodEndInfo>, marker: CleanupMarker, newPeriod: PeriodNumber)
    : (map<PeriodNumber, PeriodEndInfo>, CleanupMarker)
  {
    var expired := SatSub(newPeriod, cfg.rewardRetentionInPeriods + 1);
    if expired == 0 || expired !in ends then (ends, marker)
    else (ends - {expired}, marker.(oldestValidEra := ends[expired].finalEra + 1))
  }

  function VotesOf(stakers: map<StakerKey, StakingInfo>, period: PeriodNumber): map<StakerKey, Balance> {
    map k | k in stakers && stakers[k].staked.period == period :: stakers[k].staked.voting
  }

  function EndVoting(cfg: Config, s: State): State {
    var era := s.protocol.era;
    var period := s.protocol.periodInfo.number;
    s.(protocol := s.protocol.AdvanceToNextSubperiod(era + 1 + cfg.erasPerBuildAndEarn, s.now + cfg.blocksPerEra)
                             .(era := era + 1),
       eraInfo := s.eraInfo.MigrateToNextEra(Some(BuildAndEarn)),
       trace := s.trace.(votes := s.trace.votes[period := VotesOf(s.stakers, period)]))
  }

  function EndEra(cfg: Config, s: State): State {
    s.(protocol := s.protocol.(era := s.protocol.era + 1, nextEraStart := s.now + cfg.blocksPerEra),
       eraInfo := s.eraInfo.MigrateToNextEra(None))
  }

  function EndPeriod(cfg: Config, s: State, bonusPool: Balance): State {
    var era := s.protocol.era;
    var period := s.protocol.periodInfo.number;
    var end := PeriodEndInfo(bonusPool, s.eraInfo.currentStakeAmount.voting, era);
    var (ends, marker) := ExpirePeriod(cfg, s.periodEnds[period := end], s.marker, period + 1);
    s.(protocol := s.protocol.AdvanceToNextSubperiod(era + 2, s.now + cfg.BlocksPerVotingPeriod()).(era := era + 1),
       eraInfo := s.eraInfo.MigrateToNextEra(Some(Voting)),
       periodEnds := ends,
       marker := marker,
       trace := s.trace.(ended := s.trace.ended[period := end]))
  }

  function RewardOfEra(s: State, inputs: EraInputs): EraReward {
    var staked := s.eraInfo.currentStakeAmount.total;
    match s.protocol.periodInfo.subperiod
    case Voting => EraReward(0, staked, 0)
    case BuildAndEarn => EraReward(inputs.stakerPool, staked, inputs.dappPool)
  }

  /** The tier assignments once those of a finished Build&Earn era are stored. */
  function AssignTiers(cfg: Config, s: State, inputs: EraInputs): map<EraNumber, DAppTierRewards> {
    match s.protocol.periodInfo.subperiod
    case Voting => s.dappTiers
    case BuildAndEarn =>
      s.dappTiers[s.protocol.era :=
        TierRewards(s.tierConfig, cfg.rankingEnabled, inputs.ranking, s.protocol.periodInfo.number, inputs.dappPool)]
  }

  /** Ends the era with the given reward, tier assignments and next tier configuration. */
  function CloseEra(cfg: Config, s: State, bonusPool: Balance, reward: EraReward,
                    tiers: map<EraNumber, DAppTierRewards>, config: TierConfig): State
  {
    var era := s.protocol.era;
    var moved :=
      if s.protocol.periodInfo.subperiod == Voting then EndVoting(cfg, s)
      else if s.protocol.periodInfo.IsNextPeriod(era + 1) then EndPeriod(cfg, s, bonusPool)
      else EndEra(cfg, s);
    moved.(spans := Record(cfg.eraRewardSpanLength, s.spans, era, reward),
           dappTiers := tiers,
           tierConfig := config,
           trace := moved.trace.(rewards := s.trace.rewards[era := reward]))
  }

  function NewEra(cfg: Config, s: State, inputs: EraInputs): State {
    CloseEra(cfg, s, inputs.bonusPool, RewardOfEra(s, inputs), AssignTiers(cfg, s, inputs),
             NextTierConfig(cfg, s.tierConfig, inputs.price, inputs.issuance))
  }

  /** `on_initialize` of the next block. */
  function OnInitialize(cfg: Config, s: State, inputs: EraInputs): State {
    var started := s.(now := s.now + 1);
    if s.protocol.maintenance || !s.protocol.IsNewEra(started.now) then started
    else NewEra(cfg, started, inputs)
  }

  /** One pass of the pruning over the tier assignments. */
  function PruneTiers(tiers: map<EraNumber, DAppTierRewards>, index: EraNumber, oldest: EraNumber)
    : (map<EraNumber, DAppTierRewards>, EraNumber)
  {
    if index < oldest then (tiers - {index}, index + 1) else (tiers, index)
  }

  /** `on_idle`: one pass of the pruning, when there is enough weight left for it. */
  function OnIdle(cfg: Config, s: State, enoughWeight: bool): State {
    if !enoughWeight || !s.marker.HasPendingCleanups() then s
    else
      var oldest := s.marker.oldestValidEra;
      var (spans, rewardIndex) := PruneSpans(cfg.eraRewardSpanLength, s.spans, s.marker.eraRewardIndex, oldest);
      var (tiers, tierIndex) := PruneTiers(s.dappTiers, s.marker.dappTiersIndex, oldest);
      s.(spans := spans, dappTiers := tiers, marker := CleanupMarker(rewardIndex, tierIndex, oldest))
  }

  // ---------- runs ----------

  datatype Call =
    | CallMaintenance(enabled: bool)
    | CallRegister(contract: SmartContract)
    | CallUnregister(contract: SmartContract)
    | CallLock(account: AccountId, amount: Balance, totalBalance: Balance, allowed: bool)
    | CallUnlock(account: AccountId, amount: Balance)
    | CallClaimUnlocked(account: AccountId, cleared: set<SmartContract>)
    | CallRelock(account: AccountId)
    | CallStake(account: AccountId, contract: SmartContract, amount: Balance)
    | CallUnstake(account: AccountId, contract: SmartContract, amount: Balance)
    | CallUnstakeFromUnregistered(account: AccountId, contract: SmartContract)
    | CallCleanupExpired(account: AccountId)
    | CallClaimStaker(account: AccountId, payoutOk: bool)
    | CallClaimBonus(account: AccountId, contract: SmartContract, payoutOk: bool)
    | CallClaimDApp(contract: SmartContract, era: EraNumber, payoutOk: bool)
    | CallOnInitialize(inputs: EraInputs)
    | CallOnIdle(enoughWeight: bool)

  function Dispatch(cfg: Config, s: State, call: Call): Outcome {
    match call
    case CallMaintenance(enabled) => Done(s.(protocol := s.protocol.(maintenance := enabled)))
    case CallRegister(c) => Register(cfg, s, c)
    case CallUnregister(c) => Unregister(s, c)
    case CallLock(a, amount, balance, allowed) => Lock(cfg, s, a, amount, balance, allowed)
    case CallUnlock(a, amount) => Unlock(cfg, s, a, amount)
    case CallClaimUnlocked(a, cleared) => ClaimUnlocked(s, a, cleared)
    case CallRelock(a) => RelockUnlocking(cfg, s, a)
    case CallStake(a, c, amount) => Stake(cfg, s, a, c, amount)
    case CallUnstake(a, c, amount) => Unstake(cfg, s, a, c, amount)
    case CallUnstakeFromUnregistered(a, c) => UnstakeFromUnregistered(s, a, c)
    case CallCleanupExpired(a) => CleanupExpiredEntries(cfg, s, a)
    case CallClaimStaker(a, payoutOk) => ClaimStakerRewards(cfg, s, a, payoutOk)
    case CallClaimBonus(a, c, payoutOk) => ClaimBonusReward(cfg, s, a, c, payoutOk)
    case CallClaimDApp(c, era, payoutOk) => ClaimDAppReward(cfg, s, c, era, payoutOk)
    case CallOnInitialize(inputs) => Done(OnInitialize(cfg, s, inputs))
    case CallOnIdle(enough) => Done(OnIdle(cfg, s, enough))
  }

  /** The next block ends a Build&Earn era. */
  predicate EndsBuildAndEarnEra(s: State) {
    !s.protocol.maintenance && s.protocol.IsNewEra(s.now + 1) && s.protocol.periodInfo.subperiod == BuildAndEarn
  }

  /** A block that ends a Build&Earn era must come with a ranking of the current stakes;
      anything else may be called at any time. */
  ghost predicate Enabled(s: State, call: Call) {
    call.CallOnInitialize? && EndsBuildAndEarnEra(s) ==>
      IsRanking(s.contracts, s.protocol.era, s.protocol.periodInfo.number, call.inputs.ranking)
  }

  function Next(cfg: Config, s: State, call: Call): State {
    match Dispatch(cfg, s, call)
    case Done(after) => after
    case Failed(_) => s
  }

  function Execute(cfg: Config, s: State, calls: seq<Call>): State
    decreases |calls|
  {
    if |calls| == 0 then s else Next(cfg, Execute(cfg, s, calls[..|calls| - 1]), calls[|calls| - 1])
  }

  ghost predicate ValidRun(cfg: Config, s: State, calls: seq<Call>)
    decreases |calls|
  {
    |calls| == 0 ||
    (ValidRun(cfg, s, calls[..|calls| - 1]) && Enabled(Execute(cfg, s, calls[..|calls| - 1]), calls[|calls| - 1]))
  }
}

/** What every reachable state of the dApp staking protocol satisfies, one predicate per
    concern, each over exactly the storage items it is about. */
module Invariant {
  import opened Arithmetic
  import opened StakeTypes
  import opened MapSums
  import opened Pools
  import opened Calendar
  import opened Ledger
  import opened ContractStake
  import opened RewardHistory
  import opened TierAssignment
  import opened Protocol

  type Ledgers = map<AccountId, AccountLedger>
  type Stakers = map<StakerKey, StakingInfo>

  // ---------- weights of the sums ----------

  ghost function LockedAmount(): (AccountId, AccountLedger) -> nat {
    (a: AccountId, l: AccountLedger) => l.locked
  }

  ghost function UnlockingAmount(): (AccountId, AccountLedger) -> nat {
    (a: AccountId, l: AccountLedger) => ChunkTotal(l.unlocking)
  }

  ghost function LedgerStake(period: PeriodNumber): (AccountId, AccountLedger) -> nat {
    (a: AccountId, l: AccountLedger) => l.StakedAmount(period)
  }

  function EntryBy(account: AccountId, period: PeriodNumber, k: StakerKey, i: StakingInfo): Balance {
    if k.account == account && i.staked.period == period then i.staked.total else 0
  }

  function EntryOn(contract: SmartContract, period: PeriodNumber, k: StakerKey, i: StakingInfo): Balance {
    if k.contract == contract && i.staked.period == period then i.staked.total else 0
  }

  function EntryNowOn(contract: SmartContract, period: PeriodNumber, era: EraNumber, k: StakerKey, i: StakingInfo): Balance {
    if k.contract == contract && i.staked.period == period then CurrentPart(i, era) else 0
  }

  /** Stake of `account` in `period`, over all contracts. */
  ghost function StakeBy(account: AccountId, period: PeriodNumber): (StakerKey, StakingInfo) -> nat {
    (k: StakerKey, i: StakingInfo) => EntryBy(account, period, k, i)
  }

  /** Stake in `period`, over all accounts and contracts. */
  ghost function StakeIn(period: PeriodNumber): (StakerKey, StakingInfo) -> nat {
    (k: StakerKey, i: StakingInfo) => if i.staked.period == period then i.staked.total else 0
  }

  /** Stake on `contract` in `period`, over all accounts. */
  ghost function StakeOn(contract: SmartContract, period: PeriodNumber): (StakerKey, StakingInfo) -> nat {
    (k: StakerKey, i: StakingInfo) => EntryOn(contract, period, k, i)
  }

  /** The part of it that the entries account for in the current era. */
  ghost function StakeNowOn(contract: SmartContract, period: PeriodNumber, era: EraNumber): (StakerKey, StakingInfo) -> nat {
    (k: StakerKey, i: StakingInfo) => EntryNowOn(contract, period, era, k, i)
  }

  /** Voting stake of `period`. */
  ghost function VotingStake(period: PeriodNumber): (StakerKey, StakingInfo) -> nat {
    (k: StakerKey, i: StakingInfo) => if i.staked.period == period then i.staked.voting else 0
  }

  // ---------- ledgers ----------

  ghost predicate LedgerOk(cfg: Config, era: EraNumber, period: PeriodNumber, l: AccountLedger) {
    && EntriesOk(era, l) && PeriodsOk(cfg.erasPerBuildAndEarn, period, l)
    && l.StakedAmount(period) <= l.locked
    && (l.locked == 0 || l.locked >= cfg.minimumLockedAmount)
    && ChunksAfter(l.unlocking, -1) && |l.unlocking| <= cfg.maxUnlockingChunks
    && l.contractStakeCount <= cfg.maxNumberOfStakedContracts
  }

  ghost predicate LedgersOk(cfg: Config, era: EraNumber, period: PeriodNumber, ledgers: Ledgers) {
    forall a :: a in ledgers ==> LedgerOk(cfg, era, period, ledgers[a])
  }

  /** The protocol totals are the sums over all ledgers, and every account has exactly its
      total locked amount frozen. */
  ghost predicate FundsOk(ledgers: Ledgers, freezes: map<AccountId, Balance>, totalLocked: Balance, unlocking: Balance) {
    && Sum(ledgers, LockedAmount()) == totalLocked
    && Sum(ledgers, UnlockingAmount()) == unlocking
    && forall a: AccountId :: FreezeOf(freezes, a) == LedgerOf(ledgers, a).totalLocked
  }

  // ---------- stakes ----------

  ghost predicate StakersOk(era: EraNumber, period: PeriodNumber, stakers: Stakers) {
    forall k :: k in stakers ==> InfoOk(era, period, stakers[k])
  }

  /** Every account has staked in its ledger what its entries add up to, and all ledgers
      as well as all entries add up to the protocol total of the next era. */
  ghost predicate StakesAgree(period: PeriodNumber, ledgers: Ledgers, stakers: Stakers, total: Balance) {
    && (forall a: AccountId :: LedgerOf(ledgers, a).StakedAmount(period) == Sum(stakers, StakeBy(a, period)))
    && Sum(ledgers, LedgerStake(period)) == total
    && Sum(stakers, StakeIn(period)) == total
  }

  // ---------- contracts ----------

  /** `contract` was not unregistered during `period`. */
  predicate Undisturbed(unregistered: map<SmartContract, PeriodNumber>, period: PeriodNumber, contract: SmartContract) {
    contract in unregistered ==> unregistered[contract] < period
  }

  ghost predicate IdsOk(integrated: map<SmartContract, DAppId>, next: DAppId, contracts: map<DAppId, ContractStakeAmount>) {
    && (forall c :: c in integrated ==> integrated[c] < next)
    && (forall c, d :: c in integrated && d in integrated && c != d ==> integrated[c] != integrated[d])
    && (forall id :: id in contracts ==> exists c :: c in integrated && integrated[c] == id)
  }

  ghost predicate ContractEntriesOk(era: EraNumber, period: PeriodNumber, contracts: map<DAppId, ContractStakeAmount>) {
    forall id :: id in contracts ==> ContractOk(era, period, contracts[id])
  }

  /** The total of a contract is the sum of the entries on it. Its current entry never
      exceeds what the entries account for now, and without a separate next entry no
      staker has one either. */
  ghost predicate ContractMatches(era: EraNumber, period: PeriodNumber, stakers: Stakers, contract: SmartContract, c: ContractStakeAmount) {
    && c.TotalStaked(period) == Sum(stakers, StakeOn(contract, period))
    && (if Ahead(era, c) then CurrentShare(period, c) <= Sum(stakers, StakeNowOn(contract, period, era))
        else forall k :: k in stakers && k.contract == contract && stakers[k].staked.period == period ==> stakers[k].staked.era <= era)
  }

  /** The total of a contract never exceeds the entries on it, and what it counts for the
      current era never exceeds what the entries account for now. */
  ghost predicate ContractWithin(era: EraNumber, period: PeriodNumber, stakers: Stakers, contract: SmartContract, c: ContractStakeAmount) {
    && c.TotalStaked(period) <= Sum(stakers, StakeOn(contract, period))
    && (if Ahead(era, c) then CurrentShare(period, c) else c.TotalStaked(period)) <= Sum(stakers, StakeNowOn(contract, period, era))
  }

  ghost predicate ContractSound(era: EraNumber, period: PeriodNumber, stakers: Stakers, contract: SmartContract, c: ContractStakeAmount, undisturbed: bool) {
    && ContractWithin(era, period, stakers, contract, c)
    && (undisturbed ==> ContractMatches(era, period, stakers, contract, c))
  }

  ghost predicate ContractsAgree(era: EraNumber, period: PeriodNumber, integrated: map<SmartContract, DAppId>,
                                 contracts: map<DAppId, ContractStakeAmount>, stakers: Stakers,
                                 unregistered: map<SmartContract, PeriodNumber>)
  {
    && (forall c :: c in integrated ==>
          ContractSound(era, period, stakers, c, ContractOf(contracts, integrated[c]), Undisturbed(unregistered, period, c)))
    && (forall k :: k in stakers && stakers[k].staked.period == period ==>
          k.contract in integrated || !Undisturbed(unregistered, period, k.contract))
  }

  // ---------- voting stake and bonus ----------

  /** The current era is the last one of the period. */
  predicate LastEra(era: EraNumber, period: PeriodInfo) {
    period.IsNextPeriod(era + 1)
  }

  /** The protocol-wide voting stake covers the voting stakes of all entries, and in the
      last era of a period the current and the next amounts are the same. */
  ghost predicate VotesCovered(era: EraNumber, period: PeriodInfo, stakers: Stakers, current: StakeAmount, next: StakeAmount) {
    && Sum(stakers, VotingStake(period.number)) <= next.voting
    && (LastEra(era, period) ==> current.voting == next.voting && current.buildAndEarn == next.buildAndEarn)
  }

  ghost function BonusPaid(period: PeriodNumber): BonusReward -> nat {
    (e: BonusReward) => if e.period == period then e.amount else 0
  }

  ghost function BonusCount(period: PeriodNumber): BonusReward -> nat {
    (e: BonusReward) => if e.period == period then 1 else 0
  }

  /** The bonuses of a finished period stay within its pool. */
  predicate BonusBounded(end: PeriodEndInfo, paid: Balance, count: nat, remaining: Balance) {
    PoolBounded(end.bonusRewardPool, end.totalVpStake, paid, count, remaining)
  }

  ghost predicate BonusesOk(period: PeriodNumber, ended: map<PeriodNumber, PeriodEndInfo>, bonuses: seq<BonusReward>, stakers: Stakers) {
    && (forall q :: q in ended ==>
          BonusBounded(ended[q], LogSum(bonuses, BonusPaid(q)), LogSum(bonuses, BonusCount(q)), Sum(stakers, VotingStake(q))))
    && (forall i :: 0 <= i < |bonuses| ==> bonuses[i].period < period)
  }

  /** An entry still loyal after its Voting subperiod has the voting stake it had then. */
  ghost predicate LoyaltyOk(period: PeriodInfo, stakers: Stakers, votes: map<PeriodNumber, map<StakerKey, Balance>>) {
    forall k :: k in stakers && stakers[k].loyalStaker
                && (stakers[k].staked.period < period.number || period.subperiod == BuildAndEarn) ==>
      && stakers[k].staked.period in votes && k in votes[stakers[k].staked.period]
      && votes[stakers[k].staked.period][k] == stakers[k].staked.voting
  }

  // ---------- history ----------

  function OldestValidEra(cfg: Config, period: PeriodNumber): EraNumber {
    if period <= cfg.rewardRetentionInPeriods + 1 then 0
    else FinalEra(cfg.erasPerBuildAndEarn, period - cfg.rewardRetentionInPeriods - 1) + 1
  }

  ghost predicate MarkerOk(cfg: Config, period: PeriodNumber, marker: CleanupMarker) {
    && marker.oldestValidEra == OldestValidEra(cfg, period)
    && marker.eraRewardIndex <= marker.oldestValidEra && marker.dappTiersIndex <= marker.oldestValidEra
  }

  /** `PeriodEnd` holds exactly the finished periods within the retention window. */
  ghost predicate PeriodEndsOk(cfg: Config, period: PeriodNumber, ends: map<PeriodNumber, PeriodEndInfo>, ended: map<PeriodNumber, PeriodEndInfo>) {
    && (forall q :: q in ended <==> 1 <= q < period)
    && (forall q {:trigger q in ended} :: q in ended ==> ended[q].finalEra == FinalEra(cfg.erasPerBuildAndEarn, q))
    && (forall q :: q in ends <==> q in ended && cfg.OldestClaimablePeriod(period) <= q)
    && (forall q :: q in ends ==> ends[q] == ended[q])
  }

  /** `DAppTiers` holds exactly the finished Build&Earn eras not yet pruned. */
  ghost predicate DAppTiersOk(cfg: Config, era: EraNumber, tiers: map<EraNumber, DAppTierRewards>, index: EraNumber) {
    && (forall x :: x in tiers ==> index <= x < era)
    && (forall x: EraNumber, q: PeriodNumber :: InPeriod(cfg.erasPerBuildAndEarn, x, q) && index <= x < era ==>
          (x in tiers <==> x > FinalEra(cfg.erasPerBuildAndEarn, q - 1) + 1))
    && (forall x: EraNumber, q: PeriodNumber :: InPeriod(cfg.erasPerBuildAndEarn, x, q) && x in tiers ==> tiers[x].period == q)
  }

  // ---------- payouts ----------

  ghost function DAppPaid(era: EraNumber, tier: nat): DAppReward -> nat {
    (e: DAppReward) => if e.era == era && e.tier == tier then e.amount else 0
  }

  ghost function LiabilityOfEra(tiers: map<EraNumber, DAppTierRewards>, era: EraNumber, tier: nat): Balance {
    if era in tiers then Liability(tiers[era], tier) else 0
  }

  /** Paid and still claimable dApp rewards of a tier stay within its share of the pool. */
  ghost predicate TierSharesOk(cfg: Config, rewards: History, tiers: map<EraNumber, DAppTierRewards>, paid: seq<DAppReward>) {
    forall x: EraNumber, t: nat :: x in rewards && OwnNumber(|cfg.tierParams.rewardPortion|, t) ==>
      LogSum(paid, DAppPaid(x, t)) + LiabilityOfEra(tiers, x, t)
      <= MulNearest(PERMILL, cfg.tierParams.rewardPortion[t], rewards[x].dappRewardPool)
  }

  /** No dApp is paid twice for an era, and a paid one can no longer claim it. */
  ghost predicate DAppPaidOnce(era: EraNumber, tiers: map<EraNumber, DAppTierRewards>, paid: seq<DAppReward>) {
    && (forall i :: 0 <= i < |paid| ==>
          paid[i].era < era && (paid[i].era in tiers ==> paid[i].id !in tiers[paid[i].era].dapps))
    && (forall i, j :: 0 <= i < j < |paid| ==> paid[i].era != paid[j].era || paid[i].id != paid[j].id)
  }

  /** No account is paid twice for an era, and all its paid eras lie before the ones its
      ledger can still claim. */
  ghost predicate StakerPaidOnce(era: EraNumber, ledgers: Ledgers, paid: seq<StakerReward>) {
    && (forall i :: 0 <= i < |paid| ==>
          && paid[i].era < era
          && (LedgerOf(ledgers, paid[i].account).EarliestStakedEra().Some? ==>
                paid[i].era < LedgerOf(ledgers, paid[i].account).EarliestStakedEra().value))
    && (forall i, j :: 0 <= i < j < |paid| ==> paid[i].era != paid[j].era || paid[i].account != paid[j].account)
  }

  /** Amount `account` claimed back by block `block`. */
  ghost function ClaimedBy(account: AccountId, block: BlockNumber): UnlockEvent -> nat {
    (e: UnlockEvent) => if e.ClaimedUnlocked? && e.account == account && e.block <= block then e.amount else 0
  }

  /** Amount whose unlocking `account` started at least `delay` blocks before `block`. */
  ghost function StartedBy(account: AccountId, delay: BlockNumber, block: BlockNumber): UnlockEvent -> nat {
    (e: UnlockEvent) => if e.Unlocking? && e.account == account && e.block + delay <= block then e.amount else 0
  }

  /** By any block, what was claimed back and what could be claimed then had been unlocking
      for the full delay. */
  ghost predicate UnlocksOk(cfg: Config, ledgers: Ledgers, unlocks: seq<UnlockEvent>) {
    forall a: AccountId, b: BlockNumber :: LogSum(unlocks, ClaimedBy(a, b)) + MaturedTotal(LedgerOf(ledgers, a).unlocking, b)
                   <= LogSum(unlocks, StartedBy(a, cfg.UnlockingBlocks(), b))
  }

  // ---------- all together ----------

  ghost predicate StakeInv(cfg: Config, s: State) {
    var era, period := s.protocol.era, s.protocol.periodInfo;
    && ClockOk(cfg.erasPerBuildAndEarn, era, period)
    && LedgersOk(cfg, era, period.number, s.ledgers)
    && FundsOk(s.ledgers, s.freezes, s.eraInfo.totalLocked, s.eraInfo.unlocking)
    && StakersOk(era, period.number, s.stakers)
    && StakesAgree(period.number, s.ledgers, s.stakers, s.eraInfo.nextStakeAmount.total)
  }

  ghost predicate ContractInv(s: State) {
    var era, period := s.protocol.era, s.protocol.periodInfo;
    && IdsOk(s.integrated, s.nextDAppId, s.contracts)
    && ContractEntriesOk(era, period.number, s.contracts)
    && ContractsAgree(era, period.number, s.integrated, s.contracts, s.stakers, s.trace.unregistered)
  }

  ghost predicate VoteInv(s: State) {
    var era, period := s.protocol.era, s.protocol.periodInfo;
    && VotesCovered(era, period, s.stakers, s.eraInfo.currentStakeAmount, s.eraInfo.nextStakeAmount)
    && BonusesOk(period.number, s.trace.ended, s.trace.bonuses, s.stakers)
    && LoyaltyOk(period, s.stakers, s.trace.votes)
  }

  ghost predicate HistoryInv(cfg: Config, s: State) {
    var era, period := s.protocol.era, s.protocol.periodInfo;
    && MarkerOk(cfg, period.number, s.marker)
    && SpansOk(cfg.eraRewardSpanLength, era, s.spans, s.marker.eraRewardIndex, s.trace.rewards)
    && PeriodEndsOk(cfg, period.number, s.periodEnds, s.trace.ended)
    && DAppTiersOk(cfg, era, s.dappTiers, s.marker.dappTiersIndex)
  }

  ghost predicate PayoutInv(cfg: Config, s: State) {
    && s.tierConfig.rewardPortion == cfg.tierParams.rewardPortion
    && TierSharesOk(cfg, s.trace.rewards, s.dappTiers, s.trace.dappRewards)
    && DAppPaidOnce(s.protocol.era, s.dappTiers, s.trace.dappRewards)
    && StakerPaidOnce(s.protocol.era, s.ledgers, s.trace.stakerRewards)
    && UnlocksOk(cfg, s.ledgers, s.trace.unlocks)
  }

  datatype Concern = Stakes | Contracts | Votes | Pruning | Payouts

  ghost predicate Holds(concern: Concern, cfg: Config, s: State) {
    match concern
    case Stakes => StakeInv(cfg, s)
    case Contracts => ContractInv(s)
    case Votes => VoteInv(s)
    case Pruning => HistoryInv(cfg, s)
    case Payouts => PayoutInv(cfg, s)
  }

  ghost predicate Inv(cfg: Config, s: State) {
    forall concern: Concern :: Holds(concern, cfg, s)
  }

  lemma InvParts(cfg: Config, s: State)
    requires Inv(cfg, s)
    ensures StakeInv(cfg, s) && ContractInv(s) && VoteInv(s) && HistoryInv(cfg, s) && PayoutInv(cfg, s)
  {
    assert Holds(Stakes, cfg, s) && Holds(Contracts, cfg, s) && Holds(Votes, cfg, s)
        && Holds(Pruning, cfg, s) && Holds(Payouts, cfg, s);
  }

  /** The parts that speak about single ledgers and their sums. */
  lemma InvLedgers(cfg: Config, s: State)
    requires Inv(cfg, s)
    ensures LedgersOk(cfg, s.protocol.era, s.protocol.periodInfo.number, s.ledgers)
    ensures FundsOk(s.ledgers, s.freezes, s.eraInfo.totalLocked, s.eraInfo.unlocking)
    ensures UnlocksOk(cfg, s.ledgers, s.trace.unlocks)
  {
    assert Holds(Stakes, cfg, s) && Holds(Payouts, cfg, s);
  }

  /** The parts that relate ledgers and staker entries. */
  lemma InvStakes(cfg: Config, s: State)
    requires Inv(cfg, s)
    ensures ClockOk(cfg.erasPerBuildAndEarn, s.protocol.era, s.protocol.periodInfo)
    ensures LedgersOk(cfg, s.protocol.era, s.protocol.periodInfo.number, s.ledgers)
    ensures StakersOk(s.protocol.era, s.protocol.periodInfo.number, s.stakers)
    ensures StakesAgree(s.protocol.periodInfo.number, s.ledgers, s.stakers, s.eraInfo.nextStakeAmount.total)
  {
    assert Holds(Stakes, cfg, s);
  }

  lemma InvClock(cfg: Config, s: State)
    requires Inv(cfg, s)
    ensures ClockOk(cfg.erasPerBuildAndEarn, s.protocol.era, s.protocol.periodInfo)
  {
    assert Holds(Stakes, cfg, s);
  }

  lemma InvEnds(cfg: Config, s: State)
    requires Inv(cfg, s)
    ensures MarkerOk(cfg, s.protocol.periodInfo.number, s.marker)
    ensures PeriodEndsOk(cfg, s.protocol.periodInfo.number, s.periodEnds, s.trace.ended)
  {
    assert Holds(Pruning, cfg, s);
  }

  lemma InvSpans(cfg: Config, s: State)
    requires Inv(cfg, s)
    ensures SpansOk(cfg.eraRewardSpanLength, s.protocol.era, s.spans, s.marker.eraRewardIndex, s.trace.rewards)
  {
    assert Holds(Pruning, cfg, s);
  }

  lemma InvContracts(cfg: Config, s: State)
    requires Inv(cfg, s)
    ensures ContractInv(s)
  {
    assert Holds(Contracts, cfg, s);
  }

  lemma InvTiers(cfg: Config, s: State)
    requires Inv(cfg, s)
    ensures DAppTiersOk(cfg, s.protocol.era, s.dappTiers, s.marker.dappTiersIndex)
  {
    assert Holds(Pruning, cfg, s);
  }

  lemma InvFromParts(cfg: Config, s: State)
    requires StakeInv(cfg, s) && ContractInv(s) && VoteInv(s) && HistoryInv(cfg, s) && PayoutInv(cfg, s)
    ensures Inv(cfg, s)
  {
  }
}

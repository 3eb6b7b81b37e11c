/**
 * A family of concrete runs, and what they show about properties that do not hold of every run.
 *
 * Accounts 1, 2 and 3 lock `n` each. Accounts 2 and 3 stake theirs on contract 0 in the Voting
 * subperiod. In the first Build&Earn era account 1 stakes `n` and takes it back at once, and
 * then the era ends.
 */
module Scenarios {
  import opened Arithmetic
  import opened StakeTypes
  import opened MapSums
  import opened Ledger
  import opened ContractStake
  import opened RewardHistory
  import opened Tiers
  import opened TierAssignment
  import opened Protocol
  import opened Invariant
  import opened RewardSteps
  import opened Runs
  import opened EraPayouts

  /** Blocks are eras, Voting lasts one era and Build&Earn three, and there is one tier. */
  const SAMPLE: Config :=
    assert PartsFit([PERMILL], 0) by { assert [PERMILL][1..] == [] && PartsFit([], PERMILL); }
    Config(4, 1, 1, 1, 1, 1, 1, 1, false, 1, 3, 1, 0, 0, TierParameters([PERMILL], [PERMILL], [FixedPercentage(0)]))

  const FIRST_TIERS: TierConfig := TiersConfiguration([1], [PERMILL], [0])

  const LATER_TIERS: TierConfig := TiersConfiguration([50], [PERMILL], [0])

  lemma CallReaches(s: State, call: Call, t: State)
    requires Reachable(SAMPLE, s) && Enabled(s, call) && Dispatch(SAMPLE, s, call) == Done(t)
    ensures Reachable(SAMPLE, t)
  {
    NextIsReachable(SAMPLE, s, call);
  }

  // ---------- registration and locks ----------

  function Locked(n: Balance): AccountLedger {
    AccountLedger(n, [], NO_STAKE, None, 0)
  }

  function Registered(): State {
    Genesis(SAMPLE, FIRST_TIERS).(integrated := map[0 := 0], nextDAppId := 1)
  }

  function Locking(s: State, account: AccountId, n: Balance): State {
    s.(ledgers := s.ledgers[account := Locked(n)], freezes := s.freezes[account := n], eraInfo := s.eraInfo.AddLocked(n))
  }

  lemma RegisteredIsReachable()
    ensures Reachable(SAMPLE, Registered())
  {
    var genesis := Genesis(SAMPLE, FIRST_TIERS);
    assert ValidRun(SAMPLE, genesis, []) && genesis == Execute(SAMPLE, genesis, []);
    assert map[][0 := 0] == map[0 := 0];
    CallReaches(genesis, CallRegister(0), Registered());
  }

  lemma LockReaches(s: State, account: AccountId, n: Balance)
    requires Reachable(SAMPLE, s) && !s.protocol.maintenance && account !in s.ledgers && n > 0
    ensures Reachable(SAMPLE, Locking(s, account, n))
  {
    CallReaches(s, CallLock(account, n, n, true), Locking(s, account, n));
  }

  function Prepared(n: Balance): State {
    Locking(Locking(Locking(Registered(), 1, n), 2, n), 3, n)
  }

  lemma PreparedIsReachable(n: Balance)
    requires n > 0
    ensures Reachable(SAMPLE, Prepared(n))
  {
    RegisteredIsReachable();
    LockReaches(Registered(), 1, n);
    LockReaches(Locking(Registered(), 1, n), 2, n);
    LockReaches(Locking(Locking(Registered(), 1, n), 2, n), 3, n);
  }

  // ---------- Voting ----------

  const FIRST := PeriodInfo(1, Subperiod.Voting, 2)

  function Staked(n: Balance): AccountLedger {
    AccountLedger(n, [], NO_STAKE, Some(StakeAmount(n, 0, 2, 1)), 1)
  }

  function Entry(n: Balance): StakingInfo {
    StakingInfo(NO_STAKE, StakeAmount(n, 0, 2, 1), true)
  }

  function OnContract(total: Balance): ContractStakeAmount {
    ContractStakeAmount(NO_STAKE, Some(StakeAmount(total, 0, 2, 1)))
  }

  function Voting(s: State, account: AccountId, n: Balance, total: Balance): State {
    s.(ledgers := s.ledgers[account := Staked(n)], freezes := s.freezes[account := n],
       stakers := s.stakers[StakerKey(account, 0) := Entry(n)],
       contracts := s.contracts[0 := OnContract(total)],
       eraInfo := s.eraInfo.AddStakeAmount(n, Subperiod.Voting))
  }

  lemma VoteReaches(s: State, account: AccountId, n: Balance, total: Balance, t: State)
    requires Reachable(SAMPLE, s) && s.protocol == ProtocolState(1, 2, FIRST, false) && n > 0
    requires s.integrated == map[0 := 0] && account in s.ledgers && s.ledgers[account] == Locked(n) && StakerKey(account, 0) !in s.stakers
    requires ContractOf(s.contracts, 0).Stake(n, FIRST, 1) == OnContract(total) && t == Voting(s, account, n, total)
    ensures Reachable(SAMPLE, t)
  {
    assert Locked(n).AddStakeAmount(n, 1, FIRST) == Ok(Staked(n).(contractStakeCount := 0));
    assert StakingInfo.New(1, Subperiod.Voting).Stake(n, 1, Subperiod.Voting) == Entry(n);
    CallReaches(s, CallStake(account, 0, n), t);
  }

  function Voted(n: Balance): State {
    Voting(Voting(Prepared(n), 2, n, n), 3, n, 2 * n)
  }

  lemma VotedIsReachable(n: Balance)
    requires n > 0
    ensures Reachable(SAMPLE, Voted(n))
  {
    PreparedIsReachable(n);
    VoteReaches(Prepared(n), 2, n, n, Voting(Prepared(n), 2, n, n));
    VoteReaches(Voting(Prepared(n), 2, n, n), 3, n, 2 * n, Voted(n));
  }

  // ---------- Build&Earn ----------

  const BUILDING := PeriodInfo(1, BuildAndEarn, 5)

  const NO_INPUTS := EraInputs(0, 0, 0, 0, 0, [])

  lemma TiersAreLater(c: TierConfig)
    ensures NextTierConfig(SAMPLE, c, 0, 0) == LATER_TIERS
  {
    var updated := CalculateNew(SAMPLE.tierParams, 0, 0, 0, 0);
    assert NumberOfSlots(0, 0) == 50;
    assert updated.slotsPerTier == [50] && updated.tierThresholds == [0];
  }

  /** The second block ends the Voting subperiod. */
  function Building(n: Balance): State {
    var s := Voted(n);
    s.(now := 2,
       protocol := ProtocolState(2, 3, BUILDING, false),
       eraInfo := EraInfo(3 * n, 0, StakeAmount(2 * n, 0, 0, 0), StakeAmount(2 * n, 0, 1, 0)),
       spans := Record(4, map[], 1, EraReward(0, 0, 0)),
       tierConfig := LATER_TIERS,
       trace := s.trace.(votes := map[1 := VotesOf(s.stakers, 1)], rewards := map[1 := EraReward(0, 0, 0)]))
  }

  lemma VotingEnds(n: Balance, s: State, t: State)
    requires s == Voted(n) && t == Building(n)
    ensures s.protocol.nextEraStart == 2 && s.now == 0 && !s.protocol.maintenance && s.protocol.periodInfo.subperiod == Subperiod.Voting
    ensures OnInitialize(SAMPLE, s.(now := 1), NO_INPUTS) == t
  {
    assert s.eraInfo == EraInfo(3 * n, 0, NO_STAKE, StakeAmount(2 * n, 0, 0, 0));
    TiersAreLater(FIRST_TIERS);
    assert CloseEra(SAMPLE, s.(now := 2), 0, EraReward(0, 0, 0), map[], LATER_TIERS) == t;
  }

  lemma BlocksReach(s: State, t: State)
    requires Reachable(SAMPLE, s) && s.protocol.nextEraStart == 2 && s.now == 0 && !s.protocol.maintenance
    requires s.protocol.periodInfo.subperiod == Subperiod.Voting && OnInitialize(SAMPLE, s.(now := 1), NO_INPUTS) == t
    ensures Reachable(SAMPLE, t)
  {
    CallReaches(s, CallOnInitialize(NO_INPUTS), s.(now := 1));
    CallReaches(s.(now := 1), CallOnInitialize(NO_INPUTS), t);
  }

  lemma BuildingIsReachable(n: Balance)
    requires n > 0
    ensures Reachable(SAMPLE, Building(n))
  {
    VotedIsReachable(n);
    VotingEnds(n, Voted(n), Building(n));
    BlocksReach(Voted(n), Building(n));
  }

  function Joining(n: Balance): AccountLedger {
    AccountLedger(n, [], NO_STAKE, Some(StakeAmount(0, n, 3, 1)), 1)
  }

  function JoiningEntry(n: Balance): StakingInfo {
    StakingInfo(NO_STAKE, StakeAmount(0, n, 3, 1), false)
  }

  /** The contract with `extra` staked in the first Build&Earn era. */
  function LaterOnContract(n: Balance, extra: Balance): ContractStakeAmount {
    ContractStakeAmount(StakeAmount(2 * n, 0, 2, 1), Some(StakeAmount(2 * n, extra, 3, 1)))
  }

  /** Account 1 stakes in the first Build&Earn era. */
  function Joined(n: Balance): State {
    var s := Building(n);
    s.(ledgers := s.ledgers[1 := Joining(n)], freezes := s.freezes[1 := n], stakers := s.stakers[StakerKey(1, 0) := JoiningEntry(n)],
       contracts := s.contracts[0 := LaterOnContract(n, n)],
       eraInfo := s.eraInfo.AddStakeAmount(n, BuildAndEarn))
  }

  lemma JoinReaches(n: Balance, s: State, t: State)
    requires Reachable(SAMPLE, s) && s.protocol == ProtocolState(2, 3, BUILDING, false) && s.integrated == map[0 := 0] && n > 0
    requires 1 in s.ledgers && s.ledgers[1] == Locked(n) && StakerKey(1, 0) !in s.stakers && 0 in s.contracts && s.contracts[0] == OnContract(2 * n)
    requires t == s.(ledgers := s.ledgers[1 := Joining(n)], freezes := s.freezes[1 := n], stakers := s.stakers[StakerKey(1, 0) := JoiningEntry(n)],
                     contracts := s.contracts[0 := LaterOnContract(n, n)], eraInfo := s.eraInfo.AddStakeAmount(n, BuildAndEarn))
    ensures Reachable(SAMPLE, t)
  {
    assert Locked(n).AddStakeAmount(n, 2, BUILDING) == Ok(Joining(n).(contractStakeCount := 0));
    assert StakingInfo.New(1, BuildAndEarn).Stake(n, 2, BuildAndEarn) == JoiningEntry(n);
    assert OnContract(2 * n).Stake(n, BUILDING, 2) == LaterOnContract(n, n);
    CallReaches(s, CallStake(1, 0, n), t);
  }

  lemma JoinedIsReachable(n: Balance)
    requires n > 0
    ensures Reachable(SAMPLE, Joined(n))
  {
    BuildingIsReachable(n);
    JoinReaches(n, Building(n), Joined(n));
  }

  /** And takes its stake back before the era ends. */
  function Left(n: Balance): State {
    var s := Joined(n);
    s.(ledgers := s.ledgers[1 := Locked(n)], freezes := s.freezes[1 := n], stakers := s.stakers - {StakerKey(1, 0)},
       contracts := s.contracts[0 := LaterOnContract(n, 0)],
       eraInfo := s.eraInfo.UnstakeAmount(n))
  }

  lemma LeavingUnstakes(n: Balance)
    requires n > 0
    ensures Joining(n).UnstakeAmount(n, 2, BUILDING) == Ok(Locked(n).(contractStakeCount := 1))
    ensures JoiningEntry(n).Unstake(n, 2, BuildAndEarn) == (StakingInfo(NO_STAKE, NO_STAKE, false), [(3, n)])
    ensures LaterOnContract(n, n).Unstake([(3, n)], BUILDING, 2) == LaterOnContract(n, 0)
  {
    var pairs := [(3, n)];
    assert pairs[1..] == [];
    assert LaterOnContract(n, n).ApplyPairs(pairs) == LaterOnContract(n, n).ApplyPair(3, n).ApplyPairs([]);
  }

  lemma LeaveReaches(n: Balance, s: State, t: State)
    requires Reachable(SAMPLE, s) && s.protocol == ProtocolState(2, 3, BUILDING, false) && s.integrated == map[0 := 0] && n > 0
    requires 1 in s.ledgers && s.ledgers[1] == Joining(n) && StakerKey(1, 0) in s.stakers && s.stakers[StakerKey(1, 0)] == JoiningEntry(n)
    requires 0 in s.contracts && s.contracts[0] == LaterOnContract(n, n)
    requires t == s.(ledgers := s.ledgers[1 := Locked(n)], freezes := s.freezes[1 := n], stakers := s.stakers - {StakerKey(1, 0)},
                     contracts := s.contracts[0 := LaterOnContract(n, 0)], eraInfo := s.eraInfo.UnstakeAmount(n))
    ensures Reachable(SAMPLE, t)
  {
    LeavingUnstakes(n);
    CallReaches(s, CallUnstake(1, 0, n), t);
  }

  lemma LeftIsReachable(n: Balance)
    requires n > 0
    ensures Reachable(SAMPLE, Left(n))
  {
    JoinedIsReachable(n);
    LeaveReaches(n, Joined(n), Left(n));
  }

  function Ranked(n: Balance): Ranking {
    [(0, 2 * n)]
  }

  function Inputs(n: Balance, pool: Balance): EraInputs {
    EraInputs(pool, 10, 0, 0, 0, Ranked(n))
  }

  /** The era ends with `n` recorded as its stake, while `2 * n` are in force. */
  function Ending(n: Balance, pool: Balance, s: State): State {
    s.(now := 3,
       protocol := ProtocolState(3, 4, BUILDING, false),
       eraInfo := EraInfo(3 * n, 0, StakeAmount(2 * n, 0, 1, 0), StakeAmount(2 * n, 0, 2, 0)),
       spans := Record(4, s.spans, 2, EraReward(pool, n, 10)),
       dappTiers := map[2 := TierRewards(LATER_TIERS, false, Ranked(n), 1, 10)],
       trace := s.trace.(rewards := s.trace.rewards[2 := EraReward(pool, n, 10)]))
  }

  function Ended(n: Balance, pool: Balance): State {
    Ending(n, pool, Left(n))
  }

  lemma RankedIsRanking(n: Balance, contracts: map<DAppId, ContractStakeAmount>)
    requires n > 0 && contracts.Keys == {0} && contracts[0] == LaterOnContract(n, 0)
    ensures IsRanking(contracts, 2, 1, Ranked(n))
  {
    forall id | id in contracts
      ensures exists i :: 0 <= i < |Ranked(n)| && Ranked(n)[i].0 == id
    {
      assert Ranked(n)[0].0 == id;
    }
  }

  lemma EraEnds(n: Balance, pool: Balance, s: State)
    requires s.protocol == ProtocolState(2, 3, BUILDING, false) && s.now == 2 && s.dappTiers == map[] && s.tierConfig == LATER_TIERS
    requires s.eraInfo == EraInfo(3 * n, 0, StakeAmount(n, 0, 0, 0), StakeAmount(2 * n, 0, 1, 0))
    ensures Dispatch(SAMPLE, s, CallOnInitialize(Inputs(n, pool))) == Done(Ending(n, pool, s))
  {
    TiersAreLater(LATER_TIERS);
    assert NewEra(SAMPLE, s.(now := 3), Inputs(n, pool)) == Ending(n, pool, s);
  }

  lemma EndReaches(n: Balance, pool: Balance, s: State, t: State)
    requires Reachable(SAMPLE, s) && n > 0 && s.contracts.Keys == {0} && s.contracts[0] == LaterOnContract(n, 0)
    requires s.protocol == ProtocolState(2, 3, BUILDING, false) && s.now == 2 && s.dappTiers == map[] && s.tierConfig == LATER_TIERS
    requires s.eraInfo == EraInfo(3 * n, 0, StakeAmount(n, 0, 0, 0), StakeAmount(2 * n, 0, 1, 0)) && t == Ending(n, pool, s)
    ensures Reachable(SAMPLE, t)
  {
    RankedIsRanking(n, s.contracts);
    EraEnds(n, pool, s);
    CallReaches(s, CallOnInitialize(Inputs(n, pool)), t);
  }

  lemma LeftIs(n: Balance, s: State)
    requires s == Left(n)
    ensures s.contracts.Keys == {0} && s.contracts[0] == LaterOnContract(n, 0)
    ensures s.protocol == ProtocolState(2, 3, BUILDING, false) && s.now == 2 && s.dappTiers == map[] && s.tierConfig == LATER_TIERS
    ensures s.eraInfo == EraInfo(3 * n, 0, StakeAmount(n, 0, 0, 0), StakeAmount(2 * n, 0, 1, 0))
  {
  }

  lemma EndedIsReachable(n: Balance, pool: Balance)
    requires n > 0
    ensures Reachable(SAMPLE, Ended(n, pool))
  {
    LeftIsReachable(n);
    LeftIs(n, Left(n));
    EndReaches(n, pool, Left(n), Ended(n, pool));
  }

  /** What is known once the first Build&Earn era has ended. */
  ghost predicate IsEnded(s: State, n: Balance, pool: Balance) {
    && s.protocol == ProtocolState(3, 4, BUILDING, false) && s.integrated == map[0 := 0] && s.nextDAppId == 1 && s.contracts.Keys == {0}
    && LedgerOf(s.ledgers, 2) == LedgerOf(s.ledgers, 3) == Staked(n)
    && s.stakers == map[StakerKey(2, 0) := Entry(n), StakerKey(3, 0) := Entry(n)]
    && s.trace.stakerRewards == [] && 2 in s.trace.rewards && s.trace.rewards[2] == EraReward(pool, n, 10)
    && s.dappTiers == map[2 := TierRewards(LATER_TIERS, false, Ranked(n), 1, 10)]
  }

  lemma LeftEntries(n: Balance, s: State)
    requires s == Left(n)
    ensures s.stakers == map[StakerKey(2, 0) := Entry(n), StakerKey(3, 0) := Entry(n)]
  {
    VotedEntries(n, Voted(n));
    RemovedAgain(Voted(n).stakers, StakerKey(1, 0), JoiningEntry(n));
  }

  lemma VotedEntries(n: Balance, s: State)
    requires s == Voted(n)
    ensures s.stakers == map[StakerKey(2, 0) := Entry(n), StakerKey(3, 0) := Entry(n)]
  {
  }

  lemma RemovedAgain(stakers: map<StakerKey, StakingInfo>, key: StakerKey, entry: StakingInfo)
    requires key !in stakers
    ensures stakers[key := entry] - {key} == stakers
  {
  }

  lemma LeftLedgers(n: Balance, s: State)
    requires s == Left(n)
    ensures LedgerOf(s.ledgers, 2) == LedgerOf(s.ledgers, 3) == Staked(n)
    ensures s.integrated == map[0 := 0] && s.nextDAppId == 1 && s.trace.stakerRewards == []
  {
  }

  lemma EndingIs(n: Balance, pool: Balance, s: State)
    requires LedgerOf(s.ledgers, 2) == LedgerOf(s.ledgers, 3) == Staked(n)
    requires s.stakers == map[StakerKey(2, 0) := Entry(n), StakerKey(3, 0) := Entry(n)]
    requires s.integrated == map[0 := 0] && s.nextDAppId == 1 && s.trace.stakerRewards == [] && s.contracts.Keys == {0}
    ensures IsEnded(Ending(n, pool, s), n, pool)
  {
  }

  /** The end of the era is reached for any stake and any pool. */
  lemma EndedExists(n: Balance, pool: Balance)
    requires n > 0
    ensures Reachable(SAMPLE, Ended(n, pool)) && IsEnded(Ended(n, pool), n, pool)
  {
    EndedIsReachable(n, pool);
    LeftEntries(n, Left(n));
    LeftLedgers(n, Left(n));
    LeftIs(n, Left(n));
    EndingIs(n, pool, Left(n));
  }

  // ---------- staker rewards beyond the pool ----------

  lemma Multiple(d: nat, k: nat)
    requires d > 0
    ensures d * k / d == k && d * k % d == 0
  {
    var q, r := d * k / d, d * k % d;
    assert d * k == d * q + r;
    QuotientIs(d, q, r, k);
  }

  lemma WholeIsAll(n: Balance, pool: Balance)
    requires n > 0
    ensures ProRata(PERBILL, n, n, pool) == pool
  {
    Multiple(n, PERBILL);
    Multiple(PERBILL, pool);
  }

  /** A claim for era 2 by an account that has the recorded stake pays all of the pool. */
  lemma ClaimTakesAll(s: State, account: AccountId, n: Balance, pool: Balance, t: State)
    requires Reachable(SAMPLE, s) && n > 0 && s.protocol == ProtocolState(3, 4, BUILDING, false)
    requires LedgerOf(s.ledgers, account) == Staked(n) && 2 in s.trace.rewards && s.trace.rewards[2] == EraReward(pool, n, 10)
    requires t == Next(SAMPLE, s, CallClaimStaker(account, true))
    ensures Reachable(SAMPLE, t) && t.protocol == s.protocol && t.trace.rewards == s.trace.rewards
    ensures forall a :: a != account ==> LedgerOf(t.ledgers, a) == LedgerOf(s.ledgers, a)
    ensures LogSum(t.trace.stakerRewards, StakerPaid(2)) == LogSum(s.trace.stakerRewards, StakerPaid(2)) + pool
  {
    NextIsReachable(SAMPLE, s, CallClaimStaker(account, true));
    ClaimStakerSucceedsIff(SAMPLE, s, account, true);
    ClaimTouchesOnly(SAMPLE, s, account);
    ClaimOfEraTwo(s, account, n, pool);
  }

  lemma ClaimTouchesOnly(cfg: Config, s: State, account: AccountId)
    requires ClaimStakerRewards(cfg, s, account, true).Done?
    ensures var t := ClaimStakerRewards(cfg, s, account, true).state;
            && t.protocol == s.protocol && t.trace.rewards == s.trace.rewards
            && forall a :: a != account ==> LedgerOf(t.ledgers, a) == LedgerOf(s.ledgers, a)
  {
  }

  lemma ClaimOfEraTwo(s: State, account: AccountId, n: Balance, pool: Balance)
    requires Reachable(SAMPLE, s) && n > 0 && s.protocol.era == 3 && ClaimStakerRewards(SAMPLE, s, account, true).Done?
    requires LedgerOf(s.ledgers, account) == Staked(n) && 2 in s.trace.rewards && s.trace.rewards[2] == EraReward(pool, n, 10)
    ensures var t := ClaimStakerRewards(SAMPLE, s, account, true).state;
            LogSum(t.trace.stakerRewards, StakerPaid(2)) == LogSum(s.trace.stakerRewards, StakerPaid(2)) + pool
  {
    ReachableIsOk(SAMPLE, s);
    ClaimPaysWhatIsDue(SAMPLE, s, account, true);
    var events := RewardEvents(account, DueRewards(Staked(n), s.trace.rewards, 2, 2));
    LogSumConcat(s.trace.stakerRewards, events, StakerPaid(2));
    DueSums(account, Staked(n), s.trace.rewards, 2, 2, 2);
    WholeIsAll(n, pool);
  }

  /** The staker pool of era 2 was `pool`, and twice as much was paid. */
  ghost predicate PaidTwice(s: State, pool: Balance) {
    && 2 in s.trace.rewards && s.trace.rewards[2].stakerRewardPool == pool
    && LogSum(s.trace.stakerRewards, StakerPaid(2)) == 2 * pool
  }

  lemma BothClaimsTakeAll(s: State, n: Balance, pool: Balance)
    requires Reachable(SAMPLE, s) && IsEnded(s, n, pool) && n > 0
    ensures exists t: State :: Reachable(SAMPLE, t) && PaidTwice(t, pool)
  {
    var first := Next(SAMPLE, s, CallClaimStaker(2, true));
    ClaimTakesAll(s, 2, n, pool, first);
    ClaimTakesAll(first, 3, n, pool, Next(SAMPLE, first, CallClaimStaker(3, true)));
  }

  /** There are runs that pay twice the staker pool of an era, for any stake and any pool. */
  lemma StakerPoolCanBeExceeded(n: Balance, pool: Balance)
    requires n > 0
    ensures exists s: State :: Reachable(SAMPLE, s) && PaidTwice(s, pool)
  {
    EndedExists(n, pool);
    BothClaimsTakeAll(Ended(n, pool), n, pool);
  }

  // ---------- after the contract is unregistered ----------

  function Unregistering(s: State): State {
    s.(contracts := s.contracts - {0}, integrated := map[], trace := s.trace.(unregistered := s.trace.unregistered[0 := 1]))
  }

  function Reregistering(s: State): State {
    s.(integrated := map[0 := 1], nextDAppId := 2)
  }

  lemma UnregisterIs(s: State, n: Balance, pool: Balance)
    requires IsEnded(s, n, pool)
    ensures Unregister(s, 0) == Done(Unregistering(s))
  {
    assert map[0 := 0] - {0} == map[];
  }

  lemma ReregisterIs(s: State)
    requires !s.protocol.maintenance && s.integrated == map[] && s.nextDAppId == 1
    ensures Register(SAMPLE, s, 0) == Done(Reregistering(s))
  {
    assert map[][0 := 1] == map[0 := 1];
  }

  lemma UnregisterReaches(s: State, n: Balance, pool: Balance)
    requires Reachable(SAMPLE, s) && IsEnded(s, n, pool)
    ensures Reachable(SAMPLE, Unregistering(s)) && Reachable(SAMPLE, Reregistering(Unregistering(s)))
  {
    UnregisterIs(s, n, pool);
    CallReaches(s, CallUnregister(0), Unregistering(s));
    ReregisterIs(Unregistering(s));
    CallReaches(Unregistering(s), CallRegister(0), Reregistering(Unregistering(s)));
  }

  /** An account with an unclaimed era cannot take its stake back from an unregistered
      contract. */
  lemma UnclaimedErasPreventUnstake(n: Balance, pool: Balance)
    requires n > 0
    ensures exists s: State :: Reachable(SAMPLE, s) && UnstakeFromUnregistered(s, 2, 0) == Failed(UnclaimedRewards)
  {
    EndedExists(n, pool);
    UnregisteredRefuses(Ended(n, pool), n, pool);
  }

  lemma UnregisteredRefuses(s: State, n: Balance, pool: Balance)
    requires Reachable(SAMPLE, s) && IsEnded(s, n, pool) && n > 0
    ensures exists t: State :: Reachable(SAMPLE, t) && UnstakeFromUnregistered(t, 2, 0) == Failed(UnclaimedRewards)
  {
    UnregisterReaches(s, n, pool);
    RefusesUnstake(Unregistering(s), n);
  }

  lemma RefusesUnstake(s: State, n: Balance)
    requires Reachable(SAMPLE, s) && s.protocol == ProtocolState(3, 4, BUILDING, false) && 0 !in s.integrated && n > 0
    requires LedgerOf(s.ledgers, 2) == Staked(n) && StakerKey(2, 0) in s.stakers && s.stakers[StakerKey(2, 0)] == Entry(n)
    ensures UnstakeFromUnregistered(s, 2, 0) == Failed(UnclaimedRewards)
  {
    ReachableIsOk(SAMPLE, s);
    UnstakeFromUnregisteredRefusedIff(SAMPLE, s, 2, 0);
  }

  lemma DAppIsAssigned(n: Balance)
    ensures TierRewards(LATER_TIERS, false, Ranked(n), 1, 10).dapps.Keys == {0}
  {
    var c, ranking := LATER_TIERS, Ranked(n);
    assert Taken(ranking, 0, 0, 50) == 1 + Taken(ranking, 1, 0, 49);
    assert Offset(c, ranking, 1) == 1;
    var tiers := TiersOf(c, ranking);
    var ranks := RanksOf(c, false, ranking, tiers);
    assert Assigned(tiers, ranks, ranking, 0) == map[];
    assert Assigned(tiers, ranks, ranking, 1).Keys == {0};
  }

  /** A dApp that can claim its reward of era 2, but cannot after it was unregistered, nor
      after it was registered again. */
  ghost predicate LosesReward(s: State, gone: State, back: State) {
    && Reachable(SAMPLE, s) && ClaimDAppReward(SAMPLE, s, 0, 2, true).Done?
    && Unregister(s, 0) == Done(gone) && ClaimDAppReward(SAMPLE, gone, 0, 2, true) == Failed(ContractNotFound)
    && Register(SAMPLE, gone, 0) == Done(back) && ClaimDAppReward(SAMPLE, back, 0, 2, true) == Failed(NoClaimableRewards)
  }

  lemma UnregisteredDAppLosesReward(n: Balance, pool: Balance)
    requires n > 0
    ensures exists s: State, gone: State, back: State :: LosesReward(s, gone, back)
  {
    EndedExists(n, pool);
    LosesRewardOnce(Ended(n, pool), n, pool);
  }

  lemma LosesRewardOnce(s: State, n: Balance, pool: Balance)
    requires Reachable(SAMPLE, s) && IsEnded(s, n, pool)
    ensures LosesReward(s, Unregistering(s), Reregistering(Unregistering(s)))
  {
    UnregisterIs(s, n, pool);
    ReregisterIs(Unregistering(s));
    ClaimIn(s, n);
    ClaimIn(Unregistering(s), n);
    ClaimIn(Reregistering(Unregistering(s)), n);
  }

  /** The outcome of a claim for era 2 depends on the id of the contract. */
  lemma ClaimIn(s: State, n: Balance)
    requires s.protocol == ProtocolState(3, 4, BUILDING, false)
    requires s.dappTiers == map[2 := TierRewards(LATER_TIERS, false, Ranked(n), 1, 10)]
    ensures var claim := ClaimDAppReward(SAMPLE, s, 0, 2, true);
            && (0 !in s.integrated ==> claim == Failed(ContractNotFound))
            && (0 in s.integrated && s.integrated[0] == 0 ==> claim.Done?)
            && (0 in s.integrated && s.integrated[0] == 1 ==> claim == Failed(NoClaimableRewards))
  {
    ClaimsOfEraTwo(s.dappTiers, n);
  }

  lemma ClaimsOfEraTwo(tiers: map<EraNumber, DAppTierRewards>, n: Balance)
    requires tiers == map[2 := TierRewards(LATER_TIERS, false, Ranked(n), 1, 10)]
    ensures 2 in tiers && tiers[2].period == 1 && tiers[2].TryClaim(0).Some? && tiers[2].TryClaim(1).None?
  {
    DAppIsAssigned(n);
  }

  /** The total of contract 0 is zero, while `2 * n` are staked on it. */
  ghost predicate FallsShort(s: State, n: Balance) {
    && 0 in s.integrated
    && ContractOf(s.contracts, s.integrated[0]).TotalStaked(s.protocol.periodInfo.number) == 0
    && Sum(s.stakers, StakeOn(0, s.protocol.periodInfo.number)) == 2 * n
  }

  lemma ReregisteredTotalFallsShort(n: Balance, pool: Balance)
    requires n > 0
    ensures exists s: State :: Reachable(SAMPLE, s) && FallsShort(s, n)
  {
    EndedExists(n, pool);
    var s := Ended(n, pool);
    UnregisterReaches(s, n, pool);
    ReregisteredFallsShort(s, n, pool);
  }

  lemma ReregisteredFallsShort(s: State, n: Balance, pool: Balance)
    requires IsEnded(s, n, pool)
    ensures FallsShort(Reregistering(Unregistering(s)), n)
  {
    TwoEntries(s.stakers, n);
  }

  lemma TwoEntries(stakers: map<StakerKey, StakingInfo>, n: Balance)
    requires stakers == map[StakerKey(2, 0) := Entry(n), StakerKey(3, 0) := Entry(n)]
    ensures Sum(stakers, StakeOn(0, 1)) == 2 * n
  {
    SumSplit(stakers, StakerKey(2, 0), StakeOn(0, 1));
    assert stakers - {StakerKey(2, 0)} == map[StakerKey(3, 0) := Entry(n)];
    SumSplit(stakers - {StakerKey(2, 0)}, StakerKey(3, 0), StakeOn(0, 1));
    assert stakers - {StakerKey(2, 0)} - {StakerKey(3, 0)} == map[];
  }
}

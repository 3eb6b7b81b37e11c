# Verified model of the Astar staking economy

A Dafny model of the pallets that move staked funds and rewards on the Astar node, and
proofs about every run of them:

* **dApp staking** (`pallets/dapp-staking`): locking, staking, claiming, the era handler,
  tier assignment and history pruning as one state machine;
* **inflation** (`pallets/inflation`), coupled to the era clock of dApp staking;
* **collator selection** (`pallets/collator-selection`): bonds and the kick loop;
* **the dynamic EVM base fee** (`pallets/dynamic-evm-base-fee`) and
  **the price aggregator** (`pallets/price-aggregator`).

`dafny verify dfyconfig.toml` checks the whole project.

## How it is organised

| files | content |
|---|---|
| `Arithmetic`, `MapSums`, `Pools` | saturating, per-thing and fixed-point arithmetic with rounding bounds; sums over maps and logs; pro rata payouts from a pool |
| `StakeTypes`, `Ledger`, `ContractStake`, `RewardHistory`, `Tiers`, `TierAssignment`, `Calendar` | the records of dApp staking as values, with what their operations mean |
| `StakeObjects`, `TierLoop` | the same records as objects changed in place, and the loops of the tier assignment, each proved against the value functions |
| `Protocol` | the storage of the pallet, every call and hook as a function from state to outcome, and runs |
| `Pallet` | the pallet as a class whose methods read and write its storage items, proved against `Protocol` |
| `Invariant`, `Frames`, `LockSteps`, `ContractSteps`, `StakeSteps`, `RewardSteps`, `EraSteps` | the invariant of all reachable states and one preservation proof per call and hook |
| `Runs` | the theorems about every reachable state |
| `Outstanding`, `EraPayouts` | stake still to be claimed, and the staker payouts of an era against its pool |
| `Lifetimes` | what happens at most once in a run: ids and bonuses |
| `Bonuses`, `Claims`, `Unlocks` | what bonus, staker and dApp claims pay, that an earned bonus stays claimable, and that unlocking funds come back |
| `Effects`, `Independence` | what each call does to the account that makes it and when it is refused, and what it leaves to everybody else |
| `Records`, `IdlePruning` | which block every stored record comes from, and that pruning ends |
| `Scenarios` | concrete reachable states for the properties that do not hold of every run |
| `PalletRuns` | the class under any sequence of calls stays reachable |
| `Inflation`, `InflationCycle`, `CycleClock`, `InflationPallet` | the inflation budget, the block-by-block cycle, its link to the era clock, and the pallet as a class |
| `Collators`, `CollatorRuns`, `CollatorPallet` | bonds, their invariant over runs, and the pallet as a class |
| `BaseFee`, `PriceAggregator`, `BlockValues` | the fee controller, the circular buffer, and the per-block price |

A state of dApp staking carries, next to the storage items, the history of its run (`Trace`):
payouts by kind, the rewards of all eras, the ends of all periods, the voting stakes when each
Voting subperiod ended, and when contracts were last unregistered. None of it is read by the
calls. `Reachable` holds of exactly the states that some run from genesis ends in.

## Modelling decisions

* Calls are atomic: a failed call changes nothing, as FRAME rolls a failed dispatch back.
* Balances, eras, periods and blocks are unbounded naturals. Where a cast or a 16-, 32-, 128-
  or 256-bit limit decides a branch or a value, it is written out (dApp ids, slot counts, tier
  and rank bytes, the base fee, the aggregator's sum and count).
* Per-thing ratios multiply to the nearest integer with an exact half rounding down,
  `from_rational` rounds down and gives one whole for a zero denominator or a quotient above
  one, and `FixedU128` rounds down. Rounding slack is visible in every bound.
* Outside influences are parameters: balances and account checks, whether a payout goes
  through, reward pools, price and issuance, which staker entries clearing a prefix removes,
  the session index, and the iteration order of storage maps.
* The safeguard is on, so eras are never forced. Freezing and thawing never fail.
* The tier configuration at genesis has the configured reward portions, as the genesis
  configuration builds it.

## Behaviour of the code worth knowing

* A comment in `unstake_from_unregistered` expects its `UnclaimedRewards` branch never to be
  reached. It is reached exactly when the account has unclaimed eras
  (`Runs.UnstakeFromUnregisteredRefusedIff`, `Scenarios.UnclaimedErasPreventUnstake`).
* An unstake reduces the recorded stake of the current era by its full amount, also by stake that
  is not in force yet. The record is then too small and the staker rewards of the era can exceed
  its pool (`Scenarios.StakerPoolCanBeExceeded`, `EraPayouts.UnstakeKeepsRecordExactIff`).
* A contract that is unregistered and registered again within a period gets a new id and a
  zero total while the entries on it remain (`Scenarios.ReregisteredTotalFallsShort`,
  `ContractSteps.RegisteredTotalAgreesIff`).
* `find_rank` turns a quotient above 255 into rank zero, so more stake can mean a lower rank
  (`Tiers.RankDropsAtOverflow`, `Tiers.RankIsMonotoneIffQuotientFits`).
* Observers are not told about an era that follows an era of one block, so with one-block eras
  the inflation is not recalculated on time (`InflationCycle.RecalculatedOnTimeIff`).
* The first inflation configuration is calculated from the default parameters, because the
  genesis parameters are stored afterwards. The last era and the last period of a cycle are
  paid from the configuration of the next one; both are part of the model.
* The documentation of dApp staking says that an unregistered dApp can still claim past rewards
  and keeps its slot. The code refuses such claims with `ContractNotFound` and frees the slot;
  the model follows the code (`Lifetimes.UnregisteredDAppIsNeverPaid`,
  `Lifetimes.UnregisteringFreesSlot`, `Scenarios.UnregisteredDAppLosesReward`).
* Tier numbers are cut to a byte and stop at 15, so with more than 16 tiers the last numbers are
  shared (`TierAssignment.CapacityKeptIff`, `TierAssignment.SeventeenTiersOverfill`).
* The sum of the two middle values of a block can stop at the largest price, and the median can
  then be below the lower half (`BlockValues.MiddleIsCentralIff`).

## Model

| member | source | states |
|---|---|---|
| Runs.RunKeepsInv | pallets/dapp-staking/src/lib.rs:536-604 | from genesis, every sequence of calls and hooks, successful or not, whose era ends sort all stakes, ends in a state that satisfies the whole invariant |
| Runs.NextKeepsInv | pallets/dapp-staking/src/lib.rs:676-1581 | each of the sixteen calls and hooks keeps the whole invariant |
| Runs.StakeRecordsAgree | pallets/dapp-staking/src/types.rs:523-532 | in every reachable state the stake in an account's ledger is the sum of its entries over all contracts, and over all accounts both equal the protocol total of the next era |
| Runs.ContractTotalsAgree | pallets/dapp-staking/src/types.rs:1237-1245 | in every reachable state the total of a registered contract is at most the sum of the entries on it, and equal to it unless the contract was unregistered earlier in the same period |
| ContractSteps.RegisteredTotalAgreesIff | pallets/dapp-staking/src/lib.rs:695-735 | at any registration, the fresh total agrees with the entries on the contract exactly when none of the current period is left from an earlier registration |
| Runs.FundsAddUp | pallets/dapp-staking/src/lib.rs:1542-1560 | locked and unlocking amounts add up to the protocol totals, the freeze of an account is its locked plus unlocking amount, stake is covered by locked funds, locked is zero or at least the minimum, chunks are in strict block order and within their number |
| Runs.ClaimedFundsWereUnlocking | pallets/dapp-staking/src/lib.rs:2041-2064 | by any block an account has claimed back at most what it started to unlock at least `blocksPerEra * unlockingPeriod` blocks before |
| Unlocks.ClaimPaysAllThatIsDue | pallets/dapp-staking/src/lib.rs:2041-2064 | along any run in which the account relocks nothing, a successful claim brings what it was paid since any earlier state to exactly what it had unlocking then that is due by now, plus what it started to unlock since then at least `blocksPerEra * unlockingPeriod` blocks ago |
| Unlocks.UnlockedAmountIsPaid | pallets/dapp-staking/src/lib.rs:911-958 | an amount whose unlocking was started, and which is not relocked, has been paid by any successful claim from the end of the unlocking period on |
| Unlocks.UnlockStarts | pallets/dapp-staking/src/lib.rs:938-942 | starting to unlock logs the amount, which is due exactly from `blocksPerEra * unlockingPeriod` blocks later on |
| Unlocks.ClaimUnlockedSucceedsIff | pallets/dapp-staking/src/lib.rs:2041-2047 | a claim of unlocked funds is refused exactly in maintenance mode or when nothing is due |
| Runs.BonusesStayWithinPool | pallets/dapp-staking/src/lib.rs:2152-2209 | the voting stake recorded for a finished period covers all its remaining entries, and all bonuses paid for it exceed the pool by at most half a unit per claim |
| Bonuses.BonusIsProRata | pallets/dapp-staking/src/lib.rs:2187-2206 | a bonus claim logs exactly one payout for its account, contract and period, and removes the entry; the amount is the voting stake's part of the recorded pool, at most half a unit above it and at most half a unit and a billionth of the pool below it |
| Bonuses.ClaimableBonusStaysClaimable | pallets/dapp-staking/src/lib.rs:1070-1076 | a bonus that can be claimed can still be claimed after any further calls, while the pallet is enabled and the period is within the retention window; only its own claim or a withdrawal of all funds may take it away |
| Bonuses.StakeReportsUnclaimedIff | pallets/dapp-staking/src/lib.rs:1038-1076 | staking reports unclaimed rewards exactly for an account with unclaimed finished eras of a claimable period, or with enough funds but a claimable bonus of an earlier period on the contract |
| Bonuses.UnclaimedMeansClaimable | pallets/dapp-staking/src/lib.rs:1038-1076 | that is, exactly while a staker claim or the bonus claim would succeed |
| Runs.RewardsArePaidOnce | pallets/dapp-staking/src/lib.rs:2067-2149 | no account is paid the staker reward of an era twice and no dApp the dApp reward |
| Runs.TierPayoutsStayWithinShare | pallets/dapp-staking/src/lib.rs:1271-1322 | base and rank rewards paid from a tier for an era, over any claims of a run, stay within its share of the dApp pool, for every tier that has its stored number for itself |
| Runs.LoyaltyMeansUnreducedVotes | pallets/dapp-staking/src/types.rs:1016-1075 | an entry still loyal after its Voting subperiod had its voting stake when that subperiod ended, and none of it was taken out since |
| Runs.ClaimableHistoryIsStored | pallets/dapp-staking/src/lib.rs:1988-2038 | whatever the pruning did, every finished era of a claimable period can be looked up with the reward recorded for it, and its tier assignment exists exactly if it was a Build&Earn era |
| Runs.PeriodEndsAreRetained | pallets/dapp-staking/src/lib.rs:1952-1983 | the stored period ends are exactly those of the finished periods within the retention window, with the recorded values |
| Runs.RewardSpanHasRoom | pallets/dapp-staking/src/lib.rs:1904-1914 | pushing the reward of the ending era into its span never fails |
| Runs.ClaimStakerSucceedsIff | pallets/dapp-staking/src/lib.rs:2067-2149 | a staker claim succeeds exactly when the account has an unclaimed finished era of a claimable period, the pallet is enabled and the payout goes through |
| Runs.ClaimBonusSucceedsIff | pallets/dapp-staking/src/lib.rs:2152-2209 | a bonus claim succeeds exactly for a loyal entry of a finished, not yet expired period, while the pallet is enabled and the payout goes through |
| Runs.ClaimDAppSucceedsIff | pallets/dapp-staking/src/lib.rs:1271-1322 | a dApp claim succeeds exactly for a registered contract that is still to be paid in a finished Build&Earn era of a claimable period, while the pallet is enabled and the payout goes through |
| Runs.NoInternalErrors | pallets/dapp-staking/src/lib.rs:2067-2185 | the internal errors of claims, stakes and unstakes are never returned |
| Effects.MaintenanceDisables | pallets/dapp-staking/src/lib.rs:1528-1534 | in maintenance mode every call is refused and a block only counts up |
| Effects.LockTakesWhatIsLeft | pallets/dapp-staking/src/lib.rs:871-893 | a lock takes the amount asked for or all that is left, the total locked amount never exceeds the balance, and freeze and totals follow |
| Effects.LockSucceedsIff | pallets/dapp-staking/src/lib.rs:853-887 | when a lock succeeds: an allowed or known account, something left to lock, and the minimum reached |
| Effects.UnlockMovesAmount | pallets/dapp-staking/src/lib.rs:918-946 | an unlock moves the amount asked for, or all that is not staked, and all funds exactly when less than the minimum would stay locked; nothing is lost |
| Effects.UnlockSucceedsIff | pallets/dapp-staking/src/lib.rs:911-946 | when an unlock succeeds, in terms of the locked and staked amounts, the minimum and the chunks |
| Effects.RelockMovesEverything | pallets/dapp-staking/src/lib.rs:973-1000 | a relock succeeds exactly when there is something unlocking and all funds make the minimum, and locks everything again |
| Effects.StakeAddsToEntry | pallets/dapp-staking/src/types.rs:1029-1040 | a stake adds the amount to the entry, as voting stake exactly in the Voting subperiod; it keeps the loyalty of the entry, a new one is loyal exactly in the Voting subperiod, and no other entry changes |
| Effects.StakeAddsToTotals | pallets/dapp-staking/src/lib.rs:1099-1115 | it adds the same amount to the ledger, to the contract and to the total of the next era |
| Effects.StakeSucceedsIff | pallets/dapp-staking/src/lib.rs:1010-1097 | when a stake succeeds, in terms of claims, funds, the minimum and the number of contracts |
| Effects.UnstakeTakesFromEntry | pallets/dapp-staking/src/lib.rs:1154-1186 | an unstake takes the amount asked for, and all of the entry exactly when less than the minimum would be left; the entry stays loyal exactly when it was and some voting stake is left in the Voting subperiod, or all of it later |
| Effects.UnstakeTakesFromTotals | pallets/dapp-staking/src/lib.rs:1188-1229 | it takes the same amount out of the ledger and the total of the next era, and no funds |
| Effects.UnstakeSucceedsIff | pallets/dapp-staking/src/lib.rs:1136-1201 | when an unstake succeeds: a known contract, an entry of the period with that much, and no unclaimed eras |
| Effects.UnstakeFromUnregisteredTakesAll | pallets/dapp-staking/src/lib.rs:1329-1391 | unstaking from an unregistered contract removes the whole entry and its stake |
| Effects.CleanupSucceedsIff | pallets/dapp-staking/src/lib.rs:1400-1423 | a cleanup succeeds exactly for an account with an entry of an earlier period whose bonus cannot be claimed |
| Effects.RegisterGivesNextId | pallets/dapp-staking/src/lib.rs:695-735 | when a registration succeeds, and that it gives the next id and changes nothing else |
| Independence.RunLeavesIdleAccount | pallets/dapp-staking/src/lib.rs:1542-1560 | in any run, the ledger, freeze and entries of an account that makes no call stay as they are |
| Independence.CallLeavesOthers | pallets/dapp-staking/src/lib.rs:1542-1560 | a call of somebody else, and any block, leaves the funds and stakes of an account alone |
| Independence.EntriesReachMinimum | pallets/dapp-staking/src/lib.rs:1085-1089 | in every reachable state every entry has at least the minimum stake |
| Records.RecordsComeFromEndingBlocks | pallets/dapp-staking/src/lib.rs:1749-1914 | in every run the reward recorded for an era and the end recorded for a period are those of the block that ended it, with the pools passed in to that block and the stake recorded then |
| Records.StoredEndComesFromItsBlock | pallets/dapp-staking/src/lib.rs:1841-1852 | in particular the stored end of a period that bonuses are paid from |
| Records.EndingBlockAssignsTiers | pallets/dapp-staking/src/lib.rs:1813-1933 | the tiers of a Build&Earn era are assigned with the configuration, ranking and dApp pool of its end, and every era ends with the configuration for the new price |
| IdlePruning.PruningCompletes | pallets/dapp-staking/src/lib.rs:1988-2038 | after as many idle passes as there are expired eras no expired span and no expired tier assignment is left, and nothing else has changed |
| Runs.UnstakeFitsLedger | pallets/dapp-staking/src/lib.rs:1186-1201 | under the invariant unstaking reports too large an amount only when it exceeds the entry, so the ledger never refuses it |
| Runs.UnstakeFromUnregisteredRefusedIff | pallets/dapp-staking/src/lib.rs:1329-1388 | under the invariant unstaking from an unregistered contract reports unclaimed rewards exactly when the account has an entry of the current period on it and an unclaimed era, and never an internal error |
| Runs.CleanupRemovesIff | pallets/dapp-staking/src/lib.rs:1400-1447 | a cleanup removes exactly those entries of the account that are of a finished period and for which a bonus claim would fail |
| Runs.NextIsReachable | pallets/dapp-staking/src/lib.rs:606-615 | reachable states are closed under every enabled call |
| LockSteps.LockKeepsInv | pallets/dapp-staking/src/lib.rs:853-899 | locking keeps the invariant |
| LockSteps.UnlockKeepsInv | pallets/dapp-staking/src/lib.rs:911-958 | unlocking keeps the invariant, including the bound on what can ever be claimed back |
| LockSteps.ClaimUnlockedKeepsInv | pallets/dapp-staking/src/lib.rs:2041-2064 | claiming unlocked funds keeps the invariant, whichever entries of an exiting account are cleared |
| LockSteps.RelockKeepsInv | pallets/dapp-staking/src/lib.rs:973-998 | relocking keeps the invariant |
| ContractSteps.RegisterKeepsInv | pallets/dapp-staking/src/lib.rs:695-735 | registering keeps the invariant, with the ids in use distinct and below the next one |
| ContractSteps.UnregisterKeepsInv | pallets/dapp-staking/src/lib.rs:823-843 | unregistering keeps the invariant although the staker entries remain |
| ContractSteps.StakedContractMatches | pallets/dapp-staking/src/types.rs:1259-1295 | a stake keeps a contract's total equal to the sum of the entries on it, across lazily moved entries |
| ContractSteps.UnstakedContractMatches | pallets/dapp-staking/src/types.rs:1299-1349 | so does an unstake, which reaches the contract only through the era and amount pairs |
| StakeSteps.StakeKeepsInv | pallets/dapp-staking/src/lib.rs:1010-1121 | staking keeps the invariant |
| StakeSteps.UnstakeKeepsInv | pallets/dapp-staking/src/lib.rs:1136-1238 | unstaking keeps the invariant |
| StakeSteps.UnstakeKeepsVotesCovered | pallets/dapp-staking/src/types.rs:948-951 | however an unstake splits between the subperiods in the entry and in the aggregate, the aggregate voting stake covers the entries and stays equal in the last era |
| StakeSteps.UnstakeFromUnregisteredKeepsInv | pallets/dapp-staking/src/lib.rs:1329-1388 | unstaking from an unregistered contract keeps the invariant |
| StakeSteps.CleanupKeepsInv | pallets/dapp-staking/src/lib.rs:1400-1447 | cleaning up expired entries keeps the invariant |
| RewardSteps.ClaimStakerKeepsInv | pallets/dapp-staking/src/lib.rs:2067-2149 | a staker claim keeps the invariant |
| RewardSteps.ClaimPaysWhatIsDue | pallets/dapp-staking/src/lib.rs:2110-2131 | a staker claim pays, for every era from the earliest unclaimed to the last covered one, the account's part of the recorded stake of the recorded pool, and leaves only later eras claimable |
| Claims.StakerClaimPaysShares | pallets/dapp-staking/src/lib.rs:2067-2149 | a staker claim starts at the earliest unclaimed era and reaches to the end of its chunk of the history, the last finished era or the end of the period, whichever comes first; every era in it with stake is paid once, with the account's part of the pool up to rounding, and exactly the later eras are left |
| Claims.DAppClaimPaysTierAndRank | pallets/dapp-staking/src/lib.rs:1288-1320 | a dApp claim logs one payout of the tier reward plus the rank reward times the rank, and takes the dApp off that era only |
| RewardSteps.ClaimBonusKeepsInv | pallets/dapp-staking/src/lib.rs:2152-2209 | a bonus claim keeps the invariant |
| Pools.PoolStep | pallets/dapp-staking/src/lib.rs:2187-2190 | paying one claim its part of a pool keeps what was paid and what is left to claim within the pool, up to half a unit per claim |
| Pools.PaidWithinPool | pallets/dapp-staking/src/lib.rs:2152-2209 | all claims together exceed the pool by at most half a unit each |
| RewardSteps.ClaimDAppKeepsInv | pallets/dapp-staking/src/lib.rs:1271-1322 | a dApp claim keeps the invariant |
| EraPayouts.StakerPayoutsStayWithinPool | pallets/dapp-staking/src/lib.rs:2110-2131 | in every run, the staker rewards paid for a finished era exceed its pool by at most half a unit per claim, if every unstake made in that era was of stake in force |
| EraPayouts.RecordedStakeIsInForce | pallets/dapp-staking/src/types.rs:938-994 | in every reachable state the recorded stake of the current era is at most the stake that the ledgers have in force in it |
| EraPayouts.UnstakeKeepsRecordExactIff | pallets/dapp-staking/src/types.rs:948-951 | from a state with an exact record, an unstake leads to another one exactly when its amount is in force for the account, or no other stake is |
| EraPayouts.ClaimSettles | pallets/dapp-staking/src/lib.rs:2067-2149 | a staker claim pays what is due for the eras it covers, and takes exactly the stake of the account in those eras out of what is still to be claimed |
| EraPayouts.NextRecordIsExact | pallets/dapp-staking/src/lib.rs:1749-1902 | every era starts with a record that is exactly the stake in force in it |
| Outstanding.UnstakeUnclaimed | pallets/dapp-staking/src/types.rs:633-668 | an unstake takes its amount out of the current era as far as it is in force there, and leaves every earlier era as it was |
| Outstanding.QuietCallUndiminished | pallets/dapp-staking/src/lib.rs:676-1581 | every call but unstakes, staker claims and blocks leaves the stake in force and its record alone, and adds nothing to claim in earlier eras |
| Scenarios.StakerPoolCanBeExceeded | pallets/dapp-staking/src/types.rs:948-951 | for any stake and any pool there is a reachable state in which twice the staker pool of an era was paid |
| Scenarios.UnclaimedErasPreventUnstake | pallets/dapp-staking/src/lib.rs:1361-1370 | a reachable state in which unstaking from an unregistered contract reports unclaimed rewards |
| Scenarios.ReregisteredTotalFallsShort | pallets/dapp-staking/src/lib.rs:823-843 | a reachable state in which a contract registered again has a total of zero and entries with any given stake |
| Scenarios.UnregisteredDAppLosesReward | pallets/dapp-staking/src/lib.rs:1271-1322 | a reachable state in which a dApp claim succeeds, but fails once the contract is unregistered, and also once it is registered again |
| Lifetimes.RetiredIdNeverReturns | pallets/dapp-staking/src/lib.rs:695-735 | once no contract has an id any more, none has it and no dApp reward is paid to it in any continuation of the run |
| Lifetimes.UnregisteredDAppIsNeverPaid | pallets/dapp-staking/src/lib.rs:823-843 | whatever is called after a contract was unregistered, its dApp is paid for no era any more |
| Lifetimes.UnregisteringFreesSlot | pallets/dapp-staking/src/lib.rs:706-711 | never more contracts are registered than allowed, and unregistering one always makes room for another |
| Lifetimes.BonusIsPaidOnce | pallets/dapp-staking/src/lib.rs:2152-2209 | no bonus is paid twice for an account, a contract and a period |
| EraSteps.NewEraKeepsInv | pallets/dapp-staking/src/lib.rs:1749-1941 | the end of an era, of a Voting subperiod and of a period keep the invariant |
| EraSteps.EndPeriodKeepsBonuses | pallets/dapp-staking/src/lib.rs:1842-1855 | the voting stake recorded at a period end covers all voting stakes of the period |
| EraSteps.OnIdleKeepsInv | pallets/dapp-staking/src/lib.rs:1988-2038 | a pruning pass keeps the invariant |
| Ledger.AddStakeRefines | pallets/dapp-staking/src/types.rs:589-626 | on the plain view era to stake, staking adds the amount to every later era and to no other |
| Ledger.UnstakeRefines | pallets/dapp-staking/src/types.rs:633-668 | unstaking takes the amount out of the current era as far as it is there, and in full out of every later era |
| Ledger.ClaimYieldsStakeInForce | pallets/dapp-staking/src/types.rs:710-743 | a claim for an account with stake fails only for an era before its earliest one, and otherwise yields the stake in force in every era from there on |
| Ledger.ClaimKeepsTheRest | pallets/dapp-staking/src/types.rs:745-762 | after a claim exactly the stake of the later eras is left, or nothing after the end of the period |
| Ledger.ClaimRunYieldsEachEraOnce | pallets/dapp-staking/src/types.rs:789-831 | any sequence of successful claims for finished eras, up to and including one that ends the period, yields every unclaimed era once, in order, with the stake in force in it |
| Ledger.AddStakeKeepsShape | pallets/dapp-staking/src/types.rs:589-626 | staking keeps the two entries consecutive, in one period and covered by locked funds |
| Ledger.UnstakeKeepsShape | pallets/dapp-staking/src/types.rs:633-668 | so does unstaking |
| Ledger.WithChunkSorted | pallets/dapp-staking/src/types.rs:451-480 | adding an unlocking chunk keeps the chunks strictly sorted by block |
| Ledger.RetainedKeepsTheRest | pallets/dapp-staking/src/types.rs:489-502 | claiming unlocked chunks takes exactly the matured amount and keeps the order of the rest |
| ContractStake.UnstakeKeepsInfo | pallets/dapp-staking/src/types.rs:1055-1138 | the pairs of an unstake take the full amount out of the next era and out of the current era exactly what the entry loses there; the loyal flag survives Build&Earn only with unreduced voting stake |
| ContractStake.UnstakeKeepsContract | pallets/dapp-staking/src/types.rs:1299-1349 | applying those pairs reduces the total of a contract by exactly the amount |
| RewardHistory.LookupRefines | pallets/dapp-staking/src/types.rs:1479-1484 | the chunked reward spans give what a plain map from era to reward would |
| RewardHistory.RecordRefines | pallets/dapp-staking/src/types.rs:1450-1474 | recording a finished era always succeeds and extends that map |
| RewardHistory.PruneRefines | pallets/dapp-staking/src/lib.rs:1999-2022 | a pruning pass never touches the span of a still valid era |
| TierAssignment.AssignmentFollowsStake | pallets/dapp-staking/src/lib.rs:1676-1690 | every dApp in a tier with its own number meets the threshold of it, a dApp with more stake than an assigned one is assigned, and with up to 256 tiers it is in no worse tier |
| TierAssignment.AssignmentIsGreedy | pallets/dapp-staking/src/lib.rs:1676-1698 | no tier with its own number exceeds its capacity, and such a tier that a dApp qualifies for but did not get into or above is full |
| TierAssignment.LiabilityWithinShare | pallets/dapp-staking/src/lib.rs:1661-1728 | base and rank rewards of all dApps in a tier with its own number together fit its share of the pool |
| TierAssignment.TierRewardIsLargest | pallets/dapp-staking/src/lib.rs:1661-1673 | the stored reward of a tier is the largest that its share of the pool covers for all slots |
| TierAssignment.RankRewardIsLargest | pallets/dapp-staking/src/lib.rs:1705-1727 | the stored rank reward is the largest that is at most a tenth of the tier reward and that the reward of the empty slots covers for the sum of the stored ranks |
| TierAssignment.StoredRankIs | pallets/dapp-staking/src/lib.rs:1691-1703 | the rank stored for a dApp is its rank by stake between the threshold of its tier and that of the tier above |
| TierAssignment.TierNeverOverpays | pallets/dapp-staking/src/types.rs:1782-1804 | any order of claims, with repetitions, pays no more than that share |
| TierAssignment.ClaimPaysLiability | pallets/dapp-staking/src/types.rs:1782-1804 | a claim moves exactly what it pays out of the remaining liability of its tier |
| TierAssignment.OwnNumberIff | primitives/src/dapp_staking.rs:218-221 | a tier has its stored number for itself exactly when it is below 15 and there are at most 256 more tiers than that, or it is 15 and there are 16 tiers |
| TierAssignment.CapacityKeptIff | pallets/dapp-staking/src/lib.rs:1676-1698 | for a tier up to 15, the number of dApps stored in it stays within its capacity for all inputs exactly when it has its number for itself |
| TierAssignment.ShareKeptIff | pallets/dapp-staking/src/lib.rs:1661-1728 | and so do the claims on it within its share of the pool |
| TierAssignment.OrderKeptIff | pallets/dapp-staking/src/lib.rs:1676-1698 | more stake never means a worse tier for all inputs exactly with up to 256 tiers |
| TierAssignment.SeventeenTiersOverfill | pallets/dapp-staking/src/lib.rs:1676-1698 | with 17 tiers two dApps can be stored in tier 15 with its one slot, and claim twice its share |
| Tiers.HigherPriceNeverRaisesThresholds | pallets/dapp-staking/src/types.rs:1637-1732 | a higher price never raises a threshold, and no dynamic threshold falls below its minimum |
| Tiers.SlotsFollowPrice | primitives/src/dapp_staking.rs:194-199 | the number of slots is 50 and one for every whole unit of factor times price, below the limit of 16 bits |
| Tiers.TierSlotsFollowPrice | pallets/dapp-staking/src/types.rs:1645-1658 | the slots of a tier are its part of the number of slots to the nearest integer, and a higher price never lowers them |
| Tiers.ThresholdsFollowSlots | pallets/dapp-staking/src/types.rs:1662-1722 | a fixed threshold is its percentage of the issuance; a dynamic one is inversely proportional to the number of slots up to rounding, or its minimum if that is larger |
| Tiers.NumberOfSlotsIsMonotone | primitives/src/dapp_staking.rs:193-199 | a higher price never means fewer slots |
| Tiers.PackingRoundTrip | primitives/src/dapp_staking.rs:205-238 | a tier and rank packed into a byte are read back unchanged, and the checked constructor refuses exactly what the saturating one would change |
| Tiers.RankIsMonotoneIffQuotientFits | primitives/src/dapp_staking.rs:257-274 | more stake never means a lower rank exactly when the tier has no steps, the quotient of the larger stake fits a byte, or that of the smaller one is zero or does not fit either |
| Tiers.RankCountsSteps | primitives/src/dapp_staking.rs:256-274 | below 256 steps the rank is the number of whole steps above the lower bound, up to the largest rank; beyond, or without steps, it is zero |
| Tiers.RankDropsAtOverflow | primitives/src/dapp_staking.rs:257-274 | two concrete stakes for which more stake means a lower rank |
| StakeObjects.BinarySearch | pallets/dapp-staking/src/types.rs:460-462 | in sorted chunks the search finds the chunk of a block or the place where it belongs |
| StakeObjects.InsertionAt | pallets/dapp-staking/src/types.rs:464-477 | updating or inserting at that place is the ordered insertion |
| StakeObjects.LedgerRecord.AddUnlockingChunk | pallets/dapp-staking/src/types.rs:451-480 | in place, the ordered insertion or the capacity error without a change |
| StakeObjects.LedgerRecord.ClaimUnlocked | pallets/dapp-staking/src/types.rs:489-502 | the retain loop leaves the unmatured chunks and returns the matured amount |
| StakeObjects.LedgerRecord.ConsumeUnlockingChunks | pallets/dapp-staking/src/types.rs:505-512 | the fold returns the whole unlocking amount and leaves no chunk |
| StakeObjects.LedgerRecord.AddStakeAmount | pallets/dapp-staking/src/types.rs:589-626 | in place, the stake function on the ledger value, or its error without a change |
| StakeObjects.LedgerRecord.UnstakeAmount | pallets/dapp-staking/src/types.rs:633-668 | in place, the unstake function, or its error without a change |
| StakeObjects.LedgerRecord.ClaimUpToEra | pallets/dapp-staking/src/types.rs:710-762 | in place, the claim function with its pairs, or its error without a change |
| StakeObjects.LedgerRecord.MaybeCleanupExpired | pallets/dapp-staking/src/types.rs:694-703 | in place, the removal of expired stake |
| StakeObjects.PairIterator.Next | pallets/dapp-staking/src/types.rs:817-831 | yields the first of the remaining pairs and keeps the others |
| StakeObjects.StakerRecord.Stake | pallets/dapp-staking/src/types.rs:1029-1040 | in place, the stake function on the entry value |
| StakeObjects.StakerRecord.Unstake | pallets/dapp-staking/src/types.rs:1055-1138 | in place, the unstake function with its pairs |
| StakeObjects.ContractRecord.Stake | pallets/dapp-staking/src/types.rs:1259-1295 | in place, the stake function on the contract value |
| StakeObjects.ContractRecord.Unstake | pallets/dapp-staking/src/types.rs:1299-1349 | the loop over the pairs does what applying them one by one to the aligned value does |
| TierLoop.RankDApps | pallets/dapp-staking/src/lib.rs:1630-1648 | collecting and sorting gives all dApps with stake exactly once, largest stake first |
| TierLoop.AssignToTiers | pallets/dapp-staking/src/lib.rs:1661-1743 | the nested loops compute the assignment and rewards that `TierRewardIsLargest`, `RankRewardIsLargest`, `StoredRankIs` and the other tier theorems are about |
| TierLoop.RankRewardOf | pallets/dapp-staking/src/lib.rs:1711-1727 | the loop over the ranks and the division give the largest rank reward that fits |
| Pallet.DappStaking.constructor | pallets/dapp-staking/src/lib.rs:536-604 | the storage at genesis |
| Pallet.DappStaking.UpdateLedger | pallets/dapp-staking/src/lib.rs:1542-1560 | stores the ledger and freezes its total, or removes both |
| Pallet.DappStaking.Register | pallets/dapp-staking/src/lib.rs:695-735 | the specified outcome: an error and no change, or exactly the specified new state |
| Pallet.DappStaking.Unregister | pallets/dapp-staking/src/lib.rs:823-843 | the specified outcome |
| Pallet.DappStaking.Lock | pallets/dapp-staking/src/lib.rs:853-899 | the specified outcome |
| Pallet.DappStaking.Unlock | pallets/dapp-staking/src/lib.rs:911-958 | the outcome that `Effects.UnlockMovesAmount`, `Effects.UnlockSucceedsIff` and `Unlocks.UnlockedAmountIsPaid` are about, for a ledger whose chunks are in order, which every reachable one's are |
| Pallet.DappStaking.ClaimUnlocked | pallets/dapp-staking/src/lib.rs:2041-2064 | the specified outcome |
| Pallet.DappStaking.RelockUnlocking | pallets/dapp-staking/src/lib.rs:973-998 | the specified outcome |
| Pallet.DappStaking.Stake | pallets/dapp-staking/src/lib.rs:1010-1121 | the outcome that `Effects.StakeAddsToEntry`, `Effects.StakeSucceedsIff` and `Bonuses.StakeReportsUnclaimedIff` are about, with every error in its order |
| Pallet.DappStaking.Unstake | pallets/dapp-staking/src/lib.rs:1136-1238 | the specified outcome, with every error in its order |
| Pallet.DappStaking.UnstakeFromUnregistered | pallets/dapp-staking/src/lib.rs:1329-1388 | the specified outcome |
| Pallet.DappStaking.CleanupExpiredEntries | pallets/dapp-staking/src/lib.rs:1400-1447 | the specified outcome, with the search and the removal loop in any order |
| Pallet.DappStaking.CalculateRewards | pallets/dapp-staking/src/lib.rs:2110-2131 | the reward loop over the pair iterator gives the specified rewards, or nothing when an era is missing |
| Pallet.DappStaking.ClaimStakerRewards | pallets/dapp-staking/src/lib.rs:2067-2149 | the specified outcome |
| Pallet.DappStaking.ClaimBonusReward | pallets/dapp-staking/src/lib.rs:2152-2209 | the outcome that `Bonuses.BonusIsProRata` and `Runs.ClaimBonusSucceedsIff` are about |
| Pallet.DappStaking.ClaimDAppReward | pallets/dapp-staking/src/lib.rs:1271-1322 | the specified outcome |
| Pallet.DappStaking.UpdateCleanupMarker | pallets/dapp-staking/src/lib.rs:1952-1983 | drops the end of the newly expired period and moves the marker behind it |
| Pallet.DappStaking.OnInitialize | pallets/dapp-staking/src/lib.rs:1749-1941 | the specified new state, with a ranking of all stakes it sorted itself whenever one is needed |
| Pallet.DappStaking.OnIdle | pallets/dapp-staking/src/lib.rs:1988-2038 | the specified pruning pass |
| PalletRuns.Start | pallets/dapp-staking/src/lib.rs:536-604 | a new pallet is in a reachable state |
| PalletRuns.Extrinsic | pallets/dapp-staking/src/lib.rs:676-1581 | any extrinsic on a reachable pallet has its specified outcome and leaves a reachable pallet |
| PalletRuns.Initialize | pallets/dapp-staking/src/lib.rs:606-611 | so does the beginning of a block |
| PalletRuns.Idle | pallets/dapp-staking/src/lib.rs:613-615 | and its idle time |
| Inflation.ValidIffPartsAddUp | pallets/inflation/src/lib.rs:580-600 | the checked fold gives the exact total of the parts, and fails exactly when it exceeds one whole |
| Inflation.CycleStaysWithinEmission | pallets/inflation/src/lib.rs:328-391 | block rewards and pools of one cycle add up to at most the emission plus three units |
| Inflation.RewardsAreLargest | pallets/inflation/src/lib.rs:328-391 | each of the six rewards is the largest that its own part of the emission covers for as often as it is paid in a cycle |
| Inflation.EmissionIsNearest | pallets/inflation/src/lib.rs:333-334 | the emission is the largest rate of the issuance, to the nearest integer |
| Inflation.StakerPoolFollowsStake | pallets/inflation/src/lib.rs:431-447 | the staker pool is the base part plus all of the adjustable part once the ideal rate is staked, and before that the adjustable part in proportion, up to rounding |
| Inflation.EraPoolsBounded | pallets/inflation/src/lib.rs:431-447 | whatever is staked, the pools of an era stay within their maximum |
| InflationCycle.EveryCycleStaysWithinBudget | pallets/inflation/src/lib.rs:235-251 | with eras of at least two blocks, in every run from valid parameters, every replaced configuration was in force for exactly one cycle of blocks, asked for at most one cycle of era and bonus pools, and granted at most its emission plus three units |
| InflationCycle.RecalculatedOnTimeIff | pallets/inflation/src/lib.rs:417-427 | after one cycle of blocks the first configuration has been replaced exactly when eras last at least two blocks |
| InflationCycle.CycleBlocks | primitives/src/dapp_staking.rs:72-83 | the block calendar of the era handler gives a cycle exactly its derived number of blocks |
| InflationCycle.CycleEnds | pallets/inflation/src/lib.rs:328-391 | at the end of a cycle the tally is one full cycle within its budget |
| CycleClock.ClockIsShared | pallets/dapp-staking/src/lib.rs:1779-1902 | the clock in the inflation theorems is the one that the dApp staking handler moves |
| InflationPallet.InflationNode.constructor | pallets/inflation/src/lib.rs:212-220 | the chain at genesis: the first configuration comes from the default parameters, the stored parameters are the given ones |
| InflationPallet.InflationNode.StakerAndDAppRewardPools | pallets/inflation/src/lib.rs:431-447 | the pools of an era, never above their maximum |
| InflationPallet.InflationNode.BlockBeforeNewEra | pallets/inflation/src/lib.rs:417-427 | marks the recalculation exactly when its era has come |
| InflationPallet.InflationNode.OnFinalize | pallets/inflation/src/lib.rs:235-251 | replaces the configuration exactly when marked |
| InflationPallet.InflationNode.ForceSetInflationParams | pallets/inflation/src/lib.rs:271-285 | accepts exactly valid parameters |
| InflationPallet.InflationNode.ProcessBlock | pallets/inflation/src/lib.rs:225-251 | the hooks in their order do what one block of the cycle machine does |
| CollatorRuns.BondsStayBacked | pallets/collator-selection/src/lib.rs:379-483 | in every run each account has exactly its recorded deposit reserved, nobody is candidate and un-bonding at once, candidates are distinct and have an authored block, and no money is created or lost |
| CollatorRuns.NextKeepsOk | pallets/collator-selection/src/lib.rs:314-500 | every call keeps that, and none takes the candidates below the smaller of their number and the minimum |
| CollatorRuns.ReleaseIsExact | pallets/collator-selection/src/lib.rs:403-413 | releasing an un-bonded deposit returns exactly that deposit |
| CollatorRuns.WithdrawKeepsOk | pallets/collator-selection/src/lib.rs:465-483 | withdrawing returns exactly the deposit and leaves nothing reserved |
| CollatorRuns.SlashIsExact | pallets/collator-selection/src/lib.rs:527-545 | slashing splits exactly the deposit into a part for the destination or burned and a returned rest |
| CollatorRuns.RegisteredCandidateIsListed | pallets/collator-selection/src/lib.rs:405-440 | a new candidate is listed last, its bond comes from its free balance and its last bond, and it is not stale before two kick thresholds have passed |
| CollatorRuns.RegisterSucceedsIff | pallets/collator-selection/src/lib.rs:379-440 | when a registration succeeds |
| CollatorRuns.LeftBondIsLocked | pallets/collator-selection/src/lib.rs:451-480 | the bond of a candidate that left can be withdrawn exactly from the next session on, in full |
| CollatorRuns.KickOutcome | pallets/collator-selection/src/lib.rs:557-586 | kicking in any order only removes candidates, never below the minimum, and conserves money and bonds |
| CollatorRuns.NoStaleCandidateRemains | pallets/collator-selection/src/lib.rs:557-586 | after the loop, in any order, no candidate is stale or at most the minimum remains |
| CollatorRuns.KickedCandidateIsSlashed | pallets/collator-selection/src/lib.rs:565-571 | a kicked candidate loses exactly the configured part of its bond, to the destination or burned, and gets the rest back |
| CollatorRuns.ActiveCandidateStays | pallets/collator-selection/src/lib.rs:557-586 | kicking, in any order, leaves every candidate that is not stale with its place and bond |
| CollatorRuns.UnlockedBondIsSpared | pallets/collator-selection/src/lib.rs:572-580 | kicking leaves the bond of an account alone that was unlocked in an earlier session |
| CollatorPallet.CollatorSelection.RegisterAsCandidate | pallets/collator-selection/src/lib.rs:379-439 | the specified outcome, with every error in its order |
| CollatorPallet.CollatorSelection.LeaveIntent | pallets/collator-selection/src/lib.rs:451-459 | the specified outcome |
| CollatorPallet.CollatorSelection.WithdrawBond | pallets/collator-selection/src/lib.rs:465-483 | the specified outcome |
| CollatorPallet.CollatorSelection.SlashNonCandidate | pallets/collator-selection/src/lib.rs:527-545 | the specified split of the deposit |
| CollatorPallet.CollatorSelection.FindCandidate | pallets/collator-selection/src/lib.rs:512-515 | finds the first position of an account exactly if it is a candidate |
| CollatorPallet.CollatorSelection.KickStaleCandidates | pallets/collator-selection/src/lib.rs:557-586 | visits every tracked account exactly once, in some order, with the effect of the specified loop, and counts the candidates before and the kicked ones |
| BaseFee.BoundsAreNeverInverted | pallets/dynamic-evm-base-fee/src/lib.rs:170-185 | the clamp bounds always enclose the current fee |
| BaseFee.RunStaysInRange | pallets/dynamic-evm-base-fee/src/lib.rs:158-198 | a fee within its bounds stays there for all later blocks and forced fees, whatever the adjustment factors |
| BaseFee.AdjustApproaches | pallets/dynamic-evm-base-fee/src/lib.rs:187-197 | with the fee or the ideal within the bounds, one block moves the fee by a full step towards the bounded ideal and never past it |
| BaseFee.Converges | pallets/dynamic-evm-base-fee/src/lib.rs:158-198 | where steps are possible, the bounded ideal is reached in at most as many blocks as the fee is away from it, also from a fee outside the bounds when the ideal is within them |
| BaseFee.ReachesTargetIff | pallets/dynamic-evm-base-fee/src/lib.rs:158-198 | with the fee or the ideal within the bounds, the bounded ideal is reached exactly if the fee is there, or a step of at least one is possible from the fee on the way up, or right above the ideal on the way down |
| BaseFee.IdealIsQuotient | pallets/dynamic-evm-base-fee/src/lib.rs:189-193 | where nothing saturates, the ideal fee is 25/98974 of the product, rounded down |
| BaseFee.IdealIsMonotone | pallets/dynamic-evm-base-fee/src/lib.rs:189-193 | the ideal fee never falls when the adjustment factor rises |
| BaseFee.StepIsNearest | pallets/dynamic-evm-base-fee/src/lib.rs:162-167 | the largest step is the configured ratio of the fee, to the nearest integer |
| BaseFee.EntersRangeIff | pallets/dynamic-evm-base-fee/src/lib.rs:170-185 | with an ideal within the bounds, any fee gets within them at some block exactly if it is there, or a step of at least one is possible from a fee below, or right above the bounds for a fee above |
| BaseFee.IdealKeepsFeeOutside | pallets/dynamic-evm-base-fee/src/lib.rs:170-185 | an ideal on the same side of the bounds as the fee keeps the fee outside of them for ever |
| BaseFee.StepCanPassOverTheRange | pallets/dynamic-evm-base-fee/src/lib.rs:170-185 | a concrete step from below the bounds to above them |
| BaseFee.BaseFeePallet.OnFinalize | pallets/dynamic-evm-base-fee/src/lib.rs:158-198 | stores the adjusted fee, in range if it was |
| BaseFee.BaseFeePallet.SetBaseFeePerGas | pallets/dynamic-evm-base-fee/src/lib.rs:220-230 | accepts exactly a fee within the bounds |
| PriceAggregator.BufferHoldsTheLatest | pallets/price-aggregator/src/lib.rs:417-443 | in every run the buffer holds exactly the latest pushed values, at most as many as fit, and no pushed average is zero |
| PriceAggregator.PushedStaysBounded | pallets/price-aggregator/src/lib.rs:354-443 | in every run, no average pushed to the buffer exceeds the largest value ever submitted |
| PriceAggregator.WindowPushesMean | pallets/price-aggregator/src/lib.rs:376-443 | the block that ends a window pushes the mean of the prices of all its blocks, rounded down by at most a unit and one part of their sum, or nothing if that is zero, and starts the next window |
| PriceAggregator.WindowCollects | pallets/price-aggregator/src/lib.rs:376-411 | while a window lasts it collects the price of every block |
| PriceAggregator.AddKeepsTheLatest | pallets/price-aggregator/src/lib.rs:208-231 | adding never meets the guard, and in order of age drops only the oldest value of a full buffer |
| PriceAggregator.StartedIsValid | pallets/price-aggregator/src/lib.rs:299-309 | the buffer at genesis has a valid write position and holds the initial values in their order |
| BlockValues.AverageIsBounded | pallets/price-aggregator/src/lib.rs:234-249 | an average never exceeds the largest of its values, also when their sum stops at the largest price |
| BlockValues.MeanFallsShort | pallets/price-aggregator/src/lib.rs:172-179 | a mean falls short of the exact one by at most a unit and one part of the sum |
| PriceAggregator.CircularBuffer.Add | pallets/price-aggregator/src/lib.rs:208-231 | in place, the addition that `AddKeepsTheLatest` is about |
| PriceAggregator.CircularBuffer.Average | pallets/price-aggregator/src/lib.rs:234-249 | the loop gives the mean of the stored values, with their sum stopping at the largest price |
| PriceAggregator.PricePallet.OnNewData | pallets/price-aggregator/src/lib.rs:448-465 | keeps a value as long as the block has room |
| PriceAggregator.PricePallet.OnFinalize | pallets/price-aggregator/src/lib.rs:354-443 | the values of the block are processed, averaged or by their median, and added to the window, and a finished window is pushed, as specified |
| BlockValues.Median | pallets/price-aggregator/src/lib.rs:107-124 | the loops give the median that `MiddleIsCentralIff` and `MedianIgnoresOrder` are about |
| BlockValues.SortedIsUnique | pallets/price-aggregator/src/lib.rs:112-113 | sorting has one result |
| BlockValues.MiddleIsCentralIff | pallets/price-aggregator/src/lib.rs:115-123 | no value of the lower half exceeds the median and none of the upper half is below it, exactly when the sum of the two middle values does not stop at the largest price or the lower one is at most half of it |
| BlockValues.MedianStopsAtTheLargestPrice | pallets/price-aggregator/src/lib.rs:115-123 | two values at the largest price whose median is half of it |
| BlockValues.MedianIgnoresOrder | pallets/price-aggregator/src/lib.rs:112-113 | the median does not depend on the order in which the values came |
| BlockValues.ProcessedIsBounded | pallets/price-aggregator/src/lib.rs:84-125 | what a block is processed into never exceeds its largest value |
| BlockValues.Average | pallets/price-aggregator/src/lib.rs:91-101 | the loop gives the mean of the values that `AverageIsBounded` is about |

## Left out

- Runs.ContractTotalsAgree: for a contract unregistered in the current period it gives a bound and no equality; `Scenarios.ReregisteredTotalFallsShort` shows why.
- Pallet.DappStaking.ClaimUnlocked: which entries of an exiting account are cleared is left open, since the limit given to the storage layer does not count entries written in the same block.
- Pallet.DappStaking.Stake: the era totals are held as a value and not as an object of its own; so are reward spans, tier rewards and the cleanup marker, whose in-place updates are single assignments.
- EraPayouts.StakerPayoutsStayWithinPool: is conditional on the unstakes of the era; `Scenarios.StakerPoolCanBeExceeded` shows a run without the condition, and how far the payouts exceed the pool in general is not stated.
- TierAssignment.AssignmentIsGreedy: is about tiers with their own number, as are LiabilityWithinShare, TierNeverOverpays and Runs.TierPayoutsStayWithinShare; `TierAssignment.CapacityKeptIff` and `TierAssignment.ShareKeptIff` show that the others do not keep these bounds.
- TierAssignment.RankRewardIsLargest: is about tiers with their own number, as is StoredRankIs; the members and ranks of the others cannot be told apart in the stored assignment.
- Unlocks.ClaimPaysAllThatIsDue: is about runs in which the account relocks nothing; a relock takes everything that is unlocking, as `Effects.RelockMovesEverything` states.
- PriceAggregator.WindowPushesMean: is about windows whose sum and count do not overflow; beyond that the price of a block is dropped.
- BaseFee.IdealIsQuotient: is about factors whose product does not saturate, and StepIsNearest about fees of at most 128 bits, to which the code cuts the fee.
- BaseFee.EntersRangeIff: is about an ideal within the bounds; for one beyond them on the other side, `BaseFee.StepCanPassOverTheRange` shows that whether the fee gets within them depends on where its steps land.
- InflationCycle.EveryCycleStaysWithinBudget: needs eras of at least two blocks; `InflationCycle.RecalculatedOnTimeIff` shows why.
- The number of staked contracts in a ledger: several paths change the entries without it; only its upper bound is stated.
- Forced era and subperiod changes, dApp owners and reward beneficiaries, delegated claims, events, weights and storage migrations.
- The default that replaces a tier assignment exceeding its bounded capacity, which cannot be exceeded by registered contracts.
- Overflow of balances, eras and blocks, and saturation of their sums.
- Forced inflation recalculation, and the payout cap on the issuance.
- Maintenance mode in the inflation cycle: the clock is assumed to run.
- The pot payout to block authors and the assembling of collators in collator selection.
- Oracle currencies other than the native one.
- Unified accounts, ethereum-checked, collective proxy, vesting migration, chain extensions, precompiles, XCM tools and the collator binary.

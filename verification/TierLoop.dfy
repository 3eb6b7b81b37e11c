/** The tier assignment as the pallet runs it: collect the stakes, sort them, then fill one
    tier after the other. */
module TierLoop {
  import opened Arithmetic
  import opened MapSums
  import opened StakeTypes
  import opened ContractStake
  import opened Tiers
  import opened TierAssignment
  import opened Protocol

  // ---------- collecting and sorting ----------

  /** `stakes` lists the dApps of `ids` with stake in `era` of `period`. */
  ghost predicate Lists(contracts: map<DAppId, ContractStakeAmount>, ids: set<DAppId>, era: EraNumber, period: PeriodNumber, stakes: Ranking) {
    && Distinct(stakes)
    && (forall i :: 0 <= i < |stakes| ==>
          && stakes[i].0 in ids && stakes[i].0 in contracts
          && contracts[stakes[i].0].Get(era, period).Some?
          && contracts[stakes[i].0].Get(era, period).value.total == stakes[i].1 > 0)
    && (forall id :: id in ids && id in contracts && contracts[id].Get(era, period).Some?
                     && contracts[id].Get(era, period).value.total > 0 ==>
          exists i :: 0 <= i < |stakes| && stakes[i].0 == id)
  }

  method CollectStakes(contracts: map<DAppId, ContractStakeAmount>, era: EraNumber, period: PeriodNumber) returns (stakes: Ranking)
    ensures Lists(contracts, contracts.Keys, era, period, stakes)
  {
    stakes := [];
    var seen: set<DAppId> := {};
    var rest := contracts.Keys;
    while rest != {}
      invariant seen + rest == contracts.Keys && seen !! rest
      invariant Lists(contracts, seen, era, period, stakes)
      decreases |rest|
    {
      var id :| id in rest;
      rest := rest - {id};
      var amount := contracts[id].Get(era, period);
      ghost var listed, done := stakes, seen;
      seen := seen + {id};
      if amount.Some? && amount.value.total != 0 {
        stakes := stakes + [(id, amount.value.total)];
        ListsMore(contracts, done, era, period, listed, id);
      } else {
        assert Lists(contracts, seen, era, period, stakes);
      }
    }
    assert seen == contracts.Keys;
  }

  lemma ListsMore(contracts: map<DAppId, ContractStakeAmount>, ids: set<DAppId>, era: EraNumber, period: PeriodNumber, stakes: Ranking, id: DAppId)
    requires Lists(contracts, ids, era, period, stakes) && id in contracts && id !in ids
    requires contracts[id].Get(era, period).Some? && contracts[id].Get(era, period).value.total > 0
    ensures Lists(contracts, ids + {id}, era, period, stakes + [(id, contracts[id].Get(era, period).value.total)])
  {
    var stakes' := stakes + [(id, contracts[id].Get(era, period).value.total)];
    forall other | other in ids + {id} && other in contracts && contracts[other].Get(era, period).Some?
                   && contracts[other].Get(era, period).value.total > 0
      ensures exists i :: 0 <= i < |stakes'| && stakes'[i].0 == other
    {
      if other == id {
        assert stakes'[|stakes|].0 == id;
      } else {
        var i :| 0 <= i < |stakes| && stakes[i].0 == other;
        assert stakes'[i].0 == other;
      }
    }
  }

  lemma InsertedDescends(sorted: Ranking, i: nat, entry: (DAppId, Balance))
    requires Descending(sorted) && i <= |sorted|
    requires i > 0 ==> sorted[i - 1].1 >= entry.1
    requires i < |sorted| ==> sorted[i].1 < entry.1
    ensures Descending(sorted[..i] + [entry] + sorted[i..])
  {
    var r := sorted[..i] + [entry] + sorted[i..];
    forall a, b | 0 <= a < b < |r|
      ensures r[a].1 >= r[b].1
    {
      assert r[a] == if a < i then sorted[a] else if a == i then entry else sorted[a - 1];
      assert r[b] == if b < i then sorted[b] else if b == i then entry else sorted[b - 1];
    }
  }

  method InsertByStake(sorted: Ranking, entry: (DAppId, Balance)) returns (r: Ranking)
    requires Descending(sorted)
    ensures Descending(r) && multiset(r) == multiset(sorted) + multiset{entry}
  {
    var i := |sorted|;
    while i > 0 && sorted[i - 1].1 < entry.1
      invariant 0 <= i <= |sorted|
      invariant i < |sorted| ==> sorted[i].1 < entry.1
    {
      i := i - 1;
    }
    InsertedDescends(sorted, i, entry);
    assert sorted == sorted[..i] + sorted[i..];
    r := sorted[..i] + [entry] + sorted[i..];
  }

  /** Largest stake first; the order of equal stakes is not part of the contract. */
  method SortByStake(stakes: Ranking) returns (sorted: Ranking)
    ensures Descending(sorted) && multiset(sorted) == multiset(stakes)
  {
    sorted := [];
    for i := 0 to |stakes|
      invariant Descending(sorted) && multiset(sorted) == multiset(stakes[..i])
    {
      sorted := InsertByStake(sorted, stakes[i]);
      assert stakes[..i + 1] == stakes[..i] + [stakes[i]];
    }
    assert stakes[..|stakes|] == stakes;
  }

  /** A reordering of a list of all staked dApps is a ranking once it descends. */
  lemma SortedIsRanking(contracts: map<DAppId, ContractStakeAmount>, era: EraNumber, period: PeriodNumber, stakes: Ranking, sorted: Ranking)
    requires Lists(contracts, contracts.Keys, era, period, stakes)
    requires Descending(sorted) && multiset(sorted) == multiset(stakes)
    ensures IsRanking(contracts, era, period, sorted)
  {
    PermutationIsDistinct(stakes, sorted);
    forall i | 0 <= i < |sorted|
      ensures sorted[i] in stakes
    {
      assert sorted[i] in multiset(sorted);
    }
    forall id | id in contracts && contracts[id].Get(era, period).Some? && contracts[id].Get(era, period).value.total > 0
      ensures exists i :: 0 <= i < |sorted| && sorted[i].0 == id
    {
      var j :| 0 <= j < |stakes| && stakes[j].0 == id;
      assert stakes[j] in multiset(stakes);
      assert stakes[j] in sorted;
      var i :| 0 <= i < |sorted| && sorted[i] == stakes[j];
    }
  }

  lemma PermutationIsDistinct(stakes: Ranking, sorted: Ranking)
    requires Distinct(stakes) && multiset(sorted) == multiset(stakes)
    ensures Distinct(sorted)
  {
    forall i, j | 0 <= i < j < |sorted|
      ensures sorted[i].0 != sorted[j].0
    {
      if sorted[i].0 == sorted[j].0 {
        SameIdSameEntry(stakes, sorted, i, j);
        TwiceInMultiset(sorted, i, j);
        DistinctOnce(stakes, sorted[i]);
      }
    }
  }

  lemma SameIdSameEntry(stakes: Ranking, sorted: Ranking, i: nat, j: nat)
    requires Distinct(stakes) && multiset(sorted) == multiset(stakes)
    requires i < |sorted| && j < |sorted| && sorted[i].0 == sorted[j].0
    ensures sorted[i] == sorted[j] && sorted[i] in stakes
  {
    assert sorted[i] in multiset(sorted) && sorted[j] in multiset(sorted);
    assert sorted[i] in stakes && sorted[j] in stakes;
    var a :| 0 <= a < |stakes| && stakes[a] == sorted[i];
    var b :| 0 <= b < |stakes| && stakes[b] == sorted[j];
  }

  lemma TwiceInMultiset(s: Ranking, i: nat, j: nat)
    requires i < j < |s| && s[i] == s[j]
    ensures multiset(s)[s[i]] >= 2
  {
    assert s == s[..j] + [s[j]] + s[j + 1..];
    assert s[i] in s[..j];
  }

  lemma DistinctOnce(s: Ranking, entry: (DAppId, Balance))
    requires Distinct(s)
    ensures multiset(s)[entry] <= 1
  {
    if multiset(s)[entry] > 0 {
      assert entry in s;
      var a :| 0 <= a < |s| && s[a] == entry;
      assert s == s[..a] + [s[a]] + s[a + 1..];
      assert entry !in s[..a] && entry !in s[a + 1..];
    }
  }

  method RankDApps(contracts: map<DAppId, ContractStakeAmount>, era: EraNumber, period: PeriodNumber) returns (ranking: Ranking)
    ensures IsRanking(contracts, era, period, ranking)
  {
    var stakes := CollectStakes(contracts, era, period);
    ranking := SortByStake(stakes);
    SortedIsRanking(contracts, era, period, stakes, ranking);
  }

  // ---------- filling the tiers ----------

  ghost function RankValue(): (DAppId, RankedTier) -> nat {
    (id: DAppId, ranked: RankedTier) => ranked.rank
  }

  /** The sum of the ranks of all dApps in a tier. */
  method SumRanks(slots: map<DAppId, RankedTier>) returns (total: nat)
    ensures total == Sum(slots, RankValue())
  {
    total := 0;
    var rest := slots;
    while rest != map[]
      invariant total + Sum(rest, RankValue()) == Sum(slots, RankValue())
      decreases |rest|
    {
      var id :| id in rest;
      total := total + rest[id].rank;
      SumRemove(rest, id, RankValue());
      assert |rest.Keys - {id}| < |rest.Keys|;
      rest := rest - {id};
    }
  }

  /** The dApps at the positions `low .. high` with their tier and rank. */
  function Between(tiers: seq<nat>, ranks: seq<nat>, ranking: Ranking, low: nat, high: nat): map<DAppId, RankedTier>
    requires low <= high <= |tiers| == |ranks| && high <= |ranking|
    decreases high
  {
    if low == high then map[]
    else
      Between(tiers, ranks, ranking, low, high - 1)
        [ranking[high - 1].0 := RankedTier.NewSaturated(tiers[high - 1] % 256, ranks[high - 1])]
  }

  /** One tier on top of the ones before it. */
  lemma {:induction false} TierOnTop(tiers: seq<nat>, ranks: seq<nat>, ranking: Ranking, low: nat, high: nat)
    requires low <= high <= |tiers| == |ranks| && high <= |ranking|
    ensures Assigned(tiers, ranks, ranking, low) + Between(tiers, ranks, ranking, low, high) == Assigned(tiers, ranks, ranking, high)
    decreases high
  {
    if low == high {
      assert Assigned(tiers, ranks, ranking, low) + map[] == Assigned(tiers, ranks, ranking, low);
    } else {
      TierOnTop(tiers, ranks, ranking, low, high - 1);
      UnionUpdate(Assigned(tiers, ranks, ranking, low), Between(tiers, ranks, ranking, low, high - 1),
                  ranking[high - 1].0, RankedTier.NewSaturated(tiers[high - 1] % 256, ranks[high - 1]));
    }
  }

  lemma {:induction false} NotBefore(tiers: seq<nat>, ranks: seq<nat>, ranking: Ranking, low: nat, high: nat, i: nat)
    requires low <= high <= |tiers| == |ranks| && high <= i < |ranking| && Distinct(ranking)
    ensures ranking[i].0 !in Between(tiers, ranks, ranking, low, high)
    decreases high
  {
    if low < high {
      NotBefore(tiers, ranks, ranking, low, high - 1, i);
    }
  }

  lemma OneMore(slots: map<DAppId, RankedTier>, id: DAppId, tier: nat, rank: nat)
    requires id !in slots && rank <= MAX_RANK
    ensures |slots[id := RankedTier.NewSaturated(tier, rank)]| == |slots| + 1
    ensures Sum(slots[id := RankedTier.NewSaturated(tier, rank)], RankValue()) == Sum(slots, RankValue()) + rank
  {
    SumInsert(slots, id, RankedTier.NewSaturated(tier, rank), RankValue());
  }

  /** One more position adds one dApp and its rank. */
  lemma BetweenStep(tiers: seq<nat>, ranks: seq<nat>, ranking: Ranking, low: nat, high: nat)
    requires low <= high < |tiers| == |ranks| && high < |ranking| && Distinct(ranking) && BoundedRanks(ranks)
    ensures |Between(tiers, ranks, ranking, low, high + 1)| == |Between(tiers, ranks, ranking, low, high)| + 1
    ensures Sum(Between(tiers, ranks, ranking, low, high + 1), RankValue())
            == Sum(Between(tiers, ranks, ranking, low, high), RankValue()) + ranks[high]
  {
    NotBefore(tiers, ranks, ranking, low, high, high);
    OneMore(Between(tiers, ranks, ranking, low, high), ranking[high].0, tiers[high] % 256, ranks[high]);
  }

  /** A tier has as many dApps as positions, and the sum of their ranks. */
  lemma {:induction false} TierContents(tiers: seq<nat>, ranks: seq<nat>, ranking: Ranking, low: nat, high: nat)
    requires low <= high <= |tiers| == |ranks| && high <= |ranking| && Distinct(ranking) && BoundedRanks(ranks)
    ensures |Between(tiers, ranks, ranking, low, high)| == high - low
    ensures Sum(Between(tiers, ranks, ranking, low, high), RankValue()) == RankTotal(ranks, low, high)
    decreases high
  {
    if low < high {
      TierContents(tiers, ranks, ranking, low, high - 1);
      BetweenStep(tiers, ranks, ranking, low, high - 1);
    }
  }

  lemma UnionUpdate(placed: map<DAppId, RankedTier>, slots: map<DAppId, RankedTier>, id: DAppId, ranked: RankedTier)
    ensures placed + slots[id := ranked] == (placed + slots)[id := ranked]
  {
  }

  lemma {:induction false} AssignedSize(tiers: seq<nat>, ranks: seq<nat>, ranking: Ranking, count: nat)
    requires count <= |tiers| == |ranks| && count <= |ranking| && Distinct(ranking)
    ensures |Assigned(tiers, ranks, ranking, count)| == count
  {
    if count > 0 {
      AssignedSize(tiers, ranks, ranking, count - 1);
      AssignedAt(tiers, ranks, ranking, count - 1, count - 1);
      OneMoreKey(Assigned(tiers, ranks, ranking, count - 1), ranking[count - 1].0,
                 RankedTier.NewSaturated(tiers[count - 1] % 256, ranks[count - 1]));
    }
  }

  lemma OneMoreKey(slots: map<DAppId, RankedTier>, id: DAppId, ranked: RankedTier)
    requires id !in slots
    ensures |slots[id := ranked]| == |slots| + 1
  {
    assert slots[id := ranked].Keys == slots.Keys + {id};
    assert |slots| == |slots.Keys| && |slots[id := ranked]| == |slots[id := ranked].Keys|;
  }

  /** What the positions `low .. high` of the ranking get in `tier`. */
  ghost predicate Plans(rankOf: Balance -> nat, ranking: Ranking, tier: nat, tiers: seq<nat>, ranks: seq<nat>, low: nat, high: nat) {
    && high <= |tiers| == |ranks| && high <= |ranking|
    && forall i {:trigger tiers[i]} {:trigger ranks[i]} :: low <= i < high ==> tiers[i] == tier && ranks[i] == rankOf(ranking[i].1)
  }

  /** Places dApps from position `low` on into `tier` while it has room and they reach its
      threshold. */
  method FillTier(ranking: Ranking, low: nat, tier: nat, capacity: nat, lowerBound: Balance, rankOf: Balance -> nat,
                  ghost tiers: seq<nat>, ghost ranks: seq<nat>)
    returns (slots: map<DAppId, RankedTier>)
    requires low <= |ranking|
    requires Plans(rankOf, ranking, tier, tiers, ranks, low, low + Taken(ranking, low, lowerBound, capacity))
    ensures slots == Between(tiers, ranks, ranking, low, low + Taken(ranking, low, lowerBound, capacity))
  {
    ghost var high := low + Taken(ranking, low, lowerBound, capacity);
    slots := map[];
    var i, room := low, capacity;
    while room > 0 && i < |ranking| && ranking[i].1 >= lowerBound
      invariant low <= i <= high
      invariant i + Taken(ranking, i, lowerBound, room) == high
      invariant slots == Between(tiers, ranks, ranking, low, i)
    {
      assert tiers[i] == tier;
      slots := slots[ranking[i].0 := RankedTier.NewSaturated(tier % 256, rankOf(ranking[i].1))];
      i, room := i + 1, room - 1;
    }
  }

  lemma TierIsPlanned(c: TiersConfiguration, enabled: bool, ranking: Ranking, tier: nat)
    requires ConfigOk(c) && tier < |c.slotsPerTier|
    ensures var tiers := TiersOf(c, ranking);
            Plans(RankBetween(enabled, c.tierThresholds[tier], Upper(c, tier)), ranking, tier, tiers,
                  RanksOf(c, enabled, ranking, tiers), Offset(c, ranking, tier), Offset(c, ranking, tier + 1))
  {
    OffsetIsMonotone(c, ranking, tier + 1, |c.slotsPerTier|);
    forall i | Offset(c, ranking, tier) <= i < Offset(c, ranking, tier + 1)
      ensures TiersOf(c, ranking)[i] == tier
    {
      TierAt(c, ranking, i, tier);
    }
  }

  method CalculateTierRewards(c: TiersConfiguration, pool: Balance) returns (rewards: seq<Balance>)
    requires ConfigOk(c)
    ensures |rewards| == |c.slotsPerTier| && forall t :: 0 <= t < |rewards| ==> rewards[t] == TierReward(c, pool, t)
  {
    rewards := [];
    for t := 0 to |c.slotsPerTier|
      invariant |rewards| == t && forall u :: 0 <= u < t ==> rewards[u] == TierReward(c, pool, u)
    {
      rewards := rewards + [TierReward(c, pool, t)];
    }
  }

  method RankRewardOf(tierReward: Balance, capacity: nat, slots: map<DAppId, RankedTier>) returns (reward: Balance)
    ensures reward == RewardPerRank(tierReward, capacity, |slots|, Sum(slots, RankValue()))
    ensures var n, left := Sum(slots, RankValue()), tierReward * SatSub(capacity, |slots|);
            && reward <= tierReward / 10 && reward * n <= left
            && (n > 0 ==> reward == tierReward / 10 || (reward + 1) * n > left)
  {
    var ranksSum := SumRanks(slots);
    RewardPerRankIsLargest(tierReward, capacity, |slots|, ranksSum);
    if ranksSum == 0 {
      return 0;
    }
    var remaining := tierReward * SatSub(capacity, |slots|);
    var expected := (tierReward / MAX_RANK) * ranksSum;
    reward := Min(expected, remaining) / ranksSum;
  }

  /** Everything about a filled tier on top of the tiers before it. */
  lemma FilledTier(tiers: seq<nat>, ranks: seq<nat>, ranking: Ranking, placed: map<DAppId, RankedTier>, slots: map<DAppId, RankedTier>, high: nat)
    requires |placed| <= high <= |tiers| == |ranks| && high <= |ranking| && Distinct(ranking) && BoundedRanks(ranks)
    requires placed == Assigned(tiers, ranks, ranking, |placed|) && slots == Between(tiers, ranks, ranking, |placed|, high)
    ensures placed + slots == Assigned(tiers, ranks, ranking, high) && |placed + slots| == high
    ensures |slots| == high - |placed| && Sum(slots, RankValue()) == RankTotal(ranks, |placed|, high)
  {
    TierOnTop(tiers, ranks, ranking, |placed|, high);
    TierContents(tiers, ranks, ranking, |placed|, high);
    AssignedSize(tiers, ranks, ranking, high);
  }

  /** What filling the tiers has to arrive at, tier by tier: where each one starts, which
      positions it takes, and its reward per rank. */
  ghost predicate PlansTier(c: TiersConfiguration, enabled: bool, ranking: Ranking, tierRewards: seq<Balance>, offsets: seq<nat>,
                            tiers: seq<nat>, ranks: seq<nat>, rankRewards: seq<Balance>, t: nat)
    requires ConfigOk(c) && |tierRewards| == |rankRewards| == |c.slotsPerTier| && |offsets| == |c.slotsPerTier| + 1
    requires t < |c.slotsPerTier|
  {
    && offsets[t] <= |ranking|
    && offsets[t + 1] == offsets[t] + Taken(ranking, offsets[t], c.tierThresholds[t], c.slotsPerTier[t])
    && Plans(RankBetween(enabled, c.tierThresholds[t], Upper(c, t)), ranking, t, tiers, ranks, offsets[t], offsets[t + 1])
    && rankRewards[t] == RewardPerRank(tierRewards[t], c.slotsPerTier[t], offsets[t + 1] - offsets[t],
                                       RankTotal(ranks, offsets[t], offsets[t + 1]))
  }

  ghost predicate PlansTiers(c: TiersConfiguration, enabled: bool, ranking: Ranking, tierRewards: seq<Balance>, offsets: seq<nat>,
                             tiers: seq<nat>, ranks: seq<nat>, rankRewards: seq<Balance>)
    requires ConfigOk(c) && |tierRewards| == |rankRewards| == |c.slotsPerTier| && |offsets| == |c.slotsPerTier| + 1
  {
    forall t :: 0 <= t < |c.slotsPerTier| ==> PlansTier(c, enabled, ranking, tierRewards, offsets, tiers, ranks, rankRewards, t)
  }

  lemma TierIsPlannedAt(c: TiersConfiguration, enabled: bool, ranking: Ranking, period: PeriodNumber, pool: Balance, offsets: seq<nat>, t: nat)
    requires ConfigOk(c) && |offsets| == |c.slotsPerTier| + 1 && t < |c.slotsPerTier|
    requires offsets[t] == Offset(c, ranking, t) && offsets[t + 1] == Offset(c, ranking, t + 1)
    ensures var whole, tiers := TierRewards(c, enabled, ranking, period, pool), TiersOf(c, ranking);
            PlansTier(c, enabled, ranking, whole.rewards, offsets, tiers, RanksOf(c, enabled, ranking, tiers), whole.rankRewards, t)
  {
    TierIsPlanned(c, enabled, ranking, t);
    TierRewardsAt(c, enabled, ranking, period, pool, t);
  }

  method PlaceTier(c: TiersConfiguration, enabled: bool, ranking: Ranking, tierRewards: seq<Balance>, t: nat, upperBound: Balance,
                   placed: map<DAppId, RankedTier>,
                   ghost offsets: seq<nat>, ghost tiers: seq<nat>, ghost ranks: seq<nat>, ghost expected: seq<Balance>)
    returns (r: map<DAppId, RankedTier>, rankReward: Balance)
    requires ConfigOk(c) && |tierRewards| == |expected| == |c.slotsPerTier| && |offsets| == |c.slotsPerTier| + 1
    requires Distinct(ranking) && BoundedRanks(ranks) && |tiers| == |ranks| <= |ranking|
    requires t < |c.slotsPerTier| && PlansTiers(c, enabled, ranking, tierRewards, offsets, tiers, ranks, expected)
    requires |placed| == offsets[t] <= |tiers| && placed == Assigned(tiers, ranks, ranking, offsets[t]) && upperBound == Upper(c, t)
    ensures |r| == offsets[t + 1] <= |tiers| && r == Assigned(tiers, ranks, ranking, offsets[t + 1])
    ensures rankReward == expected[t]
  {
    assert PlansTier(c, enabled, ranking, tierRewards, offsets, tiers, ranks, expected, t);
    var slots := FillTier(ranking, |placed|, t, c.slotsPerTier[t], c.tierThresholds[t],
                          RankBetween(enabled, c.tierThresholds[t], upperBound), tiers, ranks);
    FilledTier(tiers, ranks, ranking, placed, slots, offsets[t + 1]);
    rankReward := RankRewardOf(tierRewards[t], c.slotsPerTier[t], slots);
    r := placed + slots;
  }

  /** Fills one tier after the other, from the best one down. */
  method FillTiers(c: TiersConfiguration, enabled: bool, ranking: Ranking, tierRewards: seq<Balance>,
                   ghost offsets: seq<nat>, ghost tiers: seq<nat>, ghost ranks: seq<nat>, ghost expected: seq<Balance>)
    returns (placed: map<DAppId, RankedTier>, rankRewards: seq<Balance>)
    requires ConfigOk(c) && |tierRewards| == |expected| == |c.slotsPerTier| && |offsets| == |c.slotsPerTier| + 1
    requires Distinct(ranking) && BoundedRanks(ranks) && |tiers| == |ranks| <= |ranking|
    requires offsets[0] == 0 && offsets[|c.slotsPerTier|] == |tiers|
    requires PlansTiers(c, enabled, ranking, tierRewards, offsets, tiers, ranks, expected)
    ensures placed == Assigned(tiers, ranks, ranking, |tiers|) && rankRewards == expected
  {
    placed, rankRewards := map[], [];
    var upperBound := 0;
    for t := 0 to |c.slotsPerTier|
      invariant |placed| == offsets[t] <= |tiers| && placed == Assigned(tiers, ranks, ranking, offsets[t])
      invariant upperBound == Upper(c, t)
      invariant rankRewards == expected[..t]
    {
      var rankReward;
      placed, rankReward := PlaceTier(c, enabled, ranking, tierRewards, t, upperBound, placed, offsets, tiers, ranks, expected);
      rankRewards := rankRewards + [rankReward];
      upperBound := c.tierThresholds[t];
    }
  }

  /** Where every tier starts in the ranking, and where the last one ends. */
  function Offsets(c: TiersConfiguration, ranking: Ranking): (offsets: seq<nat>)
    requires ConfigOk(c)
    ensures |offsets| == |c.slotsPerTier| + 1
    ensures forall t :: 0 <= t < |offsets| ==> offsets[t] == Offset(c, ranking, t)
  {
    seq(|c.slotsPerTier| + 1, t requires 0 <= t < |c.slotsPerTier| + 1 => Offset(c, ranking, t))
  }

  lemma TiersArePlanned(c: TiersConfiguration, enabled: bool, ranking: Ranking, period: PeriodNumber, pool: Balance)
    requires ConfigOk(c)
    ensures var whole, tiers := TierRewards(c, enabled, ranking, period, pool), TiersOf(c, ranking);
            PlansTiers(c, enabled, ranking, whole.rewards, Offsets(c, ranking), tiers, RanksOf(c, enabled, ranking, tiers), whole.rankRewards)
  {
    var whole, tiers := TierRewards(c, enabled, ranking, period, pool), TiersOf(c, ranking);
    forall t | 0 <= t < |c.slotsPerTier|
      ensures PlansTier(c, enabled, ranking, whole.rewards, Offsets(c, ranking), tiers, RanksOf(c, enabled, ranking, tiers), whole.rankRewards, t)
    {
      TierIsPlannedAt(c, enabled, ranking, period, pool, Offsets(c, ranking), t);
    }
  }

  /** `get_dapp_tier_assignment_and_rewards`, after the sort. */
  method AssignToTiers(c: TiersConfiguration, enabled: bool, ranking: Ranking, period: PeriodNumber, pool: Balance)
    returns (r: DAppTierRewards)
    requires ConfigOk(c) && Distinct(ranking)
    ensures r == TierRewards(c, enabled, ranking, period, pool)
  {
    var tierRewards := CalculateTierRewards(c, pool);
    ghost var whole := TierRewards(c, enabled, ranking, period, pool);
    ghost var tiers := TiersOf(c, ranking);
    ghost var ranks := RanksOf(c, enabled, ranking, tiers);
    RanksAreBounded(c, enabled, ranking, tiers);
    assert tierRewards == whole.rewards;
    TiersArePlanned(c, enabled, ranking, period, pool);
    var placed, rankRewards := FillTiers(c, enabled, ranking, tierRewards, Offsets(c, ranking), tiers, ranks, whole.rankRewards);
    r := DAppTierRewards(placed, tierRewards, period, rankRewards);
  }
}

/** Assignment of dApps to tiers at the end of an era, and the claims on the result. The
    dApps come ranked by stake, largest first. */
module TierAssignment {
  import opened Arithmetic
  import opened StakeTypes
  import opened MapSums
  import opened Tiers

  type Ranking = seq<(DAppId, Balance)>

  ghost predicate Distinct(ranking: Ranking) {
    forall i, j :: 0 <= i < j < |ranking| ==> ranking[i].0 != ranking[j].0
  }

  ghost predicate Descending(ranking: Ranking) {
    forall i, j :: 0 <= i < j < |ranking| ==> ranking[i].1 >= ranking[j].1
  }

  /** How many of the dApps from `from` on enter a tier with bound `lower` and `capacity`. */
  function Taken(ranking: Ranking, from: nat, lower: Balance, capacity: nat): (n: nat)
    requires from <= |ranking|
    ensures n <= capacity && from + n <= |ranking|
    decreases |ranking| - from
  {
    if capacity == 0 || from == |ranking| || ranking[from].1 < lower then 0
    else 1 + Taken(ranking, from + 1, lower, capacity - 1)
  }

  predicate ConfigOk(c: TiersConfiguration) {
    |c.slotsPerTier| == |c.rewardPortion| == |c.tierThresholds|
  }

  /** Number of dApps in the tiers before `tier`. */
  function Offset(c: TiersConfiguration, ranking: Ranking, tier: nat): (n: nat)
    requires ConfigOk(c) && tier <= |c.slotsPerTier|
    ensures n <= |ranking|
  {
    if tier == 0 then 0
    else
      var from := Offset(c, ranking, tier - 1);
      from + Taken(ranking, from, c.tierThresholds[tier - 1], c.slotsPerTier[tier - 1])
  }

  function Upper(c: TiersConfiguration, tier: nat): Balance
  {
    if 0 < tier <= |c.tierThresholds| then c.tierThresholds[tier - 1] else 0
  }

  /** The rank by stake in a tier with the given bounds. */
  function RankBetween(enabled: bool, lower: Balance, upper: Balance): Balance -> nat {
    (amount: Balance) => if enabled then FindRank(lower, upper, amount) else 0
  }

  function RankOf(c: TiersConfiguration, enabled: bool, tier: nat, amount: Balance): nat {
    if tier < |c.tierThresholds| then RankBetween(enabled, c.tierThresholds[tier], Upper(c, tier))(amount) else 0
  }

  /** The tier of the `i`-th dApp, searched from `tier` on. */
  function TierFrom(c: TiersConfiguration, ranking: Ranking, i: nat, tier: nat): (t: nat)
    requires ConfigOk(c) && tier < |c.slotsPerTier|
    requires Offset(c, ranking, tier) <= i < Offset(c, ranking, |c.slotsPerTier|)
    ensures tier <= t < |c.slotsPerTier| && Offset(c, ranking, t) <= i < Offset(c, ranking, t + 1)
    decreases |c.slotsPerTier| - tier
  {
    if i < Offset(c, ranking, tier + 1) then tier else TierFrom(c, ranking, i, tier + 1)
  }

  /** The tier of every dApp that got into one, by position in the ranking. */
  function TiersOf(c: TiersConfiguration, ranking: Ranking): (tiers: seq<nat>)
    requires ConfigOk(c)
    ensures |tiers| == Offset(c, ranking, |c.slotsPerTier|)
  {
    seq(Offset(c, ranking, |c.slotsPerTier|), i requires 0 <= i < Offset(c, ranking, |c.slotsPerTier|) =>
      TierFrom(c, ranking, i, 0))
  }

  function RanksOf(c: TiersConfiguration, enabled: bool, ranking: Ranking, tiers: seq<nat>): (ranks: seq<nat>)
    requires |tiers| <= |ranking|
    ensures |ranks| == |tiers|
  {
    seq(|tiers|, i requires 0 <= i < |tiers| => RankOf(c, enabled, tiers[i], ranking[i].1))
  }

  /** The first `count` dApps with their tier and rank. */
  function Assigned(tiers: seq<nat>, ranks: seq<nat>, ranking: Ranking, count: nat): map<DAppId, RankedTier>
    requires count <= |tiers| == |ranks| && count <= |ranking|
  {
    if count == 0 then map[]
    else
      Assigned(tiers, ranks, ranking, count - 1)
        [ranking[count - 1].0 := RankedTier.NewSaturated(tiers[count - 1] % 256, ranks[count - 1])]
  }

  /** Sum of the ranks at the positions `from .. upto`. */
  function RankTotal(ranks: seq<nat>, from: nat, upto: nat): nat
    requires from <= upto <= |ranks|
    decreases upto
  {
    if from == upto then 0 else RankTotal(ranks, from, upto - 1) + ranks[upto - 1]
  }

  function TierReward(c: TiersConfiguration, pool: Balance, tier: nat): Balance
    requires ConfigOk(c) && tier < |c.slotsPerTier|
  {
    if c.slotsPerTier[tier] == 0 then 0
    else MulNearest(PERMILL, c.rewardPortion[tier], pool) / c.slotsPerTier[tier]
  }

  /** Reward per rank: a tenth of the tier reward, unless the reward of the empty slots
      does not cover it. */
  function RewardPerRank(tierReward: Balance, capacity: nat, members: nat, ranks: nat): Balance {
    if ranks == 0 then 0
    else Min((tierReward / MAX_RANK) * ranks, tierReward * SatSub(capacity, members)) / ranks
  }

  function RankReward(c: TiersConfiguration, ranking: Ranking, ranks: seq<nat>, pool: Balance, tier: nat): Balance
    requires ConfigOk(c) && tier < |c.slotsPerTier| && |ranks| == Offset(c, ranking, |c.slotsPerTier|)
  {
    var low := Offset(c, ranking, tier);
    var high := Offset(c, ranking, tier + 1);
    OffsetIsMonotone(c, ranking, tier + 1, |c.slotsPerTier|);
    RewardPerRank(TierReward(c, pool, tier), c.slotsPerTier[tier], high - low, RankTotal(ranks, low, high))
  }

  datatype DAppTierRewards = DAppTierRewards(
    dapps: map<DAppId, RankedTier>,
    rewards: seq<Balance>,
    period: PeriodNumber,
    rankRewards: seq<Balance>)
  {
    function TierShare(ranked: RankedTier): Balance {
      (if ranked.tier < |rewards| then rewards[ranked.tier] else 0)
      + (if ranked.tier < |rankRewards| then rankRewards[ranked.tier] else 0) * ranked.rank
    }

    function TryClaim(id: DAppId): Option<(DAppTierRewards, Balance, RankedTier)> {
      if id !in dapps then None
      else Some((this.(dapps := dapps - {id}), TierShare(dapps[id]), dapps[id]))
    }
  }

  function TierRewards(c: TiersConfiguration, enabled: bool, ranking: Ranking, period: PeriodNumber, pool: Balance): DAppTierRewards
    requires ConfigOk(c)
  {
    var tiers := TiersOf(c, ranking);
    var ranks := RanksOf(c, enabled, ranking, tiers);
    var n := |c.slotsPerTier|;
    DAppTierRewards(
      Assigned(tiers, ranks, ranking, |tiers|),
      seq(n, t requires 0 <= t < n => TierReward(c, pool, t)),
      period,
      seq(n, t requires 0 <= t < n => RankReward(c, ranking, ranks, pool, t)))
  }

  // ---------- tier numbers ----------

  /** The number a tier is stored under: its position cut to a byte, and at most 15. */
  function StoredTier(tier: nat): nat {
    Min(tier % 256, 15)
  }

  /** No other of `count` tiers is stored under the number of `tier`. */
  predicate OwnNumber(count: nat, tier: nat) {
    tier < count && if tier < 15 then count <= 256 + tier else count <= 16
  }

  lemma OwnNumberIff(count: nat, tier: nat)
    ensures tier < count ==> (OwnNumber(count, tier) <==> forall t: nat :: t < count ==> (StoredTier(t) == tier <==> t == tier))
  {
    if tier < 15 && count > 256 + tier {
      assert StoredTier(256 + tier) == tier;
    } else if tier == 15 && count > 16 {
      assert StoredTier(16) == tier;
    } else if tier > 15 {
      assert StoredTier(tier) != tier;
    }
  }

  // ---------- greedy optimality ----------

  lemma {:induction false} OffsetIsMonotone(c: TiersConfiguration, ranking: Ranking, s: nat, t: nat)
    requires ConfigOk(c) && s <= t <= |c.slotsPerTier|
    ensures Offset(c, ranking, s) <= Offset(c, ranking, t)
    decreases t
  {
    if s < t {
      OffsetIsMonotone(c, ranking, s, t - 1);
    }
  }

  lemma {:induction false} TakenMeetThreshold(ranking: Ranking, from: nat, lower: Balance, capacity: nat)
    requires from <= |ranking|
    ensures var n := Taken(ranking, from, lower, capacity);
            && (forall i :: from <= i < from + n ==> ranking[i].1 >= lower)
            && (n < capacity && from + n < |ranking| ==> ranking[from + n].1 < lower)
    decreases |ranking| - from
  {
    if !(capacity == 0 || from == |ranking| || ranking[from].1 < lower) {
      TakenMeetThreshold(ranking, from + 1, lower, capacity - 1);
    }
  }

  /** A dApp is in `tier` exactly when its position lies between the offsets of that tier. */
  lemma TierAt(c: TiersConfiguration, ranking: Ranking, i: nat, tier: nat)
    requires ConfigOk(c) && tier < |c.slotsPerTier| && i < Offset(c, ranking, |c.slotsPerTier|)
    ensures TiersOf(c, ranking)[i] < |c.slotsPerTier|
    ensures TiersOf(c, ranking)[i] == tier <==> Offset(c, ranking, tier) <= i < Offset(c, ranking, tier + 1)
  {
    var t := TierFrom(c, ranking, i, 0);
    if t < tier {
      OffsetIsMonotone(c, ranking, t + 1, tier);
    } else if tier < t {
      OffsetIsMonotone(c, ranking, tier + 1, t);
    }
  }

  lemma {:induction false} AssignedAt(tiers: seq<nat>, ranks: seq<nat>, ranking: Ranking, count: nat, i: nat)
    requires count <= |tiers| == |ranks| && count <= |ranking| && Distinct(ranking) && i < |ranking|
    ensures ranking[i].0 in Assigned(tiers, ranks, ranking, count) <==> i < count
    ensures i < count ==>
              Assigned(tiers, ranks, ranking, count)[ranking[i].0] == RankedTier.NewSaturated(tiers[i] % 256, ranks[i])
  {
    if count > 0 {
      AssignedAt(tiers, ranks, ranking, count - 1, i);
    }
  }

  /** Every dApp in a tier with its own number meets the threshold of it. With up to 256
      tiers, a dApp with strictly more stake than one in a tier is in the same or a better
      tier itself. */
  lemma AssignmentFollowsStake(c: TiersConfiguration, enabled: bool, ranking: Ranking, period: PeriodNumber, pool: Balance, i: nat, j: nat)
    requires ConfigOk(c)
    requires Distinct(ranking) && Descending(ranking) && i < |ranking| && j < |ranking|
    requires ranking[j].0 in TierRewards(c, enabled, ranking, period, pool).dapps
    ensures var dapps := TierRewards(c, enabled, ranking, period, pool).dapps;
            var tier := dapps[ranking[j].0].tier;
            && tier < |c.slotsPerTier|
            && (OwnNumber(|c.slotsPerTier|, tier) ==> c.tierThresholds[tier] <= ranking[j].1)
            && (ranking[i].1 > ranking[j].1 ==>
                  ranking[i].0 in dapps && (|c.slotsPerTier| <= 256 ==> dapps[ranking[i].0].tier <= tier))
  {
    var tiers := TiersOf(c, ranking);
    if j < |tiers| {
      PlacedMeetsThreshold(c, ranking, j);
      if i <= j {
        PlacedMeetsThreshold(c, ranking, i);
        TiersAscend(c, ranking, i, j);
      }
    }
    FollowsStake(c.tierThresholds, tiers, RanksOf(c, enabled, ranking, tiers), ranking, i, j);
  }

  lemma FollowsStake(thresholds: seq<Balance>, tiers: seq<nat>, ranks: seq<nat>, ranking: Ranking, i: nat, j: nat)
    requires Distinct(ranking) && Descending(ranking) && |tiers| == |ranks| <= |ranking| && i < |ranking| && j < |ranking|
    requires j < |tiers| ==> tiers[j] < |thresholds| && thresholds[tiers[j]] <= ranking[j].1
    requires i <= j < |tiers| ==> tiers[i] <= tiers[j]
    requires ranking[j].0 in Assigned(tiers, ranks, ranking, |tiers|)
    ensures var dapps := Assigned(tiers, ranks, ranking, |tiers|);
            var tier := dapps[ranking[j].0].tier;
            && tier < |thresholds|
            && (OwnNumber(|thresholds|, tier) ==> thresholds[tier] <= ranking[j].1)
            && (ranking[i].1 > ranking[j].1 ==>
                  ranking[i].0 in dapps && (|thresholds| <= 256 ==> dapps[ranking[i].0].tier <= tier))
  {
    OwnNumberIff(|thresholds|, if j < |tiers| then StoredTier(tiers[j]) else 0);
    AssignedAt(tiers, ranks, ranking, |tiers|, j);
    if ranking[i].1 > ranking[j].1 {
      assert i < j;
      AssignedAt(tiers, ranks, ranking, |tiers|, i);
    }
  }

  lemma PlacedMeetsThreshold(c: TiersConfiguration, ranking: Ranking, i: nat)
    requires ConfigOk(c) && i < Offset(c, ranking, |c.slotsPerTier|)
    ensures var t := TiersOf(c, ranking)[i];
            t < |c.slotsPerTier| && c.tierThresholds[t] <= ranking[i].1
  {
    var t := TierFrom(c, ranking, i, 0);
    TakenMeetThreshold(ranking, Offset(c, ranking, t), c.tierThresholds[t], c.slotsPerTier[t]);
  }

  lemma TiersAscend(c: TiersConfiguration, ranking: Ranking, i: nat, j: nat)
    requires ConfigOk(c) && i <= j < Offset(c, ranking, |c.slotsPerTier|)
    ensures TiersOf(c, ranking)[i] <= TiersOf(c, ranking)[j]
  {
    var s, t := TierFrom(c, ranking, i, 0), TierFrom(c, ranking, j, 0);
    if s > t {
      OffsetIsMonotone(c, ranking, t + 1, s);
    }
  }

  function Members(dapps: map<DAppId, RankedTier>, tier: nat): set<DAppId> {
    set id | id in dapps && dapps[id].tier == tier
  }

  /** The positions `low .. high` are those stored as `tier`. */
  ghost predicate Occupies(tiers: seq<nat>, tier: nat, low: nat, high: nat) {
    && low <= high <= |tiers|
    && (forall i :: 0 <= i < |tiers| ==> (StoredTier(tiers[i]) == tier <==> low <= i < high))
  }

  lemma TierOccupies(c: TiersConfiguration, ranking: Ranking, tier: nat)
    requires ConfigOk(c) && OwnNumber(|c.slotsPerTier|, tier)
    ensures Occupies(TiersOf(c, ranking), tier, Offset(c, ranking, tier), Offset(c, ranking, tier + 1))
  {
    OffsetIsMonotone(c, ranking, tier + 1, |c.slotsPerTier|);
    var tiers := TiersOf(c, ranking);
    OwnNumberIff(|c.slotsPerTier|, tier);
    forall i | 0 <= i < |tiers|
      ensures StoredTier(tiers[i]) == tier <==> Offset(c, ranking, tier) <= i < Offset(c, ranking, tier + 1)
    {
      TierAt(c, ranking, i, tier);
    }
  }

  lemma {:induction false} MemberCount(tiers: seq<nat>, ranks: seq<nat>, ranking: Ranking, count: nat, tier: nat, low: nat, high: nat)
    requires count <= |tiers| == |ranks| && count <= |ranking| && Distinct(ranking) && Occupies(tiers, tier, low, high)
    ensures |Members(Assigned(tiers, ranks, ranking, count), tier)| == SatSub(Min(count, high), low)
    decreases count
  {
    var dapps := Assigned(tiers, ranks, ranking, count);
    if count == 0 {
      assert Members(dapps, tier) == {};
    } else {
      var before := Assigned(tiers, ranks, ranking, count - 1);
      var id := ranking[count - 1].0;
      MemberCount(tiers, ranks, ranking, count - 1, tier, low, high);
      AssignedAt(tiers, ranks, ranking, count - 1, count - 1);
      assert dapps[id].tier == StoredTier(tiers[count - 1]);
      if StoredTier(tiers[count - 1]) == tier {
        assert Members(dapps, tier) == Members(before, tier) + {id};
      } else {
        assert Members(dapps, tier) == Members(before, tier);
      }
    }
  }

  /** No tier exceeds its capacity, and a tier that a dApp qualifies for but was not placed
      in, or in a better one, is full. */
  lemma AssignmentIsGreedy(c: TiersConfiguration, enabled: bool, ranking: Ranking, period: PeriodNumber, pool: Balance, tier: nat)
    requires ConfigOk(c) && OwnNumber(|c.slotsPerTier|, tier)
    requires Distinct(ranking) && Descending(ranking)
    ensures var dapps := TierRewards(c, enabled, ranking, period, pool).dapps;
            && |Members(dapps, tier)| <= c.slotsPerTier[tier]
            && forall i :: 0 <= i < |ranking| && ranking[i].1 >= c.tierThresholds[tier]
                           && (ranking[i].0 in dapps ==> dapps[ranking[i].0].tier > tier)
                           ==> |Members(dapps, tier)| == c.slotsPerTier[tier]
  {
    GreedyTier(c, RanksOf(c, enabled, ranking, TiersOf(c, ranking)), ranking, tier);
  }

  lemma GreedyTier(c: TiersConfiguration, ranks: seq<nat>, ranking: Ranking, tier: nat)
    requires ConfigOk(c) && OwnNumber(|c.slotsPerTier|, tier) && |ranks| == Offset(c, ranking, |c.slotsPerTier|)
    requires Distinct(ranking) && Descending(ranking)
    ensures var dapps := Assigned(TiersOf(c, ranking), ranks, ranking, |ranks|);
            && |Members(dapps, tier)| <= c.slotsPerTier[tier]
            && forall i :: 0 <= i < |ranking| && ranking[i].1 >= c.tierThresholds[tier]
                           && (ranking[i].0 in dapps ==> dapps[ranking[i].0].tier > tier)
                           ==> |Members(dapps, tier)| == c.slotsPerTier[tier]
  {
    var tiers := TiersOf(c, ranking);
    var low, high := Offset(c, ranking, tier), Offset(c, ranking, tier + 1);
    TierOccupies(c, ranking, tier);
    forall i | 0 <= i < high
      ensures tiers[i] <= tier
    {
      EarlierPositionBetterTier(c, ranking, i, tier);
    }
    forall i | high <= i < |ranking| && ranking[i].1 >= c.tierThresholds[tier]
      ensures high - low == c.slotsPerTier[tier]
    {
      TierIsFull(c, ranking, tier, i);
    }
    FillsGreedily(tiers, ranks, ranking, tier, low, high, c.tierThresholds[tier], c.slotsPerTier[tier]);
  }

  lemma FillsGreedily(tiers: seq<nat>, ranks: seq<nat>, ranking: Ranking, tier: nat, low: nat, high: nat, threshold: Balance, capacity: nat)
    requires Distinct(ranking) && |tiers| == |ranks| <= |ranking| && Occupies(tiers, tier, low, high)
    requires high - low <= capacity
    requires tier <= 15 && forall i :: 0 <= i < high ==> tiers[i] <= tier
    requires forall i :: high <= i < |ranking| && ranking[i].1 >= threshold ==> high - low == capacity
    ensures var dapps := Assigned(tiers, ranks, ranking, |tiers|);
            && |Members(dapps, tier)| <= capacity
            && forall i :: 0 <= i < |ranking| && ranking[i].1 >= threshold
                           && (ranking[i].0 in dapps ==> dapps[ranking[i].0].tier > tier)
                           ==> |Members(dapps, tier)| == capacity
  {
    var dapps := Assigned(tiers, ranks, ranking, |tiers|);
    MemberCount(tiers, ranks, ranking, |tiers|, tier, low, high);
    forall i | 0 <= i < |ranking| && ranking[i].1 >= threshold
               && (ranking[i].0 in dapps ==> dapps[ranking[i].0].tier > tier)
      ensures high - low == capacity
    {
      if i < high {
        AssignedAt(tiers, ranks, ranking, |tiers|, i);
        assert false;
      }
    }
  }

  lemma EarlierPositionBetterTier(c: TiersConfiguration, ranking: Ranking, i: nat, tier: nat)
    requires ConfigOk(c) && tier < |c.slotsPerTier| && i < Offset(c, ranking, tier + 1)
    ensures i < Offset(c, ranking, |c.slotsPerTier|) && TiersOf(c, ranking)[i] <= tier
  {
    OffsetIsMonotone(c, ranking, tier + 1, |c.slotsPerTier|);
    var t := TierFrom(c, ranking, i, 0);
    if t > tier {
      OffsetIsMonotone(c, ranking, tier + 1, t);
    }
  }

  lemma TierIsFull(c: TiersConfiguration, ranking: Ranking, tier: nat, i: nat)
    requires ConfigOk(c) && tier < |c.slotsPerTier| && Descending(ranking)
    requires Offset(c, ranking, tier + 1) <= i < |ranking| && ranking[i].1 >= c.tierThresholds[tier]
    ensures Offset(c, ranking, tier + 1) == Offset(c, ranking, tier) + c.slotsPerTier[tier]
  {
    var high := Offset(c, ranking, tier + 1);
    TakenMeetThreshold(ranking, Offset(c, ranking, tier), c.tierThresholds[tier], c.slotsPerTier[tier]);
    assert high == i || ranking[high].1 >= ranking[i].1;
  }

  // ---------- rewards of a tier ----------

  /** What claiming pays out of `tier`. */
  ghost function ShareOf(r: DAppTierRewards, tier: nat): (DAppId, RankedTier) -> nat {
    (id: DAppId, ranked: RankedTier) => if ranked.tier == tier then r.TierShare(ranked) else 0
  }

  /** Everything the dApps still in `tier` can claim. */
  ghost function Liability(r: DAppTierRewards, tier: nat): Balance {
    Sum(r.dapps, ShareOf(r, tier))
  }

  ghost function OneIn(tier: nat): (DAppId, RankedTier) -> nat {
    (id: DAppId, ranked: RankedTier) => if ranked.tier == tier then 1 else 0
  }

  ghost function RankWithin(tier: nat): (DAppId, RankedTier) -> nat {
    (id: DAppId, ranked: RankedTier) => if ranked.tier == tier then ranked.rank else 0
  }

  /** One more assigned dApp adds its own weight to any sum over the assignment. */
  lemma AssignedSumStep(tiers: seq<nat>, ranks: seq<nat>, ranking: Ranking, count: nat, w: (DAppId, RankedTier) -> nat)
    requires count < |tiers| == |ranks| && count < |ranking| && Distinct(ranking)
    requires ranks[count] <= MAX_RANK
    ensures Sum(Assigned(tiers, ranks, ranking, count + 1), w)
            == Sum(Assigned(tiers, ranks, ranking, count), w) + w(ranking[count].0, RankedTier(StoredTier(tiers[count]), ranks[count]))
  {
    AssignedAt(tiers, ranks, ranking, count, count);
    SumInsert(Assigned(tiers, ranks, ranking, count), ranking[count].0, RankedTier(StoredTier(tiers[count]), ranks[count]), w);
  }

  ghost predicate BoundedRanks(ranks: seq<nat>) {
    forall i :: 0 <= i < |ranks| ==> ranks[i] <= MAX_RANK
  }

  lemma RanksAreBounded(c: TiersConfiguration, enabled: bool, ranking: Ranking, tiers: seq<nat>)
    requires |tiers| <= |ranking|
    ensures BoundedRanks(RanksOf(c, enabled, ranking, tiers))
  {
  }

  lemma {:induction false} AssignedMembers(tiers: seq<nat>, ranks: seq<nat>, ranking: Ranking, count: nat, tier: nat, low: nat, high: nat)
    requires count <= |tiers| == |ranks| && count <= |ranking|
    requires Distinct(ranking) && Occupies(tiers, tier, low, high) && BoundedRanks(ranks)
    ensures Sum(Assigned(tiers, ranks, ranking, count), OneIn(tier)) == SatSub(Min(count, high), low)
    decreases count
  {
    if count > 0 {
      AssignedMembers(tiers, ranks, ranking, count - 1, tier, low, high);
      AssignedSumStep(tiers, ranks, ranking, count - 1, OneIn(tier));
    }
  }

  lemma {:induction false} AssignedRanks(tiers: seq<nat>, ranks: seq<nat>, ranking: Ranking, count: nat, tier: nat, low: nat, high: nat)
    requires count <= |tiers| == |ranks| && count <= |ranking|
    requires Distinct(ranking) && Occupies(tiers, tier, low, high) && BoundedRanks(ranks)
    ensures var upto := Min(count, high);
            Sum(Assigned(tiers, ranks, ranking, count), RankWithin(tier))
            == if upto <= low then 0 else RankTotal(ranks, low, upto)
    decreases count
  {
    if count > 0 {
      AssignedRanks(tiers, ranks, ranking, count - 1, tier, low, high);
      AssignedSumStep(tiers, ranks, ranking, count - 1, RankWithin(tier));
    }
  }

  lemma RewardPerRankCovered(tierReward: Balance, capacity: nat, members: nat, ranks: nat)
    requires members <= capacity
    ensures members * tierReward + RewardPerRank(tierReward, capacity, members, ranks) * ranks <= capacity * tierReward
  {
    var left := tierReward * (capacity - members);
    assert members * tierReward + left == capacity * tierReward;
    if ranks > 0 {
      var m := Min((tierReward / MAX_RANK) * ranks, left);
      assert m == ranks * (m / ranks) + m % ranks;
    }
  }

  lemma TierRewardFitsShare(c: TiersConfiguration, pool: Balance, tier: nat)
    requires ConfigOk(c) && tier < |c.slotsPerTier|
    ensures c.slotsPerTier[tier] * TierReward(c, pool, tier) <= MulNearest(PERMILL, c.rewardPortion[tier], pool)
  {
    var share := MulNearest(PERMILL, c.rewardPortion[tier], pool);
    var capacity := c.slotsPerTier[tier];
    if capacity > 0 {
      assert share == capacity * (share / capacity) + share % capacity;
    }
  }

  /** The reward per rank is the largest that is at most a tenth of the tier reward and that
      the reward of the empty slots covers for all ranks. */
  lemma RewardPerRankIsLargest(tierReward: Balance, capacity: nat, members: nat, ranks: nat)
    ensures var r, left := RewardPerRank(tierReward, capacity, members, ranks), tierReward * SatSub(capacity, members);
            && r <= tierReward / MAX_RANK && r * ranks <= left
            && (ranks == 0 ==> r == 0)
            && (ranks > 0 ==> r == tierReward / MAX_RANK || (r + 1) * ranks > left)
  {
    if ranks > 0 {
      LargestUpTo(tierReward / MAX_RANK, tierReward * SatSub(capacity, members), ranks);
    }
  }

  lemma LargestUpTo(most: nat, left: nat, n: nat)
    requires n > 0
    ensures var r := Min(most * n, left) / n;
            r <= most && r * n <= left && (r == most || (r + 1) * n > left)
  {
    if most * n <= left {
      assert most * n == n * most;
      WholeQuotient(most, n);
    } else {
      LargestWithin(most, left, n, left / n);
    }
  }

  lemma LargestWithin(most: nat, left: nat, n: nat, r: nat)
    requires n > 0 && r == left / n && left < most * n
    ensures r <= most && r * n <= left < (r + 1) * n
  {
    QuotientBounds(left, n);
    if r > most {
      MulIsMonotone(most, r, n);
    }
  }

  /** The reward of a tier is the largest that its share of the pool covers for all slots. */
  lemma TierRewardIsLargest(c: TiersConfiguration, enabled: bool, ranking: Ranking, period: PeriodNumber, pool: Balance, tier: nat)
    requires ConfigOk(c) && tier < |c.slotsPerTier|
    ensures LargestTierReward(TierRewards(c, enabled, ranking, period, pool), tier, c.slotsPerTier[tier],
                              MulNearest(PERMILL, c.rewardPortion[tier], pool))
  {
    TierRewardsAt(c, enabled, ranking, period, pool, tier);
    LargestThatFits(TierRewards(c, enabled, ranking, period, pool), tier, c.slotsPerTier[tier],
                    MulNearest(PERMILL, c.rewardPortion[tier], pool));
  }

  lemma LargestThatFits(r: DAppTierRewards, tier: nat, slots: nat, share: Balance)
    requires tier < |r.rewards| && r.rewards[tier] == if slots == 0 then 0 else share / slots
    ensures LargestTierReward(r, tier, slots, share)
  {
    if slots > 0 {
      QuotientBounds(share, slots);
    }
  }

  ghost predicate LargestTierReward(r: DAppTierRewards, tier: nat, slots: nat, share: Balance) {
    && tier < |r.rewards|
    && slots * r.rewards[tier] <= share
    && (if slots > 0 then slots * (r.rewards[tier] + 1) > share else r.rewards[tier] == 0)
  }

  /** The stored rank reward is the largest that fits, for the slots that the stored members
      leave empty and the sum of their ranks. */
  lemma RankRewardIsLargest(c: TiersConfiguration, enabled: bool, ranking: Ranking, period: PeriodNumber, pool: Balance, tier: nat)
    requires ConfigOk(c) && OwnNumber(|c.slotsPerTier|, tier) && Distinct(ranking)
    ensures LargestRankReward(TierRewards(c, enabled, ranking, period, pool), tier, c.slotsPerTier[tier])
  {
    var tiers := TiersOf(c, ranking);
    RanksAreBounded(c, enabled, ranking, tiers);
    TierRewardsAt(c, enabled, ranking, period, pool, tier);
    RankRewardFits(TierRewards(c, enabled, ranking, period, pool), c, tiers, RanksOf(c, enabled, ranking, tiers), ranking, pool, tier);
  }

  /** With `n` the sum of the ranks in the tier and `left` the reward of its empty slots. */
  ghost predicate LargestRankReward(r: DAppTierRewards, tier: nat, slots: nat) {
    && tier < |r.rewards| == |r.rankRewards| && |Members(r.dapps, tier)| <= slots
    && var n, left := Sum(r.dapps, RankWithin(tier)), r.rewards[tier] * (slots - |Members(r.dapps, tier)|);
       && r.rankRewards[tier] <= r.rewards[tier] / 10
       && r.rankRewards[tier] * n <= left
       && (n == 0 ==> r.rankRewards[tier] == 0)
       && (n > 0 ==> r.rankRewards[tier] == r.rewards[tier] / 10 || (r.rankRewards[tier] + 1) * n > left)
  }

  lemma RankRewardFits(r: DAppTierRewards, c: TiersConfiguration, tiers: seq<nat>, ranks: seq<nat>, ranking: Ranking, pool: Balance, tier: nat)
    requires ConfigOk(c) && OwnNumber(|c.slotsPerTier|, tier) && Distinct(ranking)
    requires tiers == TiersOf(c, ranking) && |ranks| == |tiers| && BoundedRanks(ranks)
    requires TierRewardsMatch(r, c, tiers, ranks, ranking, pool, tier)
    ensures LargestRankReward(r, tier, c.slotsPerTier[tier])
  {
    var low, high := Offset(c, ranking, tier), Offset(c, ranking, tier + 1);
    StoredTierCounts(c, tiers, ranks, ranking, tier);
    LargestForRanks(r, tier, c.slotsPerTier[tier], high - low, RankTotal(ranks, low, high));
  }

  lemma LargestForRanks(r: DAppTierRewards, tier: nat, slots: nat, members: nat, ranks: nat)
    requires tier < |r.rewards| == |r.rankRewards| && members <= slots
    requires |Members(r.dapps, tier)| == members && Sum(r.dapps, RankWithin(tier)) == ranks
    requires r.rankRewards[tier] == RewardPerRank(r.rewards[tier], slots, members, ranks)
    ensures LargestRankReward(r, tier, slots)
  {
    RewardPerRankIsLargest(r.rewards[tier], slots, members, ranks);
  }

  lemma StoredTierCounts(c: TiersConfiguration, tiers: seq<nat>, ranks: seq<nat>, ranking: Ranking, tier: nat)
    requires ConfigOk(c) && OwnNumber(|c.slotsPerTier|, tier) && Distinct(ranking)
    requires tiers == TiersOf(c, ranking) && |ranks| == |tiers| && BoundedRanks(ranks)
    ensures var low, high := Offset(c, ranking, tier), Offset(c, ranking, tier + 1);
            && low <= high <= |ranks| && high - low <= c.slotsPerTier[tier]
            && |Members(Assigned(tiers, ranks, ranking, |tiers|), tier)| == high - low
            && Sum(Assigned(tiers, ranks, ranking, |tiers|), RankWithin(tier)) == RankTotal(ranks, low, high)
  {
    var low, high := Offset(c, ranking, tier), Offset(c, ranking, tier + 1);
    TierOccupies(c, ranking, tier);
    MemberCount(tiers, ranks, ranking, |tiers|, tier, low, high);
    AssignedRanks(tiers, ranks, ranking, |tiers|, tier, low, high);
  }

  /** The rank stored for a dApp is its rank by stake between the bounds of its tier. */
  lemma StoredRankIs(c: TiersConfiguration, enabled: bool, ranking: Ranking, period: PeriodNumber, pool: Balance, i: nat)
    requires ConfigOk(c) && Distinct(ranking) && i < |ranking|
    requires ranking[i].0 in TierRewards(c, enabled, ranking, period, pool).dapps
    requires OwnNumber(|c.slotsPerTier|, TierRewards(c, enabled, ranking, period, pool).dapps[ranking[i].0].tier)
    ensures var ranked := TierRewards(c, enabled, ranking, period, pool).dapps[ranking[i].0];
            ranked.rank == if !enabled || ranked.tier == 0 then 0
                           else FindRank(c.tierThresholds[ranked.tier], c.tierThresholds[ranked.tier - 1], ranking[i].1)
  {
    var tiers := TiersOf(c, ranking);
    var ranks := RanksOf(c, enabled, ranking, tiers);
    RanksAreBounded(c, enabled, ranking, tiers);
    AssignedAt(tiers, ranks, ranking, |tiers|, i);
    TierAt(c, ranking, i, 0);
    OwnNumberIff(|c.slotsPerTier|, StoredTier(tiers[i]));
  }

  /** All claims on a tier together stay within its share of the dApp reward pool. */
  lemma LiabilityWithinShare(c: TiersConfiguration, enabled: bool, ranking: Ranking, period: PeriodNumber, pool: Balance, tier: nat)
    requires ConfigOk(c) && OwnNumber(|c.slotsPerTier|, tier) && Distinct(ranking)
    ensures Liability(TierRewards(c, enabled, ranking, period, pool), tier)
            <= MulNearest(PERMILL, c.rewardPortion[tier], pool)
  {
    var tiers := TiersOf(c, ranking);
    var ranks := RanksOf(c, enabled, ranking, tiers);
    RanksAreBounded(c, enabled, ranking, tiers);
    TierRewardsAt(c, enabled, ranking, period, pool, tier);
    LiabilityOf(TierRewards(c, enabled, ranking, period, pool), c, tiers, ranks, ranking, pool, tier);
  }

  lemma LiabilityOf(r: DAppTierRewards, c: TiersConfiguration, tiers: seq<nat>, ranks: seq<nat>, ranking: Ranking, pool: Balance, tier: nat)
    requires ConfigOk(c) && OwnNumber(|c.slotsPerTier|, tier) && Distinct(ranking)
    requires tiers == TiersOf(c, ranking) && |ranks| == |tiers| && BoundedRanks(ranks)
    requires TierRewardsMatch(r, c, tiers, ranks, ranking, pool, tier)
    ensures Liability(r, tier) <= MulNearest(PERMILL, c.rewardPortion[tier], pool)
  {
    var low, high := Offset(c, ranking, tier), Offset(c, ranking, tier + 1);
    TierOccupies(c, ranking, tier);
    AssignedMembers(tiers, ranks, ranking, |tiers|, tier, low, high);
    AssignedRanks(tiers, ranks, ranking, |tiers|, tier, low, high);
    TierRewardFitsShare(c, pool, tier);
    LiabilityCovered(r, tier, high - low, RankTotal(ranks, low, high), c.slotsPerTier[tier]);
  }

  predicate TierRewardsMatch(r: DAppTierRewards, c: TiersConfiguration, tiers: seq<nat>, ranks: seq<nat>, ranking: Ranking, pool: Balance, tier: nat)
    requires ConfigOk(c) && tier < |c.slotsPerTier| && |tiers| == |ranks| == Offset(c, ranking, |c.slotsPerTier|)
  {
    && tier < |r.rewards| == |r.rankRewards|
    && r.dapps == Assigned(tiers, ranks, ranking, |tiers|)
    && r.rewards[tier] == TierReward(c, pool, tier)
    && r.rankRewards[tier] == RankReward(c, ranking, ranks, pool, tier)
  }

  lemma TierRewardsAt(c: TiersConfiguration, enabled: bool, ranking: Ranking, period: PeriodNumber, pool: Balance, tier: nat)
    requires ConfigOk(c) && tier < |c.slotsPerTier|
    ensures var tiers := TiersOf(c, ranking);
            TierRewardsMatch(TierRewards(c, enabled, ranking, period, pool), c, tiers,
                             RanksOf(c, enabled, ranking, tiers), ranking, pool, tier)
  {
  }

  lemma LiabilityCovered(r: DAppTierRewards, tier: nat, members: nat, ranks: nat, capacity: nat)
    requires tier < |r.rewards| == |r.rankRewards| && members <= capacity
    requires Sum(r.dapps, OneIn(tier)) == members && Sum(r.dapps, RankWithin(tier)) == ranks
    requires r.rankRewards[tier] == RewardPerRank(r.rewards[tier], capacity, members, ranks)
    ensures Liability(r, tier) <= capacity * r.rewards[tier]
  {
    SumIsLinear(r.dapps, ShareOf(r, tier), r.rewards[tier], OneIn(tier), r.rankRewards[tier], RankWithin(tier));
    RewardPerRankCovered(r.rewards[tier], capacity, members, ranks);
  }

  /** A claim moves exactly what it pays out of the liability of its tier. */
  lemma ClaimPaysLiability(r: DAppTierRewards, id: DAppId, tier: nat)
    requires r.TryClaim(id).Some?
    ensures var (after, paid, ranked) := r.TryClaim(id).value;
            Liability(after, tier) + (if ranked.tier == tier then paid else 0) == Liability(r, tier)
  {
    var (after, paid, ranked) := r.TryClaim(id).value;
    SumRemove(r.dapps, id, ShareOf(r, tier));
    SumCongruence(after.dapps, ShareOf(after, tier), ShareOf(r, tier));
  }

  /** What a sequence of claims, in any order and with any repetitions, pays out of `tier`. */
  function PaidFromTier(r: DAppTierRewards, claims: seq<DAppId>, tier: nat): Balance
    decreases |claims|
  {
    if |claims| == 0 then 0
    else
      match r.TryClaim(claims[0])
      case None => PaidFromTier(r, claims[1..], tier)
      case Some((after, paid, ranked)) =>
        (if ranked.tier == tier then paid else 0) + PaidFromTier(after, claims[1..], tier)
  }

  lemma {:induction false} AnyClaimOrderWithinLiability(r: DAppTierRewards, claims: seq<DAppId>, tier: nat)
    ensures PaidFromTier(r, claims, tier) <= Liability(r, tier)
    decreases |claims|
  {
    if |claims| > 0 {
      if r.TryClaim(claims[0]).Some? {
        ClaimPaysLiability(r, claims[0], tier);
        AnyClaimOrderWithinLiability(r.TryClaim(claims[0]).value.0, claims[1..], tier);
      } else {
        AnyClaimOrderWithinLiability(r, claims[1..], tier);
      }
    }
  }

  /** For any stakes and any order of claims, a tier never pays more than its share. */
  lemma TierNeverOverpays(c: TiersConfiguration, enabled: bool, ranking: Ranking, period: PeriodNumber, pool: Balance, claims: seq<DAppId>, tier: nat)
    requires ConfigOk(c) && OwnNumber(|c.slotsPerTier|, tier) && Distinct(ranking)
    ensures PaidFromTier(TierRewards(c, enabled, ranking, period, pool), claims, tier)
            <= MulNearest(PERMILL, c.rewardPortion[tier], pool)
  {
    AnyClaimOrderWithinLiability(TierRewards(c, enabled, ranking, period, pool), claims, tier);
    LiabilityWithinShare(c, enabled, ranking, period, pool, tier);
  }

  // ---------- tiers that share a number ----------

  /** What goes into an assignment of `count` tiers. */
  datatype Inputs = Inputs(config: TiersConfiguration, enabled: bool, ranking: Ranking, period: PeriodNumber, pool: Balance) {
    ghost predicate Valid(count: nat) {
      ConfigOk(config) && |config.slotsPerTier| == count && Distinct(ranking) && Descending(ranking)
    }

    function Result(): DAppTierRewards
      requires ConfigOk(config)
    {
      TierRewards(config, enabled, ranking, period, pool)
    }
  }

  /** For all inputs, no more dApps are stored as `tier` than it has slots. */
  ghost predicate CapacityKept(count: nat, tier: nat)
    requires tier < count
  {
    forall x: Inputs :: x.Valid(count) ==> |Members(x.Result().dapps, tier)| <= x.config.slotsPerTier[tier]
  }

  /** For all inputs, the claims on `tier` fit its share of the pool. */
  ghost predicate ShareKept(count: nat, tier: nat)
    requires tier < count
  {
    forall x: Inputs :: x.Valid(count) ==> Liability(x.Result(), tier) <= MulNearest(PERMILL, x.config.rewardPortion[tier], x.pool)
  }

  /** For all inputs, more stake never means a worse tier. */
  ghost predicate OrderKept(count: nat) {
    forall x: Inputs :: x.Valid(count) ==> Ordered(x.Result().dapps, x.ranking)
  }

  ghost predicate Ordered(dapps: map<DAppId, RankedTier>, ranking: Ranking) {
    forall i, j :: 0 <= i < |ranking| && 0 <= j < |ranking| && ranking[j].0 in dapps && ranking[i].1 > ranking[j].1 ==>
      ranking[i].0 in dapps && dapps[ranking[i].0].tier <= dapps[ranking[j].0].tier
  }

  /** One slot each in tiers `p` and `q`, all of the pool for tier `p`, and no thresholds. */
  function TwoSlots(count: nat, p: nat, q: nat): (c: TiersConfiguration)
    ensures ConfigOk(c) && |c.slotsPerTier| == count
  {
    TiersConfiguration(
      seq(count, t => if t == p || t == q then 1 else 0),
      seq(count, t => if t == p then PERMILL else 0),
      seq(count, t => 0))
  }

  const TWO_DAPPS: Ranking := [(0, 2), (1, 1)]

  lemma {:induction false} TwoSlotsOffset(count: nat, p: nat, q: nat, tier: nat)
    requires p < q < count && tier <= count
    ensures Offset(TwoSlots(count, p, q), TWO_DAPPS, tier) == (if tier > p then 1 else 0) + (if tier > q then 1 else 0)
  {
    if tier > 0 {
      TwoSlotsOffset(count, p, q, tier - 1);
      assert Taken(TWO_DAPPS, 0, 0, 1) == 1 && Taken(TWO_DAPPS, 1, 0, 1) == 1;
    }
  }

  function TwoInputs(count: nat, p: nat, q: nat): (x: Inputs)
    ensures x.Valid(count)
  {
    Inputs(TwoSlots(count, p, q), false, TWO_DAPPS, 1, 1)
  }

  function TwoRanked(p: nat, q: nat): map<DAppId, RankedTier> {
    map[0 := RankedTier(p, 0), 1 := RankedTier(q, 0)]
  }

  /** Two dApps get into these two tiers, in the order of their stakes. */
  lemma TwoSlotsAssigned(count: nat, p: nat, q: nat, a: nat, b: nat)
    requires p < q < count && a == StoredTier(p) && b == StoredTier(q)
    ensures TwoInputs(count, p, q).Result().dapps == TwoRanked(a, b)
  {
    var c := TwoSlots(count, p, q);
    TwoSlotsOffset(count, p, q, count);
    TwoSlotsOffset(count, p, q, p);
    TwoSlotsOffset(count, p, q, p + 1);
    TwoSlotsOffset(count, p, q, q);
    TwoSlotsOffset(count, p, q, q + 1);
    TierAt(c, TWO_DAPPS, 0, p);
    TierAt(c, TWO_DAPPS, 1, q);
    TwoAssigned(TiersOf(c, TWO_DAPPS), RanksOf(c, false, TWO_DAPPS, TiersOf(c, TWO_DAPPS)), p, q);
  }

  lemma TwoAssigned(tiers: seq<nat>, ranks: seq<nat>, p: nat, q: nat)
    requires tiers == [p, q] && ranks == [0, 0]
    ensures Assigned(tiers, ranks, TWO_DAPPS, 2) == TwoRanked(StoredTier(p), StoredTier(q))
  {
    assert Assigned(tiers, ranks, TWO_DAPPS, 0) == map[];
    assert Assigned(tiers, ranks, TWO_DAPPS, 1) == map[0 := RankedTier(StoredTier(p), 0)];
  }

  /** Another tier that is stored as `tier`, if there are that many. */
  function Sharing(tier: nat): nat {
    if tier < 15 then 256 + tier else 16
  }

  lemma SharingIsStored(tier: nat)
    requires tier <= 15
    ensures tier < Sharing(tier) && tier == StoredTier(tier) == StoredTier(Sharing(tier))
  {
  }

  lemma TwoMembers(tier: nat)
    ensures |Members(TwoRanked(tier, tier), tier)| == 2
  {
    assert Members(TwoRanked(tier, tier), tier) == {0, 1};
  }

  /** The number of dApps stored as a tier stays within its capacity for all inputs exactly
      when the tier has its number for itself. */
  lemma CapacityKeptIff(count: nat, tier: nat)
    requires tier < count && tier <= 15
    ensures CapacityKept(count, tier) <==> OwnNumber(count, tier)
  {
    if OwnNumber(count, tier) {
      forall x: Inputs | x.Valid(count)
        ensures |Members(x.Result().dapps, tier)| <= x.config.slotsPerTier[tier]
      {
        AssignmentIsGreedy(x.config, x.enabled, x.ranking, x.period, x.pool, tier);
      }
    } else {
      SharedTierOverfills(count, tier);
    }
  }

  lemma SharedTierOverfills(count: nat, tier: nat)
    requires tier <= 15 && Sharing(tier) < count
    ensures !CapacityKept(count, tier)
  {
    var x := TwoInputs(count, tier, Sharing(tier));
    SharingIsStored(tier);
    TwoSlotsAssigned(count, tier, Sharing(tier), tier, tier);
    TwoMembers(tier);
    assert x.Valid(count) && |Members(x.Result().dapps, tier)| > x.config.slotsPerTier[tier];
  }

  lemma TwoLiability(r: DAppTierRewards, tier: nat)
    requires r.dapps == TwoRanked(tier, tier) && tier < |r.rewards|
    ensures Liability(r, tier) == 2 * r.rewards[tier]
  {
    SumSplit(r.dapps, 0, ShareOf(r, tier));
    assert r.dapps - {0} == map[1 := RankedTier(tier, 0)];
    SumSplit(r.dapps - {0}, 1, ShareOf(r, tier));
    assert r.dapps - {0} - {1} == map[];
  }

  lemma TwoSlotsReward(count: nat, p: nat, q: nat)
    requires p < q < count
    ensures var x := TwoInputs(count, p, q);
            |x.Result().rewards| == count && x.Result().rewards[p] == 1 == MulNearest(PERMILL, x.config.rewardPortion[p], x.pool)
  {
  }

  /** And so do the claims within its share of the pool. */
  lemma ShareKeptIff(count: nat, tier: nat)
    requires tier < count && tier <= 15
    ensures ShareKept(count, tier) <==> OwnNumber(count, tier)
  {
    if OwnNumber(count, tier) {
      forall x: Inputs | x.Valid(count)
        ensures Liability(x.Result(), tier) <= MulNearest(PERMILL, x.config.rewardPortion[tier], x.pool)
      {
        LiabilityWithinShare(x.config, x.enabled, x.ranking, x.period, x.pool, tier);
      }
    } else {
      SharedTierOverpays(count, tier);
    }
  }

  lemma SharedTierOverpays(count: nat, tier: nat)
    requires tier <= 15 && Sharing(tier) < count
    ensures !ShareKept(count, tier)
  {
    var x := TwoInputs(count, tier, Sharing(tier));
    SharingIsStored(tier);
    TwoSlotsAssigned(count, tier, Sharing(tier), tier, tier);
    TwoSlotsReward(count, tier, Sharing(tier));
    TwoLiability(x.Result(), tier);
    assert x.Valid(count) && Liability(x.Result(), tier) > MulNearest(PERMILL, x.config.rewardPortion[tier], x.pool);
  }

  /** More stake never means a worse tier for all inputs exactly with up to 256 tiers. */
  lemma OrderKeptIff(count: nat)
    ensures OrderKept(count) <==> count <= 256
  {
    if count <= 256 {
      forall x: Inputs | x.Valid(count)
        ensures Ordered(x.Result().dapps, x.ranking)
      {
        OrderedUpTo256(x);
      }
    } else {
      var x := TwoInputs(count, 1, 256);
      TwoSlotsAssigned(count, 1, 256, 1, 0);
      TwoDisordered(x.Result().dapps);
    }
  }

  lemma OrderedUpTo256(x: Inputs)
    requires x.Valid(|x.config.slotsPerTier|) && |x.config.slotsPerTier| <= 256
    ensures Ordered(x.Result().dapps, x.ranking)
  {
    forall i, j | 0 <= i < |x.ranking| && 0 <= j < |x.ranking| && x.ranking[j].0 in x.Result().dapps && x.ranking[i].1 > x.ranking[j].1
      ensures x.ranking[i].0 in x.Result().dapps
      ensures x.Result().dapps[x.ranking[i].0].tier <= x.Result().dapps[x.ranking[j].0].tier
    {
      AssignmentFollowsStake(x.config, x.enabled, x.ranking, x.period, x.pool, i, j);
    }
  }

  lemma TwoDisordered(dapps: map<DAppId, RankedTier>)
    requires dapps == TwoRanked(1, 0)
    ensures !Ordered(dapps, TWO_DAPPS)
  {
    assert TWO_DAPPS[0].1 > TWO_DAPPS[1].1 && dapps[TWO_DAPPS[0].0].tier > dapps[TWO_DAPPS[1].0].tier;
  }

  /** With 17 tiers the last two share a number: two dApps are stored in tier 15, which has
      one slot, and can claim twice its share. */
  lemma SeventeenTiersOverfill()
    ensures var x := TwoInputs(17, 15, 16);
            && |Members(x.Result().dapps, 15)| == 2 && x.config.slotsPerTier[15] == 1
            && Liability(x.Result(), 15) == 2 && MulNearest(PERMILL, x.config.rewardPortion[15], x.pool) == 1
  {
    TwoSlotsAssigned(17, 15, 16, 15, 15);
    TwoMembers(15);
    TwoSlotsReward(17, 15, 16);
    TwoLiability(TwoInputs(17, 15, 16).Result(), 15);
  }
}

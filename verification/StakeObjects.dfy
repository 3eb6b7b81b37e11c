/** The storage records that the pallet loads, changes in place and stores back. Every
    method is proved against the function of the same name on the record's value. */
module StakeObjects {
  import opened Arithmetic
  import opened StakeTypes
  import opened Ledger
  import opened ContractStake

  // ---------- unlocking chunks ----------

  /** Where a binary search for `unlockBlock` in sorted chunks ends. */
  ghost predicate IsPosition(chunks: seq<UnlockingChunk>, unlockBlock: BlockNumber, found: bool, index: nat) {
    && index <= |chunks|
    && (forall i :: 0 <= i < index ==> chunks[i].unlockBlock < unlockBlock)
    && (found ==> index < |chunks| && chunks[index].unlockBlock == unlockBlock)
    && (!found ==> forall i :: index <= i < |chunks| ==> unlockBlock < chunks[i].unlockBlock)
  }

  /** Updating or inserting at the found position is the ordered insertion. */
  lemma {:induction false} InsertionAt(chunks: seq<UnlockingChunk>, amount: Balance, unlockBlock: BlockNumber, found: bool, index: nat)
    requires IsPosition(chunks, unlockBlock, found, index)
    ensures found <==> HasChunk(chunks, unlockBlock)
    ensures WithChunk(chunks, amount, unlockBlock)
            == if found then chunks[index := UnlockingChunk(chunks[index].amount + amount, unlockBlock)]
               else chunks[..index] + [UnlockingChunk(amount, unlockBlock)] + chunks[index..]
    decreases |chunks|
  {
    if index > 0 {
      var rest := chunks[1..];
      assert forall i :: 0 <= i < |rest| ==> rest[i] == chunks[i + 1];
      InsertionAt(rest, amount, unlockBlock, found, index - 1);
      HasChunkTail(chunks, unlockBlock);
      assert rest[..index - 1] == chunks[1..index] && rest[index - 1..] == chunks[index..];
    }
  }

  /** The `binary_search_by` of the standard library. */
  method BinarySearch(chunks: seq<UnlockingChunk>, unlockBlock: BlockNumber) returns (found: bool, index: nat)
    requires ChunksAfter(chunks, -1)
    ensures IsPosition(chunks, unlockBlock, found, index)
  {
    ChunksAfterIsSorted(chunks, -1);
    var low, high := 0, |chunks|;
    while low < high
      invariant 0 <= low <= high <= |chunks|
      invariant forall i :: 0 <= i < low ==> chunks[i].unlockBlock < unlockBlock
      invariant forall i :: high <= i < |chunks| ==> unlockBlock < chunks[i].unlockBlock
    {
      var middle := low + (high - low) / 2;
      if chunks[middle].unlockBlock == unlockBlock {
        return true, middle;
      } else if chunks[middle].unlockBlock < unlockBlock {
        low := middle + 1;
      } else {
        high := middle;
      }
    }
    return false, low;
  }

  /** One step through the chunks, keeping or claiming the next one. */
  lemma RetainedStep(chunks: seq<UnlockingChunk>, i: nat, now: BlockNumber, kept: seq<UnlockingChunk>)
    requires i < |chunks|
    ensures MaturedTotal(chunks[i..], now)
            == (if chunks[i].unlockBlock <= now then chunks[i].amount else 0) + MaturedTotal(chunks[i + 1..], now)
    ensures kept + Retained(chunks[i..], now)
            == (if chunks[i].unlockBlock <= now then kept else kept + [chunks[i]]) + Retained(chunks[i + 1..], now)
  {
    assert chunks[i..][1..] == chunks[i + 1..];
  }

  // ---------- ledgers ----------

  class PairIterator {
    var maybeFirst: Option<(EraNumber, Balance)>
    var startEra: EraNumber
    var endEra: EraNumber
    var amount: Balance

    function View(): EraStakePairs
      reads this
    {
      EraStakePairs(maybeFirst, startEra, endEra, amount)
    }

    constructor (pairs: EraStakePairs)
      ensures View() == pairs
    {
      maybeFirst, startEra, endEra, amount := pairs.maybeFirst, pairs.startEra, pairs.endEra, pairs.amount;
    }

    /** Yields the first of the remaining pairs. */
    method Next() returns (pair: Option<(EraNumber, Balance)>)
      modifies this
      ensures pair.None? <==> old(View().Pairs()) == []
      ensures pair.None? ==> View() == old(View())
      ensures pair.Some? ==> old(View().Pairs()) == [pair.value] + View().Pairs()
    {
      if maybeFirst.Some? {
        pair := maybeFirst;
        maybeFirst := None;
        assert View().Pairs() == ConstantPairs(startEra, endEra, amount);
      } else if startEra <= endEra {
        pair := Some((startEra, amount));
        startEra := startEra + 1;
      } else {
        pair := None;
      }
    }
  }

  class LedgerRecord {
    var locked: Balance
    var unlocking: seq<UnlockingChunk>
    var staked: StakeAmount
    var stakedFuture: Option<StakeAmount>
    var contractStakeCount: nat

    function View(): AccountLedger
      reads this
    {
      AccountLedger(locked, unlocking, staked, stakedFuture, contractStakeCount)
    }

    constructor (ledger: AccountLedger)
      ensures View() == ledger
    {
      locked, unlocking, staked := ledger.locked, ledger.unlocking, ledger.staked;
      stakedFuture, contractStakeCount := ledger.stakedFuture, ledger.contractStakeCount;
    }

    method AddUnlockingChunk(chunkAmount: Balance, unlockBlock: BlockNumber, maxChunks: nat) returns (error: Option<LedgerError>)
      requires ChunksAfter(unlocking, -1)
      modifies this
      ensures var r := old(View()).AddUnlockingChunk(chunkAmount, unlockBlock, maxChunks);
              match r
              case Ok(after) => error == None && View() == after
              case Err(e) => error == Some(e) && View() == old(View())
    {
      if chunkAmount == 0 {
        return None;
      }
      var found, index := BinarySearch(unlocking, unlockBlock);
      InsertionAt(unlocking, chunkAmount, unlockBlock, found, index);
      if found {
        unlocking := unlocking[index := UnlockingChunk(unlocking[index].amount + chunkAmount, unlockBlock)];
      } else if |unlocking| < maxChunks {
        unlocking := unlocking[..index] + [UnlockingChunk(chunkAmount, unlockBlock)] + unlocking[index..];
      } else {
        return Some(NoCapacity);
      }
      return None;
    }

    method ClaimUnlocked(now: BlockNumber) returns (total: Balance)
      modifies this
      ensures (View(), total) == old(View()).ClaimUnlocked(now)
    {
      total := 0;
      var kept := [];
      for i := 0 to |unlocking|
        invariant View() == old(View())
        invariant kept + Retained(unlocking[i..], now) == Retained(unlocking, now)
        invariant total + MaturedTotal(unlocking[i..], now) == MaturedTotal(unlocking, now)
      {
        RetainedStep(unlocking, i, now, kept);
        if unlocking[i].unlockBlock <= now {
          total := total + unlocking[i].amount;
        } else {
          kept := kept + [unlocking[i]];
        }
      }
      assert kept == Retained(unlocking, now);
      unlocking := kept;
    }

    method ConsumeUnlockingChunks() returns (total: Balance)
      modifies this
      ensures (View(), total) == old(View()).ConsumeUnlockingChunks()
    {
      total := 0;
      for i := 0 to |unlocking|
        invariant View() == old(View())
        invariant total + ChunkTotal(unlocking[i..]) == ChunkTotal(unlocking)
      {
        total := total + unlocking[i].amount;
      }
      unlocking := [];
    }

    method AddStakeAmount(amount: Balance, era: EraNumber, period: PeriodInfo) returns (error: Option<LedgerError>)
      modifies this
      ensures var r := old(View()).AddStakeAmount(amount, era, period);
              match r
              case Ok(after) => error == None && View() == after
              case Err(e) => error == Some(e) && View() == old(View())
    {
      if amount == 0 {
        return None;
      }
      var check := View().StakeUnstakeCheck(era, period);
      if check.Some? {
        return check;
      }
      if View().UnlockableAmount(period.number) < amount {
        return Some(UnavailableStakeFunds);
      }
      match stakedFuture {
        case Some(future) =>
          if future.era == era {
            staked := future;
          }
          stakedFuture := Some(future.Add(amount, period.subperiod).(era := era + 1));
        case None =>
          var future := staked;
          future := future.(era := era + 1, period := period.number);
          stakedFuture := Some(future.Add(amount, period.subperiod));
      }
      return None;
    }

    method UnstakeAmount(amount: Balance, era: EraNumber, period: PeriodInfo) returns (error: Option<LedgerError>)
      modifies this
      ensures var r := old(View()).UnstakeAmount(amount, era, period);
              match r
              case Ok(after) => error == None && View() == after
              case Err(e) => error == Some(e) && View() == old(View())
    {
      if amount == 0 {
        return None;
      }
      var check := View().StakeUnstakeCheck(era, period);
      if check.Some? {
        return check;
      }
      if View().StakedAmount(period.number) < amount {
        return Some(UnstakeAmountLargerThanStake);
      }
      staked := staked.Subtract(amount);
      if staked.IsEmpty() {
        staked := NO_STAKE;
      }
      if stakedFuture.Some? {
        stakedFuture := Some(stakedFuture.value.Subtract(amount));
        if stakedFuture.value.IsEmpty() {
          stakedFuture := None;
        }
      }
      return None;
    }

    method MaybeCleanupExpired(validThresholdPeriod: PeriodNumber) returns (changed: bool)
      modifies this
      ensures View() == old(View()).MaybeCleanupExpired(validThresholdPeriod)
      ensures !changed ==> View() == old(View())
    {
      var period := View().StakedPeriod();
      changed := period.Some? && period.value < validThresholdPeriod;
      if changed {
        staked := NO_STAKE;
        stakedFuture := None;
      }
    }

    method ClaimUpToEra(era: EraNumber, periodEnd: Option<EraNumber>) returns (r: LedgerResult<EraStakePairs>)
      modifies this
      ensures match old(View()).ClaimUpToEra(era, periodEnd)
              case Ok((after, pairs)) => r == Ok(pairs) && View() == after
              case Err(e) => r == Err(e) && View() == old(View())
    {
      if !staked.IsEmpty() {
        if era < staked.era {
          return Err(NothingToClaim);
        }
      } else if stakedFuture.Some? && era < stakedFuture.value.era {
        return Err(NothingToClaim);
      }
      var span, maybeFirst := (staked.era, era, staked.total), None;
      if stakedFuture.Some? {
        var future := stakedFuture.value;
        if !staked.IsEmpty() && staked.era == era {
          span := (era, era, staked.total);
        } else {
          span := (future.era, era, future.total);
          if !staked.IsEmpty() {
            maybeFirst := Some((staked.era, staked.total));
          }
        }
      }
      r := NewPairs(span, maybeFirst);
      if r.Err? {
        return;
      }
      if stakedFuture.Some? {
        staked, stakedFuture := stakedFuture.value, None;
      }
      staked := staked.(era := era + 1);
      if periodEnd.Some? && era >= periodEnd.value {
        staked, stakedFuture := NO_STAKE, None;
      }
    }
  }

  // ---------- stake on a contract ----------

  class StakerRecord {
    var previousStaked: StakeAmount
    var staked: StakeAmount
    var loyalStaker: bool

    function View(): StakingInfo
      reads this
    {
      StakingInfo(previousStaked, staked, loyalStaker)
    }

    constructor (info: StakingInfo)
      ensures View() == info
    {
      previousStaked, staked, loyalStaker := info.previousStaked, info.staked, info.loyalStaker;
    }

    method Stake(amount: Balance, era: EraNumber, subperiod: Subperiod)
      modifies this
      ensures View() == old(View()).Stake(amount, era, subperiod)
    {
      previousStaked := staked.(era := era);
      if previousStaked.total == 0 {
        previousStaked := NO_STAKE;
      }
      staked := staked.Add(amount, subperiod);
      staked := staked.(era := era + 1);
    }

    method MovePrevious(snapshot: StakeAmount)
      modifies this`previousStaked
      ensures previousStaked == old(View()).(staked := snapshot).PreviousAsOf(staked.era)
    {
      var previousEra := SatSub(staked.era, 1);
      if snapshot.era <= previousEra {
        previousStaked := snapshot.(era := previousEra);
      } else if !previousStaked.IsEmpty() && previousStaked.era <= previousEra {
        previousStaked := previousStaked.(era := previousEra);
      } else {
        previousStaked := NO_STAKE;
      }
    }

    method ReducePrevious(total: Balance, unstaked: Balance, era: EraNumber) returns (pairs: EraPairs)
      modifies this`previousStaked
      ensures (previousStaked, pairs) == TakeFromPrevious(old(previousStaked), total, unstaked, era, staked.era)
    {
      pairs := [(staked.era, unstaked)];
      if previousStaked.era == era {
        if total >= previousStaked.total && unstaked > total - previousStaked.total {
          var overflow: Balance := unstaked - (total - previousStaked.total);
          pairs := [(previousStaked.era, overflow)] + pairs;
          assert pairs == [(era, overflow), (staked.era, unstaked)];
          previousStaked := previousStaked.Subtract(overflow);
        }
      } else if staked.era == era {
        pairs := pairs + [(staked.era + 1, unstaked)];
        assert pairs == [(staked.era, unstaked), (staked.era + 1, unstaked)];
      }
    }

    method Unstake(amount: Balance, era: EraNumber, subperiod: Subperiod) returns (pairs: EraPairs)
      modifies this
      ensures (View(), pairs) == old(View()).Unstake(amount, era, subperiod)
    {
      var snapshot := staked;
      staked := staked.Subtract(amount);
      var unstaked := SatSub(snapshot.total, staked.total);
      staked := staked.(era := Max(staked.era, era));
      loyalStaker := loyalStaker && match subperiod
        case Voting => staked.voting != 0
        case BuildAndEarn => staked.voting == snapshot.voting;
      MovePrevious(snapshot);
      pairs := ReducePrevious(snapshot.total, unstaked, era);
      if previousStaked.IsEmpty() {
        previousStaked := NO_STAKE;
      }
      if staked.IsEmpty() {
        staked, previousStaked := NO_STAKE, NO_STAKE;
      }
    }
  }

  class ContractRecord {
    var staked: StakeAmount
    var stakedFuture: Option<StakeAmount>

    function View(): ContractStakeAmount
      reads this
    {
      ContractStakeAmount(staked, stakedFuture)
    }

    constructor (c: ContractStakeAmount)
      ensures View() == c
    {
      staked, stakedFuture := c.staked, c.stakedFuture;
    }

    method Stake(amount: Balance, period: PeriodInfo, era: EraNumber)
      modifies this
      ensures View() == old(View()).Stake(amount, period, era)
    {
      if stakedFuture.Some? && stakedFuture.value.era == era + 1 {
        stakedFuture := Some(stakedFuture.value.Add(amount, period.subperiod));
        return;
      }
      if stakedFuture.Some? && stakedFuture.value.period == period.number {
        staked := stakedFuture.value;
        staked := staked.(era := era);
      }
      var entry := if staked.period == period.number then staked else NO_STAKE;
      entry := entry.Add(amount, period.subperiod);
      entry := entry.(era := era + 1, period := period.number);
      stakedFuture := Some(entry);
      if staked.period < period.number {
        staked := NO_STAKE;
      }
    }

    method Align(period: PeriodInfo, era: EraNumber)
      modifies this
      ensures View() == old(View()).Align(period, era)
    {
      if stakedFuture.Some? && stakedFuture.value.era <= era && stakedFuture.value.period == period.number {
        staked := stakedFuture.value.(era := era);
        stakedFuture := None;
      }
      if staked.era < era && staked.period == period.number {
        staked := staked.(era := era);
      }
    }

    method Unstake(pairs: EraPairs, period: PeriodInfo, era: EraNumber)
      modifies this
      ensures View() == old(View()).Unstake(pairs, period, era)
    {
      ghost var aligned := old(View()).Align(period, era);
      Align(period, era);
      for i := 0 to |pairs|
        invariant View().ApplyPairs(pairs[i..]) == aligned.ApplyPairs(pairs)
      {
        var (pairEra, amount) := pairs[i];
        assert pairs[i..][1..] == pairs[i + 1..];
        if staked.era == pairEra {
          staked := staked.Subtract(amount);
        } else if stakedFuture.Some? && stakedFuture.value.era == pairEra {
          stakedFuture := Some(stakedFuture.value.Subtract(amount));
        }
      }
      if staked.IsEmpty() {
        staked := NO_STAKE;
      }
      if stakedFuture.Some? && stakedFuture.value.IsEmpty() {
        stakedFuture := None;
      }
    }
  }
}

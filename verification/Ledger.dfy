/** `AccountLedger`: what one account has locked, is unlocking and has staked, with the
    stake kept in two lazily updated entries. */
module Ledger {
  import opened Arithmetic
  import opened StakeTypes
  import opened Calendar

  datatype LedgerError =
    | InvalidEra
    | NoCapacity
    | InvalidPeriod
    | UnavailableStakeFunds
    | UnstakeAmountLargerThanStake
    | NothingToClaim
    | InvalidIterator

  datatype LedgerResult<+T> = Ok(value: T) | Err(error: LedgerError)

  /** The state of an `EraStakePairIter`: an optional distinct first pair, then one amount
      for every era from `startEra` to `endEra`. */
  datatype EraStakePairs = EraStakePairs(
    maybeFirst: Option<(EraNumber, Balance)>,
    startEra: EraNumber,
    endEra: EraNumber,
    amount: Balance)
  {
    /** All pairs still to be yielded, in order. */
    function Pairs(): seq<(EraNumber, Balance)> {
      (if maybeFirst.Some? then [maybeFirst.value] else []) + ConstantPairs(startEra, endEra, amount)
    }
  }

  function ConstantPairs(first: EraNumber, last: EraNumber, amount: Balance): (r: seq<(EraNumber, Balance)>)
    ensures |r| == SatSub(last + 1, first)
    ensures forall i :: 0 <= i < |r| ==> r[i] == (first + i, amount)
    decreases last + 1 - first
  {
    if first > last then [] else [(first, amount)] + ConstantPairs(first + 1, last, amount)
  }

  function NewPairs(span: (EraNumber, EraNumber, Balance), maybeFirst: Option<(EraNumber, Balance)>)
    : LedgerResult<EraStakePairs>
  {
    if span.0 > span.1 then Err(InvalidIterator)
    else if maybeFirst.Some? && SatSub(span.0, maybeFirst.value.0) != 1 then Err(InvalidIterator)
    else Ok(EraStakePairs(maybeFirst, span.0, span.1, span.2))
  }

  function ChunkTotal(chunks: seq<UnlockingChunk>): Balance {
    if |chunks| == 0 then 0 else chunks[0].amount + ChunkTotal(chunks[1..])
  }

  /** Amount in chunks whose unlocking is finished at block `now`. */
  function MaturedTotal(chunks: seq<UnlockingChunk>, now: BlockNumber): Balance {
    if |chunks| == 0 then 0
    else (if chunks[0].unlockBlock <= now then chunks[0].amount else 0) + MaturedTotal(chunks[1..], now)
  }

  function Retained(chunks: seq<UnlockingChunk>, now: BlockNumber): seq<UnlockingChunk> {
    if |chunks| == 0 then []
    else (if chunks[0].unlockBlock <= now then [] else [chunks[0]]) + Retained(chunks[1..], now)
  }

  predicate HasChunk(chunks: seq<UnlockingChunk>, unlockBlock: BlockNumber) {
    exists i :: 0 <= i < |chunks| && chunks[i].unlockBlock == unlockBlock
  }

  /** `chunks` with `amount` more unlocking at `unlockBlock`, kept in block order. */
  function WithChunk(chunks: seq<UnlockingChunk>, amount: Balance, unlockBlock: BlockNumber): seq<UnlockingChunk> {
    if |chunks| == 0 || unlockBlock < chunks[0].unlockBlock then
      [UnlockingChunk(amount, unlockBlock)] + chunks
    else if unlockBlock == chunks[0].unlockBlock then
      [UnlockingChunk(chunks[0].amount + amount, unlockBlock)] + chunks[1..]
    else
      [chunks[0]] + WithChunk(chunks[1..], amount, unlockBlock)
  }

  /** A future entry with `amount` taken out, dropped once nothing is left. */
  function ReducedEntry(entry: Option<StakeAmount>, amount: Balance): Option<StakeAmount> {
    if entry.None? || entry.value.Subtract(amount).IsEmpty() then None else Some(entry.value.Subtract(amount))
  }

  datatype AccountLedger = AccountLedger(
    locked: Balance,
    unlocking: seq<UnlockingChunk>,
    staked: StakeAmount,
    stakedFuture: Option<StakeAmount>,
    contractStakeCount: nat)
  {
    predicate IsEmpty() {
      locked == 0 && |unlocking| == 0 && staked.total == 0 && stakedFuture.None?
    }

    const totalLocked: Balance := locked + ChunkTotal(unlocking)

    /** Amount staked in `period`, as of the next era. */
    function StakedAmount(period: PeriodNumber): Balance {
      if stakedFuture.Some? && stakedFuture.value.period == period then stakedFuture.value.total
      else if staked.period == period then staked.total
      else 0
    }

    function UnlockableAmount(period: PeriodNumber): Balance {
      SatSub(locked, StakedAmount(period))
    }

    function AddUnlockingChunk(amount: Balance, unlockBlock: BlockNumber, maxChunks: nat): LedgerResult<AccountLedger> {
      if amount == 0 then Ok(this)
      else if HasChunk(unlocking, unlockBlock) || |unlocking| < maxChunks then
        Ok(this.(unlocking := WithChunk(unlocking, amount, unlockBlock)))
      else Err(NoCapacity)
    }

    function ClaimUnlocked(now: BlockNumber): (AccountLedger, Balance) {
      (this.(unlocking := Retained(unlocking, now)), MaturedTotal(unlocking, now))
    }

    function ConsumeUnlockingChunks(): (AccountLedger, Balance) {
      (this.(unlocking := []), ChunkTotal(unlocking))
    }

    /** Stake entries may only be changed once all past eras have been claimed. */
    function StakeUnstakeCheck(era: EraNumber, period: PeriodInfo): Option<LedgerError> {
      if !staked.IsEmpty() then
        if staked.era != era then Some(InvalidEra)
        else if staked.period != period.number then Some(InvalidPeriod)
        else None
      else if stakedFuture.Some? then
        if stakedFuture.value.era != era + 1 && stakedFuture.value.era != era then Some(InvalidEra)
        else if stakedFuture.value.period != period.number then Some(InvalidPeriod)
        else None
      else None
    }

    function AddStakeAmount(amount: Balance, era: EraNumber, period: PeriodInfo): LedgerResult<AccountLedger> {
      if amount == 0 then Ok(this)
      else
        var check := StakeUnstakeCheck(era, period);
        if check.Some? then Err(check.value)
        else if UnlockableAmount(period.number) < amount then Err(UnavailableStakeFunds)
        else
          match stakedFuture
          case Some(future) =>
            var current := if future.era == era then future else staked;
            Ok(this.(staked := current,
                     stakedFuture := Some(future.Add(amount, period.subperiod).(era := era + 1))))
          case None =>
            var future := staked.(era := era + 1, period := period.number).Add(amount, period.subperiod);
            Ok(this.(stakedFuture := Some(future)))
    }

    function UnstakeAmount(amount: Balance, era: EraNumber, period: PeriodInfo): LedgerResult<AccountLedger> {
      if amount == 0 then Ok(this)
      else
        var check := StakeUnstakeCheck(era, period);
        if check.Some? then Err(check.value)
        else if StakedAmount(period.number) < amount then Err(UnstakeAmountLargerThanStake)
        else
          var current := staked.Subtract(amount);
          Ok(this.(staked := if current.IsEmpty() then NO_STAKE else current,
                   stakedFuture := ReducedEntry(stakedFuture, amount)))
    }

    function StakedPeriod(): Option<PeriodNumber> {
      if !staked.IsEmpty() then Some(staked.period)
      else if stakedFuture.Some? then Some(stakedFuture.value.period)
      else None
    }

    function EarliestStakedEra(): Option<EraNumber> {
      if !staked.IsEmpty() then Some(staked.era)
      else if stakedFuture.Some? then Some(stakedFuture.value.era)
      else None
    }

    function MaybeCleanupExpired(validThresholdPeriod: PeriodNumber): AccountLedger {
      var period := StakedPeriod();
      if period.Some? && period.value < validThresholdPeriod then this.(staked := NO_STAKE, stakedFuture := None)
      else this
    }

    function ClaimUpToEra(era: EraNumber, periodEnd: Option<EraNumber>)
      : LedgerResult<(AccountLedger, EraStakePairs)>
    {
      if !staked.IsEmpty() && era < staked.era then Err(NothingToClaim)
      else if staked.IsEmpty() && stakedFuture.Some? && era < stakedFuture.value.era then Err(NothingToClaim)
      else
        var spanAndFirst :=
          match stakedFuture
          case Some(future) =>
            if staked.IsEmpty() then ((future.era, era, future.total), None)
            else if staked.era == era then ((era, era, staked.total), None)
            else ((future.era, era, future.total), Some((staked.era, staked.total)))
          case None => ((staked.era, era, staked.total), None);
        match NewPairs(spanAndFirst.0, spanAndFirst.1)
        case Err(error) => Err(error)
        case Ok(pairs) =>
          if periodEnd.Some? && era >= periodEnd.value then
            Ok((this.(staked := NO_STAKE, stakedFuture := None), pairs))
          else
            var latest := if stakedFuture.Some? then stakedFuture.value else staked;
            Ok((this.(staked := latest.(era := era + 1), stakedFuture := None), pairs))
    }

    /** The plain view of the two entries: the stake in force in `era`. */
    function StakeAt(era: EraNumber): Balance {
      if stakedFuture.Some? && stakedFuture.value.era <= era then stakedFuture.value.total
      else if staked.era <= era then staked.total
      else 0
    }
  }

  const NO_LEDGER := AccountLedger(0, [], NO_STAKE, None, 0)

  /** Shape of the two stake entries in era `era`: an empty entry is the default one, and
      when both are in use they are consecutive, in one period, and never shrinking. */
  predicate EntriesOk(era: EraNumber, ledger: AccountLedger) {
    && (ledger.staked.IsEmpty() ==> ledger.staked == NO_STAKE)
    && ledger.staked.era <= era
    && (ledger.stakedFuture.Some? ==>
          && !ledger.stakedFuture.value.IsEmpty()
          && ledger.stakedFuture.value.era <= era + 1
          && (!ledger.staked.IsEmpty() ==>
                && ledger.stakedFuture.value.period == ledger.staked.period
                && ledger.stakedFuture.value.era == ledger.staked.era + 1
                && ledger.staked.total <= ledger.stakedFuture.value.total))
  }

  /** Every entry in use refers to an era of its own period, which is not a future period. */
  predicate PeriodsOk(length: nat, period: PeriodNumber, ledger: AccountLedger) {
    && (!ledger.staked.IsEmpty() ==>
          ledger.staked.period <= period && InPeriod(length, ledger.staked.era, ledger.staked.period))
    && (ledger.stakedFuture.Some? ==>
          && ledger.stakedFuture.value.period <= period
          && InPeriod(length, ledger.stakedFuture.value.era, ledger.stakedFuture.value.period))
  }

  // ---------- unlocking chunks ----------

  lemma {:induction false} WithChunkAdds(chunks: seq<UnlockingChunk>, amount: Balance, unlockBlock: BlockNumber)
    ensures ChunkTotal(WithChunk(chunks, amount, unlockBlock)) == ChunkTotal(chunks) + amount
  {
    if |chunks| == 0 || unlockBlock < chunks[0].unlockBlock {
      assert ([UnlockingChunk(amount, unlockBlock)] + chunks)[1..] == chunks;
    } else if unlockBlock == chunks[0].unlockBlock {
      assert WithChunk(chunks, amount, unlockBlock)[1..] == chunks[1..];
    } else {
      WithChunkAdds(chunks[1..], amount, unlockBlock);
      assert WithChunk(chunks, amount, unlockBlock)[1..] == WithChunk(chunks[1..], amount, unlockBlock);
    }
  }

  lemma {:induction false} WithChunkMatures(chunks: seq<UnlockingChunk>, amount: Balance, unlockBlock: BlockNumber, now: BlockNumber)
    ensures MaturedTotal(WithChunk(chunks, amount, unlockBlock), now)
            == MaturedTotal(chunks, now) + if unlockBlock <= now then amount else 0
  {
    if |chunks| == 0 || unlockBlock < chunks[0].unlockBlock {
      assert ([UnlockingChunk(amount, unlockBlock)] + chunks)[1..] == chunks;
    } else if unlockBlock == chunks[0].unlockBlock {
      assert WithChunk(chunks, amount, unlockBlock)[1..] == chunks[1..];
    } else {
      WithChunkMatures(chunks[1..], amount, unlockBlock, now);
      assert WithChunk(chunks, amount, unlockBlock)[1..] == WithChunk(chunks[1..], amount, unlockBlock);
    }
  }

  /** Every chunk of `chunks` unlocks after block `floor`, with a positive amount, and the
      chunks are strictly sorted by block. */
  predicate ChunksAfter(chunks: seq<UnlockingChunk>, floor: int) {
    |chunks| == 0 || (chunks[0].unlockBlock > floor && chunks[0].amount > 0 && ChunksAfter(chunks[1..], chunks[0].unlockBlock))
  }

  lemma {:induction false} ChunksAfterIsSorted(chunks: seq<UnlockingChunk>, floor: int)
    requires ChunksAfter(chunks, floor)
    ensures forall i :: 0 <= i < |chunks| ==> chunks[i].unlockBlock > floor && chunks[i].amount > 0
    ensures forall i, j :: 0 <= i < j < |chunks| ==> chunks[i].unlockBlock < chunks[j].unlockBlock
  {
    if |chunks| > 0 {
      ChunksAfterIsSorted(chunks[1..], chunks[0].unlockBlock);
      assert forall i :: 1 <= i < |chunks| ==> chunks[i] == chunks[1..][i - 1];
    }
  }

  lemma {:induction false} WithChunkSorted(chunks: seq<UnlockingChunk>, floor: int, amount: Balance, unlockBlock: BlockNumber)
    requires ChunksAfter(chunks, floor) && amount > 0 && unlockBlock > floor
    ensures ChunksAfter(WithChunk(chunks, amount, unlockBlock), floor)
  {
    var after := WithChunk(chunks, amount, unlockBlock);
    if |chunks| == 0 || unlockBlock < chunks[0].unlockBlock {
      assert after[1..] == chunks;
    } else if unlockBlock == chunks[0].unlockBlock {
      assert after[1..] == chunks[1..];
    } else {
      WithChunkSorted(chunks[1..], chunks[0].unlockBlock, amount, unlockBlock);
      assert after[1..] == WithChunk(chunks[1..], amount, unlockBlock);
    }
  }

  lemma {:induction false} WithChunkLength(chunks: seq<UnlockingChunk>, floor: int, amount: Balance, unlockBlock: BlockNumber)
    requires ChunksAfter(chunks, floor)
    ensures |WithChunk(chunks, amount, unlockBlock)| ==
              if HasChunk(chunks, unlockBlock) then |chunks| else |chunks| + 1
  {
    if |chunks| == 0 {
    } else if unlockBlock < chunks[0].unlockBlock {
      ChunksAfterIsSorted(chunks, floor);
    } else if unlockBlock > chunks[0].unlockBlock {
      WithChunkLength(chunks[1..], chunks[0].unlockBlock, amount, unlockBlock);
      HasChunkTail(chunks, unlockBlock);
    }
  }

  lemma HasChunkTail(chunks: seq<UnlockingChunk>, unlockBlock: BlockNumber)
    requires |chunks| > 0 && chunks[0].unlockBlock != unlockBlock
    ensures HasChunk(chunks, unlockBlock) == HasChunk(chunks[1..], unlockBlock)
  {
    if HasChunk(chunks, unlockBlock) {
      var i :| 0 <= i < |chunks| && chunks[i].unlockBlock == unlockBlock;
      assert chunks[1..][i - 1].unlockBlock == unlockBlock;
    }
    if HasChunk(chunks[1..], unlockBlock) {
      var i :| 0 <= i < |chunks[1..]| && chunks[1..][i].unlockBlock == unlockBlock;
      assert chunks[i + 1].unlockBlock == unlockBlock;
    }
  }

  /** Claiming takes exactly the matured amount out and keeps the order. */
  lemma {:induction false} RetainedKeepsTheRest(chunks: seq<UnlockingChunk>, floor: int, now: BlockNumber)
    requires ChunksAfter(chunks, floor)
    ensures ChunkTotal(Retained(chunks, now)) + MaturedTotal(chunks, now) == ChunkTotal(chunks)
    ensures ChunksAfter(Retained(chunks, now), floor) && |Retained(chunks, now)| <= |chunks|
  {
    if |chunks| > 0 {
      var rest := Retained(chunks[1..], now);
      RetainedKeepsTheRest(chunks[1..], chunks[0].unlockBlock, now);
      if chunks[0].unlockBlock > now {
        assert ([chunks[0]] + rest)[1..] == rest;
      } else {
        assert Retained(chunks, now) == rest;
        ChunksAfterWeaken(rest, chunks[0].unlockBlock, floor);
      }
    }
  }

  lemma ChunksAfterWeaken(chunks: seq<UnlockingChunk>, floor: int, lower: int)
    requires ChunksAfter(chunks, floor) && lower <= floor
    ensures ChunksAfter(chunks, lower)
  {
  }

  /** What is left after a claim at `now` matures later, and nothing of it before. */
  lemma {:induction false} RetainedMatures(chunks: seq<UnlockingChunk>, now: BlockNumber, later: BlockNumber)
    ensures later <= now ==> MaturedTotal(Retained(chunks, now), later) == 0
    ensures now <= later ==>
              MaturedTotal(Retained(chunks, now), later) + MaturedTotal(chunks, now) == MaturedTotal(chunks, later)
  {
    if |chunks| > 0 {
      var rest := Retained(chunks[1..], now);
      RetainedMatures(chunks[1..], now, later);
      if chunks[0].unlockBlock > now {
        assert ([chunks[0]] + rest)[1..] == rest;
      } else {
        assert Retained(chunks, now) == rest;
      }
    }
  }

  // ---------- stake entries ----------

  /** Staking adds to every later era and leaves the current and all earlier ones alone. */
  lemma AddStakeRefines(ledger: AccountLedger, amount: Balance, era: EraNumber, info: PeriodInfo, x: EraNumber)
    requires amount > 0 && EntriesOk(era, ledger)
    requires ledger.AddStakeAmount(amount, era, info).Ok?
    ensures var after := ledger.AddStakeAmount(amount, era, info).value;
            after.StakeAt(x) == ledger.StakeAt(x) + if x > era then amount else 0
  {
    var after := ledger.AddStakeAmount(amount, era, info).value;
    if ledger.stakedFuture.Some? {
      assert after.stakedFuture.value.total == ledger.stakedFuture.value.total + amount;
    } else {
      assert after.stakedFuture.value.total == ledger.staked.total + amount;
    }
  }

  /** Unstaking takes the amount out of the current era, as far as it is staked there, and
      in full out of every later era. */
  lemma UnstakeRefines(ledger: AccountLedger, amount: Balance, era: EraNumber, info: PeriodInfo, x: EraNumber)
    requires amount > 0 && EntriesOk(era, ledger) && x >= era
    requires ledger.UnstakeAmount(amount, era, info).Ok?
    ensures var after := ledger.UnstakeAmount(amount, era, info).value;
            && after.StakeAt(x) == SatSub(ledger.StakeAt(x), amount)
            && (x > era ==> after.StakeAt(x) + amount == ledger.StakeAt(x))
  {
    var after := ledger.UnstakeAmount(amount, era, info).value;
    assert after.staked.total == SatSub(ledger.staked.total, amount);
    if ledger.stakedFuture.Some? {
      var future := ledger.stakedFuture.value;
      assert future.Subtract(amount).total == future.total - amount;
      if after.stakedFuture.Some? {
        assert after.stakedFuture.value.total == future.total - amount;
        assert after.stakedFuture.value.era == future.era;
      } else {
        assert future.total == amount;
        assert after.staked == NO_STAKE;
      }
    } else {
      assert after.stakedFuture.None?;
    }
  }

  lemma AddStakeKeepsShape(length: nat, ledger: AccountLedger, amount: Balance, era: EraNumber, info: PeriodInfo)
    requires amount > 0 && EntriesOk(era, ledger) && PeriodsOk(length, info.number, ledger)
    requires InPeriod(length, era + 1, info.number)
    requires ledger.AddStakeAmount(amount, era, info).Ok?
    ensures var after := ledger.AddStakeAmount(amount, era, info).value;
            && EntriesOk(era, after) && PeriodsOk(length, info.number, after)
            && after.StakedAmount(info.number) == ledger.StakedAmount(info.number) + amount
            && after.StakedAmount(info.number) <= after.locked
            && after == ledger.(staked := after.staked, stakedFuture := after.stakedFuture)
  {
    var after := ledger.AddStakeAmount(amount, era, info).value;
    assert after.stakedFuture.Some?;
    if ledger.stakedFuture.Some? {
      assert after.stakedFuture.value.total == ledger.stakedFuture.value.total + amount;
    } else {
      assert after.stakedFuture.value.total == ledger.staked.total + amount;
    }
  }

  lemma UnstakeKeepsShape(length: nat, ledger: AccountLedger, amount: Balance, era: EraNumber, info: PeriodInfo)
    requires amount > 0 && EntriesOk(era, ledger) && PeriodsOk(length, info.number, ledger)
    requires ledger.UnstakeAmount(amount, era, info).Ok?
    ensures var after := ledger.UnstakeAmount(amount, era, info).value;
            && EntriesOk(era, after) && PeriodsOk(length, info.number, after)
            && after.StakedAmount(info.number) + amount == ledger.StakedAmount(info.number)
            && after == ledger.(staked := after.staked, stakedFuture := after.stakedFuture)
  {
    var after := ledger.UnstakeAmount(amount, era, info).value;
    assert after.staked.total == SatSub(ledger.staked.total, amount);
    if ledger.stakedFuture.Some? {
      var future := ledger.stakedFuture.value;
      assert future.Subtract(amount).total == future.total - amount;
    }
  }

  /** The stake in force in every era from `first` to `last`. */
  function InForce(ledger: AccountLedger, first: EraNumber, last: EraNumber): (r: seq<(EraNumber, Balance)>)
    ensures |r| == SatSub(last + 1, first)
    ensures forall i :: 0 <= i < |r| ==> r[i] == (first + i, ledger.StakeAt(first + i))
    decreases last + 1 - first
  {
    if first > last then [] else [(first, ledger.StakeAt(first))] + InForce(ledger, first + 1, last)
  }

  /** A claim for an account with stake fails only when there is nothing to claim yet. On
      success it yields the stake in force in every era since the earliest unclaimed one. */
  lemma ClaimYieldsStakeInForce(ledger: AccountLedger, era: EraNumber, periodEnd: Option<EraNumber>, now: EraNumber)
    requires EntriesOk(now, ledger) && ledger.EarliestStakedEra().Some?
    ensures var r := ledger.ClaimUpToEra(era, periodEnd);
            && (r.Err? <==> era < ledger.EarliestStakedEra().value)
            && (r.Err? ==> r.error == NothingToClaim)
            && (r.Ok? ==> r.value.1.Pairs() == InForce(ledger, ledger.EarliestStakedEra().value, era))
  {
    var r := ledger.ClaimUpToEra(era, periodEnd);
    var first := ledger.EarliestStakedEra().value;
    if r.Ok? {
      var pairs := r.value.1;
      var spec := InForce(ledger, first, era);
      assert |pairs.Pairs()| == |spec|;
      assert forall i :: 0 <= i < |spec| ==> pairs.Pairs()[i] == spec[i];
    }
  }

  /** After a claim the account keeps exactly the stake of the eras not yet claimed, or
      nothing once the end of the period was reached. */
  lemma ClaimKeepsTheRest(length: nat, ledger: AccountLedger, era: EraNumber, periodEnd: Option<EraNumber>, now: EraNumber, period: PeriodNumber)
    requires EntriesOk(now, ledger) && PeriodsOk(length, period, ledger) && ledger.StakedPeriod().Some?
    requires periodEnd != Some(era) ==> era < now && era < FinalEra(length, ledger.StakedPeriod().value)
    requires ledger.ClaimUpToEra(era, periodEnd).Ok?
    ensures var after := ledger.ClaimUpToEra(era, periodEnd).value.0;
            && EntriesOk(now, after) && PeriodsOk(length, period, after)
            && after == ledger.(staked := after.staked, stakedFuture := after.stakedFuture)
            && (if periodEnd.Some? && era >= periodEnd.value
                then after.EarliestStakedEra().None? && after.StakedAmount(ledger.StakedPeriod().value) == 0
                else && after.EarliestStakedEra() == Some(era + 1)
                     && after.StakedPeriod() == ledger.StakedPeriod()
                     && after.StakedAmount(period) == ledger.StakedAmount(period))
  {
  }

  lemma ClaimKeepsLaterEras(ledger: AccountLedger, era: EraNumber, periodEnd: Option<EraNumber>, now: EraNumber, x: EraNumber)
    requires EntriesOk(now, ledger) && ledger.StakedPeriod().Some? && era < now
    requires ledger.ClaimUpToEra(era, periodEnd).Ok?
    requires periodEnd.Some? ==> era < periodEnd.value
    ensures EntriesOk(now, ledger.ClaimUpToEra(era, periodEnd).value.0)
    ensures x > era ==> ledger.ClaimUpToEra(era, periodEnd).value.0.StakeAt(x) == ledger.StakeAt(x)
  {
  }

  /** One claim: the last era it covers, and the end of the staked period if that is over. */
  type Claim = (EraNumber, Option<EraNumber>)

  /** Consecutive claims, each of an account that still has stake, with all pairs they
      yield; `None` when one of them is refused. */
  function ClaimRun(ledger: AccountLedger, claims: seq<Claim>): Option<seq<(EraNumber, Balance)>>
    decreases |claims|
  {
    if |claims| == 0 then Some([])
    else if ledger.StakedPeriod().None? then None
    else
      match ledger.ClaimUpToEra(claims[0].0, claims[0].1)
      case Err(_) => None
      case Ok((after, pairs)) =>
        match ClaimRun(after, claims[1..])
        case None => None
        case Some(rest) => Some(pairs.Pairs() + rest)
  }

  /** Any sequence of successful claims yields every era from the earliest unclaimed one
      to the last claimed one exactly once, in order, with the stake in force in it. */
  lemma {:induction false} ClaimRunYieldsEachEraOnce(ledger: AccountLedger, claims: seq<Claim>, now: EraNumber)
    requires EntriesOk(now, ledger) && |claims| > 0
    requires forall i :: 0 <= i < |claims| ==> claims[i].0 < now
    requires ClaimRun(ledger, claims).Some?
    ensures ledger.EarliestStakedEra().Some?
    ensures ClaimRun(ledger, claims).value
            == InForce(ledger, ledger.EarliestStakedEra().value, claims[|claims| - 1].0)
    decreases |claims|
  {
    var (era, periodEnd) := claims[0];
    ClaimYieldsStakeInForce(ledger, era, periodEnd, now);
    if |claims| > 1 {
      var after, last := ledger.ClaimUpToEra(era, periodEnd).value.0, claims[|claims| - 1].0;
      ClaimKeepsLaterEras(ledger, era, periodEnd, now, era);
      ClaimRunYieldsEachEraOnce(after, claims[1..], now);
      ClaimsAscend(after, claims[1..], now);
      ClaimedAfterEra(ledger, era, periodEnd, now, last);
      InForceSplit(ledger, ledger.EarliestStakedEra().value, era, last);
    }
  }

  lemma ClaimedAfterEra(ledger: AccountLedger, era: EraNumber, periodEnd: Option<EraNumber>, now: EraNumber, last: EraNumber)
    requires EntriesOk(now, ledger) && ledger.StakedPeriod().Some? && era < now
    requires periodEnd.Some? ==> era < periodEnd.value
    requires ledger.ClaimUpToEra(era, periodEnd).Ok?
    ensures InForce(ledger.ClaimUpToEra(era, periodEnd).value.0, era + 1, last) == InForce(ledger, era + 1, last)
  {
    var after := ledger.ClaimUpToEra(era, periodEnd).value.0;
    forall x | x > era
      ensures after.StakeAt(x) == ledger.StakeAt(x)
    {
      ClaimKeepsLaterEras(ledger, era, periodEnd, now, x);
    }
  }

  lemma InForceSplit(ledger: AccountLedger, first: EraNumber, middle: EraNumber, last: EraNumber)
    requires first <= middle <= last
    ensures InForce(ledger, first, middle) + InForce(ledger, middle + 1, last) == InForce(ledger, first, last)
  {
  }

  /** The last era of a run of claims is not before the earliest unclaimed era. */
  lemma {:induction false} ClaimsAscend(ledger: AccountLedger, claims: seq<Claim>, now: EraNumber)
    requires EntriesOk(now, ledger) && |claims| > 0
    requires forall i :: 0 <= i < |claims| ==> claims[i].0 < now
    requires ClaimRun(ledger, claims).Some?
    ensures ledger.EarliestStakedEra().Some? && ledger.EarliestStakedEra().value <= claims[|claims| - 1].0
    decreases |claims|
  {
    var (era, periodEnd) := claims[0];
    ClaimYieldsStakeInForce(ledger, era, periodEnd, now);
    if |claims| > 1 {
      ClaimKeepsLaterEras(ledger, era, periodEnd, now, era);
      ClaimsAscend(ledger.ClaimUpToEra(era, periodEnd).value.0, claims[1..], now);
    }
  }
}

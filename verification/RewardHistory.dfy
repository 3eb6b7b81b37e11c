/** `EraRewards`: the reward of every finished era, stored in spans of up to `length`
    consecutive eras, and the marker-driven pruning of that history. */
module RewardHistory {
  import opened Arithmetic
  import opened StakeTypes

  datatype EraReward = EraReward(stakerRewardPool: Balance, staked: Balance, dappRewardPool: Balance)

  datatype EraRewardSpan = EraRewardSpan(span: seq<EraReward>, firstEra: EraNumber, lastEra: EraNumber) {

    /** The span after an attempt to append `reward`, and whether the attempt succeeded. */
    function Push(era: EraNumber, reward: EraReward, length: nat): (EraRewardSpan, bool) {
      var appended := if |span| < length then span + [reward] else span;
      if |span| == 0 then (EraRewardSpan(appended, era, era), |span| < length)
      else if era != lastEra + 1 then (this, false)
      else (EraRewardSpan(appended, firstEra, era), |span| < length)
    }

    function Get(era: EraNumber): Option<EraReward> {
      if era < firstEra || era - firstEra >= |span| then None else Some(span[era - firstEra])
    }
  }

  type Spans = map<EraNumber, EraRewardSpan>
  type History = map<EraNumber, EraReward>

  datatype CleanupMarker = CleanupMarker(
    eraRewardIndex: EraNumber,
    dappTiersIndex: EraNumber,
    oldestValidEra: EraNumber)
  {
    predicate HasPendingCleanups() {
      eraRewardIndex != oldestValidEra || dappTiersIndex != oldestValidEra
    }
  }

  function SpanIndex(length: nat, era: EraNumber): EraNumber
    requires length > 0
  {
    era - era % length
  }

  function SpanFor(spans: Spans, index: EraNumber): EraRewardSpan {
    if index in spans then spans[index] else EraRewardSpan([], 0, 0)
  }

  function Record(length: nat, spans: Spans, era: EraNumber, reward: EraReward): Spans
    requires length > 0
  {
    var index := SpanIndex(length, era);
    spans[index := SpanFor(spans, index).Push(era, reward, length).0]
  }

  /** The stored reward of `era`, if any. */
  function Lookup(length: nat, spans: Spans, era: EraNumber): Option<EraReward>
    requires length > 0
  {
    SpanFor(spans, SpanIndex(length, era)).Get(era)
  }

  /** One pass of the pruning over the spans. */
  function PruneSpans(length: nat, spans: Spans, index: EraNumber, oldest: EraNumber): (Spans, EraNumber) {
    if index >= oldest then (spans, index)
    else if index in spans then
      if spans[index].lastEra < oldest then (spans - {index}, index + length) else (spans, index)
    else (spans, index + length)
  }

  // ---------- span arithmetic ----------

  lemma SpanIndexIs(length: nat, era: EraNumber, index: EraNumber)
    requires length > 0 && index % length == 0 && index <= era < index + length
    ensures SpanIndex(length, era) == index
  {
    var a := era / length;
    var b := index / length;
    assert era == length * a + era % length && index == length * b;
    QuotientIs(length, a, era % length, b);
  }

  lemma QuotientIs(length: nat, a: nat, r: nat, b: nat)
    requires r < length && length * b <= length * a + r < length * b + length
    ensures a == b
  {
    if a < b {
      MulIsMonotone(a + 1, b, length);
    } else if b < a {
      MulIsMonotone(b + 1, a, length);
    }
  }

  lemma SpanIndexBounds(length: nat, era: EraNumber)
    requires length > 0
    ensures SpanIndex(length, era) % length == 0
    ensures SpanIndex(length, era) <= era < SpanIndex(length, era) + length
  {
    var a := era / length;
    assert era == length * a + era % length;
    MultipleHasNoRemainder(length, a);
  }

  lemma MultipleHasNoRemainder(length: nat, a: nat)
    requires length > 0
    ensures (length * a) % length == 0
  {
    var q := length * a / length;
    var r := length * a % length;
    assert length * a == length * q + r;
    if q < a {
      MulIsMonotone(q + 1, a, length);
    } else if q > a {
      MulIsMonotone(a + 1, q, length);
    }
  }

  lemma NextMultiple(length: nat, index: EraNumber)
    requires length > 0 && index % length == 0
    ensures (index + length) % length == 0
  {
    assert index + length == length * (index / length + 1);
    MultipleHasNoRemainder(length, index / length + 1);
  }

  lemma MultipleBelow(length: nat, era: EraNumber, index: EraNumber)
    requires length > 0 && index % length == 0 && index <= era
    ensures index <= SpanIndex(length, era)
  {
    SpanIndexBounds(length, era);
    var i := SpanIndex(length, era);
    if i < index {
      var a := i / length;
      var b := index / length;
      assert i == length * a && index == length * b;
      if b <= a {
        MulIsMonotone(b, a, length);
      } else {
        MulIsMonotone(a + 1, b, length);
      }
    }
  }

  // ---------- the chunked storage refines a plain map ----------

  /** `span` holds the rewards of all its eras that are finished in era `era`. */
  ghost predicate SpanOk(length: nat, era: EraNumber, index: EraNumber, span: EraRewardSpan, history: History) {
    && span.firstEra == Max(index, 1)
    && span.lastEra + 1 == Min(index + length, era)
    && |span.span| == span.lastEra + 1 - span.firstEra > 0
    && forall x :: span.firstEra <= x <= span.lastEra ==>
         x in history && span.span[x - span.firstEra] == history[x]
  }

  /** In era `era` the history covers all finished eras, and the spans from `index` on hold
      exactly that history. */
  ghost predicate SpansOk(length: nat, era: EraNumber, spans: Spans, index: EraNumber, history: History)
    requires length > 0
  {
    && index % length == 0 && index <= era
    && (forall x :: x in history <==> 1 <= x < era)
    && (forall k :: k in spans ==> k % length == 0 && index <= k && SpanOk(length, era, k, spans[k], history))
    && (forall x :: 1 <= x < era && index <= SpanIndex(length, x) ==> SpanIndex(length, x) in spans)
  }

  /** Looking an era up in the spans gives what the plain map holds. */
  lemma LookupRefines(length: nat, era: EraNumber, spans: Spans, index: EraNumber, history: History, x: EraNumber)
    requires length > 0 && SpansOk(length, era, spans, index, history)
    requires 1 <= x < era && index <= x
    ensures SpanIndex(length, x) in spans
    ensures Lookup(length, spans, x) == Some(history[x])
  {
    MultipleBelow(length, x, index);
    SpanIndexBounds(length, x);
    var k := SpanIndex(length, x);
    var s := spans[k];
    assert SpanOk(length, era, k, s, history);
  }

  /** Recording the reward of the finished era always succeeds and extends the map. */
  lemma RecordRefines(length: nat, era: EraNumber, spans: Spans, index: EraNumber, history: History, reward: EraReward)
    requires length > 0 && era >= 1 && SpansOk(length, era, spans, index, history)
    ensures SpanFor(spans, SpanIndex(length, era)).Push(era, reward, length).1
    ensures SpansOk(length, era + 1, Record(length, spans, era, reward), index, history[era := reward])
  {
    var k := SpanIndex(length, era);
    SpanIndexBounds(length, era);
    MultipleBelow(length, era, index);
    PushedSpan(length, era, spans, index, history, reward);
    var spans' := Record(length, spans, era, reward);
    var history' := history[era := reward];
    forall j | j in spans'
      ensures j % length == 0 && index <= j && SpanOk(length, era + 1, j, spans'[j], history')
    {
      if j != k {
        OtherSpan(length, era, j, spans[j], history, reward);
      }
    }
  }

  lemma OtherSpan(length: nat, era: EraNumber, j: EraNumber, span: EraRewardSpan, history: History, reward: EraReward)
    requires length > 0 && j % length == 0 && j != SpanIndex(length, era) && SpanOk(length, era, j, span, history)
    ensures SpanOk(length, era + 1, j, span, history[era := reward])
  {
    if j + length > era {
      SpanIndexIs(length, era, j);
      assert false;
    }
  }

  lemma PushedSpan(length: nat, era: EraNumber, spans: Spans, index: EraNumber, history: History, reward: EraReward)
    requires length > 0 && era >= 1 && SpansOk(length, era, spans, index, history)
    ensures var k := SpanIndex(length, era);
            && SpanFor(spans, k).Push(era, reward, length).1
            && SpanOk(length, era + 1, k, SpanFor(spans, k).Push(era, reward, length).0, history[era := reward])
  {
    var k := SpanIndex(length, era);
    SpanIndexBounds(length, era);
    MultipleBelow(length, era, index);
    if k in spans {
      assert SpanOk(length, era, k, spans[k], history);
    } else if Max(k, 1) < era {
      SpanIndexIs(length, era - 1, k);
      assert false;
    }
  }

  /** Pruning never touches the span of an era from `oldest` on. */
  lemma PruneRefines(length: nat, era: EraNumber, spans: Spans, index: EraNumber, history: History, oldest: EraNumber)
    requires length > 0 && SpansOk(length, era, spans, index, history)
    requires index <= oldest && (oldest == 0 || oldest < era)
    ensures var (spans', index') := PruneSpans(length, spans, index, oldest);
            SpansOk(length, era, spans', index', history) && index <= index' <= oldest
  {
    if index < oldest {
      NextMultiple(length, index);
      if index in spans {
        assert SpanOk(length, era, index, spans[index], history);
        if spans[index].lastEra < oldest {
          PrunedSpan(length, era, spans, index, history);
        }
      } else {
        MissingSpan(length, era, spans, index, history);
        PrunedSpan(length, era, spans, index, history);
        assert spans - {index} == spans;
      }
    }
  }

  lemma MissingSpan(length: nat, era: EraNumber, spans: Spans, index: EraNumber, history: History)
    requires length > 0 && SpansOk(length, era, spans, index, history)
    requires index + 1 < era && index !in spans
    ensures index == 0 && length == 1
  {
    if index > 0 {
      SpanIndexIs(length, index, index);
      assert false;
    }
    if length > 1 {
      SpanIndexIs(length, 1, 0);
      assert false;
    }
  }

  lemma PrunedSpan(length: nat, era: EraNumber, spans: Spans, index: EraNumber, history: History)
    requires length > 0 && SpansOk(length, era, spans, index, history) && index + length <= era
    requires (index + length) % length == 0
    ensures SpansOk(length, era, spans - {index}, index + length, history)
  {
    forall k | k in spans - {index}
      ensures index + length <= k
    {
      if k < index + length {
        SpanIndexIs(length, k, index);
        SpanIndexIs(length, k, k);
      }
    }
  }
}

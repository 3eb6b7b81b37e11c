/** Prices, their averages, and how the values of one block are processed into a single
    price: their average or their median. */
module BlockValues {
  import opened Arithmetic
  import opened StakeTypes

  const PRICE_MAX: nat := 0xFFFF_FFFF_FFFF_FFFF_FFFF_FFFF_FFFF_FFFF

  /** A price in units of 10^-18, as an unsigned number of 128 bits. */
  type Price = p: nat | p <= PRICE_MAX witness 0

  // ---------- averages ----------

  function SatAdd(a: Price, b: Price): Price {
    var sum: nat := a as nat + b as nat;
    Min(sum, PRICE_MAX)
  }

  /** The sum of all values, stopping at the largest price. */
  function Total(values: seq<Price>): Price {
    if |values| == 0 then 0 else SatAdd(Total(values[..|values| - 1]), values[|values| - 1])
  }

  /** A sum divided by a count, through a rounded-down reciprocal. */
  function Mean(sum: Price, count: nat): Price {
    if count == 0 then 0
    else
      MeanIsBounded(sum, count);
      Quotient(sum, count)
  }

  function Quotient(sum: nat, count: nat): nat
    requires count > 0
  {
    FixedMul(FixedRatio(1, count), sum)
  }

  /** The rounded mean never exceeds the true one. */
  lemma MeanIsBounded(sum: nat, count: nat)
    requires count > 0
    ensures count * Quotient(sum, count) <= sum && Quotient(sum, count) <= sum
  {
    var ratio := FixedRatio(1, count);
    assert FIXED_DIV == count * ratio + FIXED_DIV % count;
    var mean := Quotient(sum, count);
    assert ratio * sum == FIXED_DIV * mean + (ratio * sum) % FIXED_DIV;
    MulIsMonotone(FIXED_DIV * mean, ratio * sum, count);
    MulIsMonotone(count * ratio, FIXED_DIV, sum);
    assert count * (ratio * sum) == (count * ratio) * sum;
    assert (FIXED_DIV * mean) * count == FIXED_DIV * (count * mean);
    CancelFactor(FIXED_DIV, count * mean, sum);
    MulIsMonotone(1, count, mean);
  }

  /** And it falls short of the true one by at most one unit and one part of the sum. */
  lemma MeanFallsShort(sum: nat, count: nat)
    requires count > 0
    ensures FIXED_DIV * sum <= FIXED_DIV * (count * Quotient(sum, count)) + FIXED_DIV * count + count * sum
  {
    FixedPartBounds(1, count, sum);
  }

  lemma OneMore(count: nat, most: nat)
    ensures (count + 1) * most == count * most + most
  {
  }

  lemma {:induction false} TotalIsBounded(values: seq<Price>, most: Price)
    requires forall i :: 0 <= i < |values| ==> values[i] <= most
    ensures Total(values) <= |values| * most
  {
    if |values| > 0 {
      TotalIsBounded(values[..|values| - 1], most);
      OneMore(|values| - 1, most);
    }
  }

  /** An average never exceeds the largest of its values. */
  lemma AverageIsBounded(values: seq<Price>, most: Price)
    requires |values| > 0 && forall i :: 0 <= i < |values| ==> values[i] <= most
    ensures Mean(Total(values), |values|) <= most
  {
    TotalIsBounded(values, most);
    MeanOfBounded(Total(values), |values|, most);
  }

  lemma MeanOfBounded(sum: Price, count: nat, most: Price)
    requires count > 0 && sum <= count * most
    ensures Mean(sum, count) <= most
  {
    MeanIsBounded(sum, count);
    CancelFactor(count, Mean(sum, count), most);
  }

  // ---------- the median ----------

  ghost predicate Ascending(values: seq<Price>) {
    forall i, j :: 0 <= i < j < |values| ==> values[i] <= values[j]
  }

  /** The middle of sorted values; for an even number, half of the two middle ones' sum. */
  function Middle(sorted: seq<Price>): Price
    requires |sorted| > 0
  {
    var mid := |sorted| / 2;
    if |sorted| % 2 == 0 then
      var sum := SatAdd(sorted[mid - 1], sorted[mid]);
      HalfOf(sum);
      Quotient(sum, 2)
    else sorted[mid]
  }

  lemma HalfOf(x: nat)
    ensures Quotient(x, 2) == x / 2
  {
  }

  /** The median never exceeds a value of the upper half. */
  lemma MiddleIsBounded(sorted: seq<Price>, i: nat)
    requires |sorted| > 0 && Ascending(sorted) && |sorted| / 2 <= i < |sorted|
    ensures Middle(sorted) <= sorted[i]
  {
    var mid := |sorted| / 2;
    if |sorted| % 2 == 0 {
      HalfOf(SatAdd(sorted[mid - 1], sorted[mid]));
    }
  }

  /** No value of the lower half exceeds the median, and none of the upper half is below it. */
  ghost predicate IsCentral(sorted: seq<Price>, price: Price) {
    && (forall i :: 0 <= i < |sorted| / 2 ==> sorted[i] <= price)
    && (forall i :: |sorted| / 2 <= i < |sorted| ==> price <= sorted[i])
  }

  /** The median is central exactly when the sum of the two middle values does not stop at
      the largest price, or the lower one is at most half of that price. */
  lemma MiddleIsCentralIff(sorted: seq<Price>)
    requires |sorted| > 0 && Ascending(sorted)
    ensures IsCentral(sorted, Middle(sorted))
            <==> |sorted| % 2 == 1 || sorted[|sorted| / 2 - 1] as nat + sorted[|sorted| / 2] as nat <= PRICE_MAX || sorted[|sorted| / 2 - 1] <= PRICE_MAX / 2
  {
    var mid := |sorted| / 2;
    forall i | mid <= i < |sorted|
      ensures Middle(sorted) <= sorted[i]
    {
      MiddleIsBounded(sorted, i);
    }
    if |sorted| % 2 == 0 {
      HalfOf(SatAdd(sorted[mid - 1], sorted[mid]));
      assert forall i :: 0 <= i < mid ==> sorted[i] <= sorted[mid - 1];
    }
  }

  /** Two values at the largest price have a median of half of it. */
  lemma MedianStopsAtTheLargestPrice()
    ensures Middle([PRICE_MAX, PRICE_MAX]) == PRICE_MAX / 2 && !IsCentral([PRICE_MAX, PRICE_MAX], PRICE_MAX / 2)
  {
    HalfOf(PRICE_MAX);
    assert [PRICE_MAX, PRICE_MAX][0] > PRICE_MAX / 2;
  }

  lemma LastIsLargest(a: seq<Price>, b: seq<Price>)
    requires Ascending(a) && |a| > 0 && |b| > 0 && multiset(a) == multiset(b)
    ensures b[|b| - 1] <= a[|a| - 1]
  {
    assert b[|b| - 1] in multiset(b);
    assert b[|b| - 1] in a;
    var i :| 0 <= i < |a| && a[i] == b[|b| - 1];
  }

  lemma WithoutLast(a: seq<Price>)
    requires |a| > 0
    ensures multiset(a[..|a| - 1]) == multiset(a) - multiset{a[|a| - 1]}
  {
    assert a == a[..|a| - 1] + [a[|a| - 1]];
  }

  lemma SameLength(a: seq<Price>, b: seq<Price>)
    requires multiset(a) == multiset(b)
    ensures |a| == |b|
  {
    assert |a| == |multiset(a)| && |b| == |multiset(b)|;
  }

  /** Sorting has one result, so the median does not depend on the order of the values. */
  lemma {:induction false} SortedIsUnique(a: seq<Price>, b: seq<Price>)
    requires Ascending(a) && Ascending(b) && multiset(a) == multiset(b)
    ensures a == b
    decreases |a|
  {
    SameLength(a, b);
    if |a| > 0 {
      var n := |a| - 1;
      assert a[n] == b[n] by {
        LastIsLargest(a, b);
        LastIsLargest(b, a);
      }
      assert multiset(a[..n]) == multiset(b[..n]) by {
        WithoutLast(a);
        WithoutLast(b);
      }
      SortedIsUnique(a[..n], b[..n]);
      assert a == a[..n] + [a[n]] && b == b[..n] + [b[n]];
    }
  }

  lemma InsertedAscends(sorted: seq<Price>, i: nat, value: Price)
    requires Ascending(sorted) && i <= |sorted|
    requires i > 0 ==> sorted[i - 1] <= value
    requires i < |sorted| ==> value < sorted[i]
    ensures Ascending(sorted[..i] + [value] + sorted[i..])
  {
    var r := sorted[..i] + [value] + sorted[i..];
    forall a, b | 0 <= a < b < |r|
      ensures r[a] <= r[b]
    {
      assert r[a] == if a < i then sorted[a] else if a == i then value else sorted[a - 1];
      assert r[b] == if b < i then sorted[b] else if b == i then value else sorted[b - 1];
    }
  }

  method Insert(sorted: seq<Price>, value: Price) returns (r: seq<Price>)
    requires Ascending(sorted)
    ensures Ascending(r) && multiset(r) == multiset(sorted) + multiset{value}
  {
    var i := |sorted|;
    while i > 0 && sorted[i - 1] > value
      invariant 0 <= i <= |sorted|
      invariant i < |sorted| ==> sorted[i] > value
    {
      i := i - 1;
    }
    InsertedAscends(sorted, i, value);
    assert sorted == sorted[..i] + sorted[i..];
    r := sorted[..i] + [value] + sorted[i..];
  }

  method Sort(values: seq<Price>) returns (sorted: seq<Price>)
    ensures Ascending(sorted) && multiset(sorted) == multiset(values)
  {
    sorted := [];
    for n := 0 to |values|
      invariant Ascending(sorted) && multiset(sorted) == multiset(values[..n])
    {
      sorted := Insert(sorted, values[n]);
      assert values[..n + 1] == values[..n] + [values[n]];
    }
    assert values[..|values|] == values;
  }

  /** The values in ascending order. */
  function SortedOf(values: seq<Price>): (sorted: seq<Price>)
    ensures Ascending(sorted) && multiset(sorted) == multiset(values)
  {
    if |values| == 0 then []
    else
      var n := |values| - 1;
      assert values == values[..n] + [values[n]];
      InsertedOf(SortedOf(values[..n]), values[n])
  }

  function InsertedOf(sorted: seq<Price>, value: Price): (r: seq<Price>)
    requires Ascending(sorted)
    ensures Ascending(r) && multiset(r) == multiset(sorted) + multiset{value}
  {
    if |sorted| == 0 then [value]
    else
      var n := |sorted| - 1;
      assert sorted == sorted[..n] + [sorted[n]];
      if sorted[n] <= value then sorted + [value]
      else
        var rest := InsertedOf(sorted[..n], value);
        InsertedBelow(sorted[..n], value, rest, sorted[n]);
        rest + [sorted[n]]
  }

  lemma InsertedBelow(sorted: seq<Price>, value: Price, r: seq<Price>, bound: Price)
    requires multiset(r) == multiset(sorted) + multiset{value} && value <= bound
    requires forall i :: 0 <= i < |sorted| ==> sorted[i] <= bound
    ensures forall i :: 0 <= i < |r| ==> r[i] <= bound
  {
    forall i | 0 <= i < |r|
      ensures r[i] <= bound
    {
      assert r[i] in multiset(r);
      assert r[i] == value || r[i] in sorted;
    }
  }

  // ---------- processing a block ----------

  datatype Processor = AverageBlockValue | MedianBlockValue

  /** What the values of a block are processed into; nothing without values. */
  function Process(p: Processor, values: seq<Price>): Option<Price> {
    if |values| == 0 then None
    else
      match p
      case AverageBlockValue => Some(Mean(Total(values), |values|))
      case MedianBlockValue =>
        SameLength(SortedOf(values), values);
        Some(Middle(SortedOf(values)))
  }

  /** A processed value never exceeds the largest one of the block. */
  lemma ProcessedIsBounded(p: Processor, values: seq<Price>, most: Price)
    requires |values| > 0 && forall i :: 0 <= i < |values| ==> values[i] <= most
    ensures Process(p, values).value <= most
  {
    match p
    case AverageBlockValue => AverageIsBounded(values, most);
    case MedianBlockValue =>
      var sorted := SortedOf(values);
      SameLength(sorted, values);
      MiddleIsBounded(sorted, |sorted| - 1);
      assert sorted[|sorted| - 1] in multiset(sorted);
      assert sorted[|sorted| - 1] in values;
  }

  /** The order in which the values came does not matter for the median. */
  lemma MedianIgnoresOrder(values: seq<Price>, others: seq<Price>)
    requires multiset(values) == multiset(others)
    ensures Process(MedianBlockValue, values) == Process(MedianBlockValue, others)
  {
    SameLength(values, others);
    SortedIsUnique(SortedOf(values), SortedOf(others));
  }

  /** The fold over the values of a buffer or a block. */
  method SumUp(values: seq<Price>) returns (sum: Price)
    ensures sum == Total(values)
  {
    sum := 0;
    for i := 0 to |values|
      invariant sum == Total(values[..i])
    {
      assert values[..i + 1][..i] == values[..i];
      sum := SatAdd(sum, values[i]);
    }
    assert values[..|values|] == values;
  }

  /** `MedianBlockValue`. */
  method Median(values: seq<Price>) returns (r: Option<Price>)
    ensures r == Process(MedianBlockValue, values)
  {
    if |values| == 0 {
      return None;
    }
    var sorted := Sort(values);
    SortedIsUnique(sorted, SortedOf(values));
    SameLength(sorted, values);
    var mid := |sorted| / 2;
    if |sorted| % 2 == 0 {
      var sum := SatAdd(sorted[mid - 1], sorted[mid]);
      HalfOf(sum);
      r := Some(Quotient(sum, 2));
    } else {
      r := Some(sorted[mid]);
    }
  }

  /** `AverageBlockValue`. */
  method Average(values: seq<Price>) returns (r: Option<Price>)
    ensures r == Process(AverageBlockValue, values)
  {
    if |values| == 0 {
      return None;
    }
    var sum := SumUp(values);
    r := Some(Mean(sum, |values|));
  }
}

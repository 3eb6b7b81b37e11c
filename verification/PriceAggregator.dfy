/** The price aggregator: values of a block are processed into one, blocks are averaged over
    a window, and the window averages go into a circular buffer. */
module PriceAggregator {
  import opened Arithmetic
  import opened StakeTypes
  import opened BlockValues

  const U32_MAX: nat := 0xFFFF_FFFF

  // ---------- the circular buffer ----------

  datatype Buffer = Buffer(values: seq<Price>, head: nat) {

    /** The guard for an impossible write position. */
    predicate Misplaced(capacity: nat) {
      head >= capacity || head > |values|
    }

    function Add(capacity: nat, value: Price): Buffer
      requires capacity > 0
    {
      if Misplaced(capacity) then this
      else
        var stored := if |values| > head then values[head := value]
                      else if |values| < capacity then values + [value] else values;
        Buffer(stored, (head + 1) % capacity)
    }

    function Average(): Price {
      Mean(Total(values), |values|)
    }

    predicate Valid(capacity: nat) {
      && head < capacity && |values| <= capacity
      && (|values| < capacity ==> head == |values|)
    }

    /** The stored values from the oldest to the newest. */
    function InOrder(capacity: nat): seq<Price>
      requires Valid(capacity)
    {
      if |values| < capacity then values else values[head..] + values[..head]
    }
  }

  /** The last `n` values of a history, or all of it. */
  function Last(history: seq<Price>, n: nat): seq<Price> {
    if |history| <= n then history else history[|history| - n..]
  }

  function Started(initial: seq<Price>, capacity: nat): Buffer
    requires capacity > 0
  {
    Buffer(initial, |initial| % capacity)
  }

  lemma NextHead(head: nat, capacity: nat)
    requires head < capacity
    ensures (head + 1) % capacity == if head + 1 == capacity then 0 else head + 1
  {
  }

  lemma AddWhileFilling(b: Buffer, capacity: nat, value: Price)
    requires b.Valid(capacity) && |b.values| < capacity
    ensures var after := Buffer(b.values + [value], if b.head + 1 == capacity then 0 else b.head + 1);
            after.Valid(capacity) && after.InOrder(capacity) == b.InOrder(capacity) + [value]
  {
    var values := b.values + [value];
    assert values[0..] + values[..0] == values;
  }

  lemma AddWhenFull(b: Buffer, capacity: nat, value: Price)
    requires b.Valid(capacity) && |b.values| == capacity
    ensures var after := Buffer(b.values[b.head := value], if b.head + 1 == capacity then 0 else b.head + 1);
            after.Valid(capacity) && after.InOrder(capacity) == b.InOrder(capacity)[1..] + [value]
  {
    var values, h := b.values[b.head := value], b.head;
    assert b.InOrder(capacity)[1..] == b.values[h + 1..] + b.values[..h];
    assert values[..h + 1] == b.values[..h] + [value] && values[h + 1..] == b.values[h + 1..];
    if h + 1 == capacity {
      assert values[0..] + values[..0] == values[..h + 1];
    }
  }

  /** Adding a value never meets the guard and replaces only the oldest one, once full. */
  lemma AddKeepsTheLatest(b: Buffer, capacity: nat, value: Price)
    requires capacity > 0 && b.Valid(capacity)
    ensures var after := b.Add(capacity, value);
            && !b.Misplaced(capacity) && after.Valid(capacity)
            && after.InOrder(capacity) == Last(b.InOrder(capacity) + [value], capacity)
  {
    NextHead(b.head, capacity);
    if |b.values| < capacity {
      AddWhileFilling(b, capacity, value);
    } else {
      AddWhenFull(b, capacity, value);
      assert (b.InOrder(capacity) + [value])[1..] == b.InOrder(capacity)[1..] + [value];
    }
  }

  lemma StartedIsValid(initial: seq<Price>, capacity: nat)
    requires capacity > 0 && |initial| <= capacity
    ensures Started(initial, capacity).Valid(capacity) && Started(initial, capacity).InOrder(capacity) == initial
  {
    if |initial| == capacity {
      assert initial[0..] + initial[..0] == initial;
    }
  }

  /** The buffer holds exactly the values in order, whatever the write position. */
  lemma HoldsTheSame(b: Buffer, capacity: nat)
    requires b.Valid(capacity)
    ensures multiset(b.values) == multiset(b.InOrder(capacity)) && |b.values| == |b.InOrder(capacity)|
  {
    assert b.values == b.values[..b.head] + b.values[b.head..];
  }

  lemma LastOfLast(history: seq<Price>, value: Price, n: nat)
    requires n > 0
    ensures Last(Last(history, n) + [value], n) == Last(history + [value], n)
  {
  }

  // ---------- windows ----------

  datatype Aggregator = Aggregator(total: Price, count: nat, limitBlock: BlockNumber) {
    /** `None` when the sum or the count would overflow. */
    function TryAdd(value: Price): Option<Aggregator> {
      if total + value > PRICE_MAX || count + 1 > U32_MAX then None
      else Some(this.(total := total + value, count := count + 1))
    }

    function Average(): Price {
      Mean(total, count)
    }
  }

  datatype Settings = Settings(processor: Processor, maxValuesPerBlock: nat, bufferLength: nat, aggregationDuration: nat)

  /** `pushed` is the history of the buffer, starting with its initial contents. */
  datatype Feed = Feed(blockValues: seq<Price>, aggregator: Aggregator, buffer: Buffer, pushed: seq<Price>)

  function NewData(st: Settings, f: Feed, value: Price): Feed {
    if |f.blockValues| < st.maxValuesPerBlock then f.(blockValues := f.blockValues + [value]) else f
  }

  /** Takes the values of the block and adds what they are processed into to the window. */
  function ProcessBlock(st: Settings, f: Feed): Feed {
    var processed := Process(st.processor, f.blockValues);
    var added := if processed.Some? then f.aggregator.TryAdd(processed.value) else None;
    f.(blockValues := [], aggregator := if added.Some? then added.value else f.aggregator)
  }

  function ProcessWindow(st: Settings, f: Feed, now: BlockNumber): Feed
    requires st.bufferLength > 0
  {
    var average := f.aggregator.Average();
    var reset := f.(aggregator := Aggregator(0, 0, now + st.aggregationDuration));
    if average == 0 then reset
    else reset.(buffer := f.buffer.Add(st.bufferLength, average), pushed := f.pushed + [average])
  }

  function Finalize(st: Settings, f: Feed, now: BlockNumber): Feed
    requires st.bufferLength > 0
  {
    var after := ProcessBlock(st, f);
    if after.aggregator.limitBlock <= now then ProcessWindow(st, after, now) else after
  }

  function StartedFeed(st: Settings, initial: seq<Price>): Feed
    requires st.bufferLength > 0
  {
    Feed([], Aggregator(0, 0, st.aggregationDuration), Started(initial, st.bufferLength), initial)
  }

  /** A value from the oracle, or the end of a block. */
  datatype Event = Value(value: Price) | EndOfBlock(now: BlockNumber)

  function Next(st: Settings, f: Feed, event: Event): Feed
    requires st.bufferLength > 0
  {
    match event
    case Value(value) => NewData(st, f, value)
    case EndOfBlock(now) => Finalize(st, f, now)
  }

  function After(st: Settings, f: Feed, events: seq<Event>): Feed
    requires st.bufferLength > 0
    decreases |events|
  {
    if |events| == 0 then f else Next(st, After(st, f, events[..|events| - 1]), events[|events| - 1])
  }

  /** The buffer holds the latest pushed values, and nothing pushed since the start is zero. */
  ghost predicate FeedOk(st: Settings, initial: seq<Price>, f: Feed)
    requires st.bufferLength > 0
  {
    && f.buffer.Valid(st.bufferLength)
    && f.buffer.InOrder(st.bufferLength) == Last(f.pushed, st.bufferLength)
    && |initial| <= |f.pushed| && f.pushed[..|initial|] == initial
    && forall i :: |initial| <= i < |f.pushed| ==> f.pushed[i] > 0
  }

  lemma WindowKeepsOk(st: Settings, initial: seq<Price>, f: Feed, now: BlockNumber)
    requires st.bufferLength > 0 && FeedOk(st, initial, f)
    ensures FeedOk(st, initial, ProcessWindow(st, f, now))
  {
    var average := f.aggregator.Average();
    if average != 0 {
      AddKeepsTheLatest(f.buffer, st.bufferLength, average);
      LastOfLast(f.pushed, average, st.bufferLength);
      assert (f.pushed + [average])[..|initial|] == initial;
    }
  }

  /** In every run the buffer holds exactly the most recent values, at most as many as fit,
      the write position is always valid, and a zero average is never among the new ones. */
  lemma {:induction false} BufferHoldsTheLatest(st: Settings, initial: seq<Price>, events: seq<Event>)
    requires st.bufferLength > 0 && |initial| <= st.bufferLength
    ensures var f := After(st, StartedFeed(st, initial), events);
            && FeedOk(st, initial, f)
            && multiset(f.buffer.values) == multiset(Last(f.pushed, st.bufferLength))
    decreases |events|
  {
    var f := After(st, StartedFeed(st, initial), events);
    if |events| == 0 {
      StartedIsValid(initial, st.bufferLength);
    } else {
      BufferHoldsTheLatest(st, initial, events[..|events| - 1]);
      var before, event := After(st, StartedFeed(st, initial), events[..|events| - 1]), events[|events| - 1];
      if event.EndOfBlock? {
        var processed := ProcessBlock(st, before);
        if processed.aggregator.limitBlock <= event.now {
          WindowKeepsOk(st, initial, processed, event.now);
        }
      }
    }
    HoldsTheSame(f.buffer, st.bufferLength);
  }

  // ---------- bounds ----------

  /** All values of the block, the mean of the window and everything pushed since the start
      are at most `most`. */
  ghost predicate FeedBounded(initial: seq<Price>, f: Feed, most: Price) {
    && (forall i :: 0 <= i < |f.blockValues| ==> f.blockValues[i] <= most)
    && f.aggregator.total <= f.aggregator.count * most
    && |initial| <= |f.pushed| && (forall i :: |initial| <= i < |f.pushed| ==> f.pushed[i] <= most)
  }

  lemma AddKeepsMean(a: Aggregator, value: Price, most: Price)
    requires a.total <= a.count * most && value <= most
    ensures a.TryAdd(value).Some? ==> a.TryAdd(value).value.total <= a.TryAdd(value).value.count * most
  {
    OneMore(a.count, most);
  }

  lemma BlockKeepsBounded(st: Settings, initial: seq<Price>, f: Feed, most: Price)
    requires FeedBounded(initial, f, most)
    ensures FeedBounded(initial, ProcessBlock(st, f), most)
  {
    if |f.blockValues| > 0 {
      ProcessedIsBounded(st.processor, f.blockValues, most);
      AddKeepsMean(f.aggregator, Process(st.processor, f.blockValues).value, most);
    }
  }

  lemma WindowKeepsBounded(st: Settings, initial: seq<Price>, f: Feed, now: BlockNumber, most: Price)
    requires st.bufferLength > 0 && FeedBounded(initial, f, most)
    ensures FeedBounded(initial, ProcessWindow(st, f, now), most)
  {
    if f.aggregator.count > 0 {
      MeanOfBounded(f.aggregator.total, f.aggregator.count, most);
    }
  }

  /** In every run, no average that is pushed exceeds the largest value ever submitted. */
  lemma {:induction false} PushedStaysBounded(st: Settings, initial: seq<Price>, events: seq<Event>, most: Price)
    requires st.bufferLength > 0 && forall i :: 0 <= i < |events| && events[i].Value? ==> events[i].value <= most
    ensures FeedBounded(initial, After(st, StartedFeed(st, initial), events), most)
    decreases |events|
  {
    if |events| > 0 {
      PushedStaysBounded(st, initial, events[..|events| - 1], most);
      var before, event := After(st, StartedFeed(st, initial), events[..|events| - 1]), events[|events| - 1];
      if event.EndOfBlock? {
        BlockKeepsBounded(st, initial, before, most);
        WindowKeepsBounded(st, initial, ProcessBlock(st, before), event.now, most);
      }
    }
  }

  // ---------- what a window averages ----------

  /** The values of the unfinished block after the events. */
  function Pending(st: Settings, values: seq<Price>, events: seq<Event>): seq<Price>
    decreases |events|
  {
    if |events| == 0 then values
    else
      var before := Pending(st, values, events[..|events| - 1]);
      match events[|events| - 1]
      case Value(value) => if |before| < st.maxValuesPerBlock then before + [value] else before
      case EndOfBlock(_) => []
  }

  /** The prices that the blocks ended by the events are processed into. */
  function Prices(st: Settings, values: seq<Price>, events: seq<Event>): seq<Price>
    decreases |events|
  {
    if |events| == 0 then []
    else
      var before, last := events[..|events| - 1], events[|events| - 1];
      var processed := if last.EndOfBlock? then Process(st.processor, Pending(st, values, before)) else None;
      Prices(st, values, before) + if processed.Some? then [processed.value] else []
  }

  function PlainSum(prices: seq<Price>): nat {
    if |prices| == 0 then 0 else PlainSum(prices[..|prices| - 1]) + prices[|prices| - 1]
  }

  /** Nothing overflows, and no block before the last event ends the window. */
  ghost predicate OneWindow(st: Settings, f: Feed, events: seq<Event>) {
    && Fits(f.aggregator, Prices(st, f.blockValues, events))
    && forall i :: 0 <= i < |events| - 1 && events[i].EndOfBlock? ==> events[i].now < f.aggregator.limitBlock
  }

  predicate Fits(a: Aggregator, prices: seq<Price>) {
    a.total as nat + PlainSum(prices) <= PRICE_MAX && a.count + |prices| <= U32_MAX
  }

  /** The feed with these values in the block, and the prices added to the window. */
  function Collected(f: Feed, values: seq<Price>, prices: seq<Price>): Feed
    requires Fits(f.aggregator, prices)
  {
    f.(blockValues := values,
       aggregator := f.aggregator.(total := f.aggregator.total + PlainSum(prices), count := f.aggregator.count + |prices|))
  }

  lemma BlockCollects(st: Settings, f: Feed, values: seq<Price>, prices: seq<Price>, price: Price)
    requires Process(st.processor, values) == Some(price) && Fits(f.aggregator, prices + [price])
    ensures Fits(f.aggregator, prices)
    ensures ProcessBlock(st, Collected(f, values, prices)) == Collected(f, [], prices + [price])
  {
    assert (prices + [price])[..|prices|] == prices;
  }

  /** The price of the block that the last event ends, if any, comes last. */
  lemma PricesGrow(st: Settings, values: seq<Price>, events: seq<Event>)
    requires |events| > 0
    ensures var earlier := events[..|events| - 1];
            var processed := Process(st.processor, Pending(st, values, earlier));
            Prices(st, values, events)
            == if events[|events| - 1].EndOfBlock? && processed.Some? then Prices(st, values, earlier) + [processed.value] else Prices(st, values, earlier)
  {
  }

  lemma FewerFit(a: Aggregator, prices: seq<Price>, price: Price)
    requires Fits(a, prices + [price])
    ensures Fits(a, prices)
  {
    assert (prices + [price])[..|prices|] == prices;
  }

  /** While the window lasts, it collects the price of every block. */
  lemma {:induction false} WindowCollects(st: Settings, f: Feed, events: seq<Event>)
    requires st.bufferLength > 0 && OneWindow(st, f, events)
    requires |events| > 0 && events[|events| - 1].EndOfBlock? ==> events[|events| - 1].now < f.aggregator.limitBlock
    ensures After(st, f, events) == Collected(f, Pending(st, f.blockValues, events), Prices(st, f.blockValues, events))
    decreases |events|
  {
    if |events| > 0 {
      var before := events[..|events| - 1];
      LastBlock(st, f, events);
      assert forall i :: 0 <= i < |before| ==> before[i] == events[i];
      WindowCollects(st, f, before);
    }
  }

  /** What the last event does to the collected feed, before the window is looked at. */
  lemma LastBlock(st: Settings, f: Feed, events: seq<Event>)
    requires |events| > 0 && Fits(f.aggregator, Prices(st, f.blockValues, events))
    ensures var before := events[..|events| - 1];
            var values, prices := Pending(st, f.blockValues, before), Prices(st, f.blockValues, before);
            var after := Collected(f, Pending(st, f.blockValues, events), Prices(st, f.blockValues, events));
            && Fits(f.aggregator, prices)
            && match events[|events| - 1]
               case Value(value) => NewData(st, Collected(f, values, prices), value) == after
               case EndOfBlock(_) => ProcessBlock(st, Collected(f, values, prices)) == after
  {
    var before := events[..|events| - 1];
    var values, prices := Pending(st, f.blockValues, before), Prices(st, f.blockValues, before);
    PricesGrow(st, f.blockValues, events);
    var processed := Process(st.processor, values);
    if events[|events| - 1].EndOfBlock? && processed.Some? {
      FewerFit(f.aggregator, prices, processed.value);
      BlockCollects(st, f, values, prices, processed.value);
    }
  }

  /** One mean of `count` prices is pushed, rounded down by at most one unit and one part of
      their sum, or nothing if that is zero. */
  ghost predicate PushesMean(before: seq<Price>, after: seq<Price>, sum: nat, count: nat) {
    exists mean: nat :: IsMean(mean, sum, count) && after == before + if mean == 0 then [] else [mean]
  }

  predicate IsMean(mean: nat, sum: nat, count: nat) {
    count * mean <= sum && FIXED_DIV * sum <= FIXED_DIV * (count * mean) + FIXED_DIV * count + count * sum
  }

  lemma WindowEnds(st: Settings, f: Feed, now: BlockNumber)
    requires st.bufferLength > 0 && (f.aggregator.count == 0 ==> f.aggregator.total == 0)
    ensures PushesMean(f.pushed, ProcessWindow(st, f, now).pushed, f.aggregator.total, f.aggregator.count)
  {
    if f.aggregator.count > 0 {
      MeanIsBounded(f.aggregator.total, f.aggregator.count);
      MeanFallsShort(f.aggregator.total, f.aggregator.count);
    }
    assert IsMean(f.aggregator.Average(), f.aggregator.total, f.aggregator.count);
  }

  /** The block that ends a window pushes the mean of the prices of all its blocks, and starts
      the next window. */
  lemma WindowPushesMean(st: Settings, f: Feed, events: seq<Event>, now: BlockNumber)
    requires st.bufferLength > 0 && f.aggregator.total == 0 && f.aggregator.count == 0
    requires OneWindow(st, f, events + [EndOfBlock(now)]) && f.aggregator.limitBlock <= now
    ensures var after, prices := After(st, f, events + [EndOfBlock(now)]), Prices(st, f.blockValues, events + [EndOfBlock(now)]);
            && after.aggregator == Aggregator(0, 0, now + st.aggregationDuration) && after.blockValues == []
            && PushesMean(f.pushed, after.pushed, PlainSum(prices), |prices|)
  {
    var all := events + [EndOfBlock(now)];
    assert all[..|all| - 1] == events;
    LastBlock(st, f, all);
    assert forall i :: 0 <= i < |events| ==> events[i] == all[i];
    WindowCollects(st, f, events);
    WindowEnds(st, Collected(f, [], Prices(st, f.blockValues, all)), now);
  }

  // ---------- the pallet ----------

  class CircularBuffer {
    const capacity: nat
    var values: seq<Price>
    var head: nat

    function View(): Buffer
      reads this
    {
      Buffer(values, head)
    }

    constructor (length: nat, initial: seq<Price>)
      requires length > 0
      ensures capacity == length && View() == Started(initial, length)
    {
      capacity := length;
      values, head := initial, |initial| % length;
    }

    method Add(value: Price)
      requires capacity > 0
      modifies this
      ensures View() == old(View()).Add(capacity, value)
    {
      if head >= capacity || head > |values| {
        return;
      }
      if |values| > head {
        values := values[head := value];
      } else if |values| < capacity {
        values := values + [value];
      }
      head := (head + 1) % capacity;
    }

    method Average() returns (price: Price)
      ensures price == View().Average()
    {
      if |values| == 0 {
        return 0;
      }
      var sum := SumUp(values);
      price := Mean(sum, |values|);
    }
  }

  class PricePallet {
    const settings: Settings
    var blockValues: seq<Price>
    var aggregator: Aggregator
    var buffer: Buffer
    ghost var pushed: seq<Price>

    ghost function View(): Feed
      reads this
    {
      Feed(blockValues, aggregator, buffer, pushed)
    }

    constructor (st: Settings, initial: seq<Price>)
      requires st.bufferLength > 0
      ensures settings == st && View() == StartedFeed(st, initial)
    {
      settings := st;
      blockValues, aggregator := [], Aggregator(0, 0, st.aggregationDuration);
      buffer, pushed := Buffer(initial, |initial| % st.bufferLength), initial;
    }

    method OnNewData(value: Price)
      modifies this
      ensures View() == NewData(settings, old(View()), value)
    {
      if |blockValues| < settings.maxValuesPerBlock {
        blockValues := blockValues + [value];
      }
    }

    method OnFinalize(now: BlockNumber)
      requires settings.bufferLength > 0
      modifies this
      ensures View() == Finalize(settings, old(View()), now)
    {
      var processed: Option<Price>;
      match settings.processor {
        case AverageBlockValue => processed := BlockValues.Average(blockValues);
        case MedianBlockValue => processed := BlockValues.Median(blockValues);
      }
      blockValues := [];
      if processed.Some? {
        var added := aggregator.TryAdd(processed.value);
        if added.Some? {
          aggregator := added.value;
        }
      }
      if aggregator.limitBlock <= now {
        var average := aggregator.Average();
        aggregator := Aggregator(0, 0, now + settings.aggregationDuration);
        if average != 0 {
          buffer := buffer.Add(settings.bufferLength, average);
          pushed := pushed + [average];
        }
      }
    }
  }
}

/** The era calendar. A Voting subperiod is a single era and a Build&Earn subperiod lasts
    `length` eras, so period `q` ends with era `FinalEra(length, q)`. */
module Calendar {
  import opened StakeTypes

  function FinalEra(length: nat, period: PeriodNumber): EraNumber {
    if period == 0 then 0 else FinalEra(length, period - 1) + length + 1
  }

  predicate InPeriod(length: nat, era: EraNumber, period: PeriodNumber) {
    period >= 1 && FinalEra(length, period - 1) < era <= FinalEra(length, period)
  }

  /** The era and period of the protocol state agree with the calendar. */
  predicate ClockOk(length: nat, era: EraNumber, period: PeriodInfo) {
    && InPeriod(length, era, period.number)
    && match period.subperiod
       case Voting =>
         && era == FinalEra(length, period.number - 1) + 1
         && period.nextSubperiodStartEra == era + 1
       case BuildAndEarn =>
         && era > FinalEra(length, period.number - 1) + 1
         && period.nextSubperiodStartEra == FinalEra(length, period.number) + 1
  }

  lemma {:induction false} FinalEraIsMonotone(length: nat, p: PeriodNumber, q: PeriodNumber)
    requires p <= q
    ensures FinalEra(length, p) + (q - p) <= FinalEra(length, q)
    decreases q - p
  {
    if p < q {
      FinalEraIsMonotone(length, p, q - 1);
    }
  }

  lemma PeriodOfEraIsUnique(length: nat, era: EraNumber, p: PeriodNumber, q: PeriodNumber)
    requires InPeriod(length, era, p) && InPeriod(length, era, q)
    ensures p == q
  {
    if p < q {
      FinalEraIsMonotone(length, p, q - 1);
    } else if q < p {
      FinalEraIsMonotone(length, q, p - 1);
    }
  }

  /** An era of an earlier period lies before every era of a later one. */
  lemma EarlierPeriodEarlierEra(length: nat, x: EraNumber, p: PeriodNumber, y: EraNumber, q: PeriodNumber)
    requires InPeriod(length, x, p) && InPeriod(length, y, q) && p < q
    ensures x <= FinalEra(length, p) < y
  {
    FinalEraIsMonotone(length, p, q - 1);
  }
}

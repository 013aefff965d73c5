/**
 * `get_cost_data`: the Cost Explorer request for the last `days` days. Calendar
 * dates are proleptic Gregorian ordinals (`date.toordinal()`), 1 being 0001-01-01.
 */
module CostQuery {
  import opened Wrappers

  /** `date.min.toordinal()` and `date.max.toordinal()`: 0001-01-01 and 9999-12-31. */
  const MinOrdinal: int := 1
  const MaxOrdinal: int := 3652059

  predicate ValidDate(ordinal: int)
  {
    MinOrdinal <= ordinal <= MaxOrdinal
  }

  /** Subtracting the days left the range of `date`: the `OverflowError` of line 18. */
  datatype DateError = DateOverflow

  datatype Dimension = Dimension(dimensionType: string, key: string)

  /** The arguments of `get_cost_and_usage`; `end` is exclusive. */
  datatype CostRequest = CostRequest(start: int, end: int, granularity: string, metrics: seq<string>, groupBy: seq<Dimension>)

  /**
   * Lines 17-34: the request for the days before `today`, or the error raised
   * before any call is made when `today - days` is not a date.
   */
  function CostQueryFor(today: int, days: int): (r: Result<CostRequest, DateError>)
    requires ValidDate(today)
    ensures r.Ok? <==> ValidDate(today - days)
    ensures r.Ok? ==> r.value.end == today && r.value.end - r.value.start == days
    ensures r.Ok? ==>
      r.value.granularity == "DAILY" && r.value.metrics == ["UnblendedCost"] &&
      r.value.groupBy == [Dimension("DIMENSION", "SERVICE")]
  {
    var start := today - days;
    if !ValidDate(start) then Err(DateOverflow)
    else Ok(CostRequest(start, today, "DAILY", ["UnblendedCost"], [Dimension("DIMENSION", "SERVICE")]))
  }

  /** The dates from `start` up to but not including `end`. */
  function Period(start: int, end: int): set<int>
    decreases end - start
  {
    if start >= end then {} else Period(start, end - 1) + {end - 1}
  }

  lemma {:induction false} PeriodMembers(start: int, end: int, d: int)
    ensures d in Period(start, end) <==> start <= d < end
    decreases end - start
  {
    if start < end {
      PeriodMembers(start, end - 1, d);
    }
  }

  lemma {:induction false} PeriodSize(start: int, end: int)
    requires start <= end
    ensures |Period(start, end)| == end - start
    decreases end - start
  {
    if start < end {
      PeriodSize(start, end - 1);
      PeriodMembers(start, end - 1, end - 1);
    }
  }

  /**
   * A request for `days >= 0` days covers exactly `days` dates, the last of them
   * the day before `today`; today itself is not included.
   */
  lemma RequestCoversDays(today: int, days: int)
    requires ValidDate(today) && days >= 0 && CostQueryFor(today, days).Ok?
    ensures var q := CostQueryFor(today, days).value;
      |Period(q.start, q.end)| == days && today !in Period(q.start, q.end)
      && (days > 0 ==> today - 1 in Period(q.start, q.end))
  {
    var q := CostQueryFor(today, days).value;
    PeriodSize(q.start, q.end);
    PeriodMembers(q.start, q.end, today);
    PeriodMembers(q.start, q.end, today - 1);
  }

  /** A negative number of days asks for a period that ends before it starts. */
  lemma NegativeDaysInverted(today: int, days: int)
    requires ValidDate(today) && days < 0 && CostQueryFor(today, days).Ok?
    ensures CostQueryFor(today, days).value.start > CostQueryFor(today, days).value.end
    ensures Period(CostQueryFor(today, days).value.start, CostQueryFor(today, days).value.end) == {}
  {
    var q := CostQueryFor(today, days).value;
    assert Period(q.start, q.end) == {};
  }
}

/**
 * `format_cost_message`: what the report says. The text layout (headings, emoji,
 * `$%.2f` formatting) is not modelled; the report is the data the text is made of.
 */
module CostReport {
  import opened Wrappers
  import opened Totals
  import opened StringOrder
  import opened Sorting
  import opened CostAggregation
  import opened ResourceCensus

  /** The number of services listed in the ranking (`[:10]`). */
  const TopCount: nat := 10

  /** The exception `format_cost_message` raises: the average over 0 days. */
  datatype FormatError = DivisionByZero

  datatype Report =
    /** The one-line notice sent when the cost query returned nothing usable. */
    | CostFailureNotice
    /** The full report: period, daily lines, total, average, top services, resources. */
    | Summary(days: int, daily: seq<Line>, periodTotal: real, average: real,
              topServices: seq<Line>, resources: Census)

  /** Lines 132-133: the daily totals, ascending by date. */
  function DailyLines(results: seq<DayResult>): seq<Line>
  {
    Sort(ByKeyAscending, DailyDict(results).Items())
  }

  /** Line 135: `sum(daily_totals.values())`. */
  function PeriodTotal(results: seq<DayResult>): real
  {
    SumAmounts(DailyDict(results).Items())
  }

  /** Lines 141-142: the items sorted by amount, largest first, cut to the first ten. */
  function TopServices(items: seq<Line>): seq<Line>
  {
    var sorted := Sort(ByAmountDescending, items);
    sorted[..if |sorted| < TopCount then |sorted| else TopCount]
  }

  /** The items the `[:10]` cut drops. */
  function OmittedServices(items: seq<Line>): seq<Line>
  {
    var sorted := Sort(ByAmountDescending, items);
    sorted[if |sorted| < TopCount then |sorted| else TopCount..]
  }

  /** Line 137: the average per day over the requested number of days. */
  function Average(total: real, days: int): (average: real)
    requires days != 0
    ensures average * (days as real) == total
  {
    total / days as real
  }

  /** The service ranking of the report. */
  function RankServices(results: seq<DayResult>): seq<Line>
  {
    TopServices(ServiceDict(results).Items())
  }

  /** The value `format_cost_message(cost_data, resources, days)` returns, or the exception it raises. */
  function ReportOf(costData: Option<seq<DayResult>>, resources: Census, days: int): Result<Report, FormatError>
  {
    match costData
    case None => Ok(CostFailureNotice)
    case Some(results) =>
      if days == 0 then Err(DivisionByZero)
      else Ok(Summary(days, DailyLines(results), PeriodTotal(results), Average(PeriodTotal(results), days),
                      RankServices(results), resources))
  }

  /**
   * Lines 98-144. The dicts are built in a loop; sorting, summing and slicing are
   * library calls and use the functions above.
   */
  method FormatCostMessage(costData: Option<seq<DayResult>>, resources: Census, days: int)
    returns (r: Result<Report, FormatError>)
    ensures r == ReportOf(costData, resources, days)
    ensures costData.None? ==> r == Ok(CostFailureNotice)
    ensures costData.Some? ==> (r.Err? <==> days == 0)
  {
    if costData.None? {
      return Ok(CostFailureNotice);
    }
    var daily, services := AggregateCosts(costData.value);
    var dailyLines := Sort(ByKeyAscending, daily.Items());
    var total := SumAmounts(daily.Items());
    if days == 0 {
      return Err(DivisionByZero);
    }
    var average := Average(total, days);
    var top := TopServices(services.Items());
    r := Ok(Summary(days, dailyLines, total, average, top, resources));
  }

  // Daily lines

  /** Each date is listed once, and the dates ascend strictly. */
  lemma DailyLinesAscending(results: seq<DayResult>)
    ensures forall i, j :: 0 <= i < j < |DailyLines(results)| ==>
      StrLt(DailyLines(results)[i].key, DailyLines(results)[j].key)
  {
    var items := DailyDict(results).Items();
    var lines := DailyLines(results);
    assert DistinctKeys(items);
    SortDistinct(ByKeyAscending, items);
    SortSorted(ByKeyAscending, items);
  }

  /** A line is listed exactly when its date occurs, with the total of the date's last entry. */
  lemma DailyLinesContents(results: seq<DayResult>, line: Line)
    ensures line in DailyLines(results) <==>
      HasDate(results, line.key) && line.amount == DailyTotals(results)[line.key]
  {
    var d := DailyDict(results);
    SortPermutes(ByKeyAscending, d.Items());
    assert line in DailyLines(results) <==> line in multiset(d.Items());
    ItemsMeaning(d, line);
  }

  /** One line per distinct date. */
  lemma DailyLinesCount(results: seq<DayResult>)
    ensures |DailyLines(results)| == |SeenDates(results)|
  {
    SortPermutes(ByKeyAscending, DailyDict(results).Items());
  }

  /** The period total is the sum of the daily lines shown. */
  lemma PeriodTotalOfLines(results: seq<DayResult>)
    ensures PeriodTotal(results) == SumAmounts(DailyLines(results))
  {
    SortSum(ByKeyAscending, DailyDict(results).Items());
  }

  // Ranking

  /**
   * The ranking is the ten largest items, largest first: nothing dropped exceeds
   * anything shown, and shown and dropped items together are the input items.
   */
  lemma TopServicesRanking(items: seq<Line>)
    ensures |TopServices(items)| == if |items| < TopCount then |items| else TopCount
    ensures SortedBy(ByAmountDescending, TopServices(items))
    ensures multiset(TopServices(items)) + multiset(OmittedServices(items)) == multiset(items)
    ensures forall i, j :: 0 <= i < |TopServices(items)| && 0 <= j < |OmittedServices(items)| ==>
      TopServices(items)[i].amount >= OmittedServices(items)[j].amount
  {
    var sorted := Sort(ByAmountDescending, items);
    SortPermutes(ByAmountDescending, items);
    SortSorted(ByAmountDescending, items);
    var n := if |sorted| < TopCount then |sorted| else TopCount;
    assert sorted == sorted[..n] + sorted[n..];
    forall i, j | 0 <= i < n && 0 <= j < |sorted| - n
      ensures sorted[..n][i].amount >= sorted[n..][j].amount
    {
      assert Before(ByAmountDescending, sorted[i], sorted[n + j]);
    }
  }

  /**
   * Equal amounts keep the order the services were first counted in: for every
   * amount, the items of that amount that are shown come first among them, in
   * input order, and those dropped follow.
   */
  lemma TopServicesStable(items: seq<Line>, y: Line)
    ensures TiesWith(ByAmountDescending, TopServices(items), y) + TiesWith(ByAmountDescending, OmittedServices(items), y)
         == TiesWith(ByAmountDescending, items, y)
  {
    var sorted := Sort(ByAmountDescending, items);
    var n := if |sorted| < TopCount then |sorted| else TopCount;
    assert sorted == sorted[..n] + sorted[n..];
    TiesWithAppend(ByAmountDescending, sorted[..n], sorted[n..], y);
    SortStable(ByAmountDescending, items, y);
  }

  /** Every ranked service had a counted amount, and is listed with its total. */
  lemma RankedServicesCounted(results: seq<DayResult>, line: Line)
    requires line in RankServices(results)
    ensures line.amount > Threshold
    ensures line.amount == ServiceTotal(AllGroups(results), line.key)
    ensures HasCounted(AllGroups(results), line.key)
  {
    var d := ServiceDict(results);
    var gs := AllGroups(results);
    TopServicesRanking(d.Items());
    assert line in multiset(d.Items());
    ItemsMeaning(d, line);
    SeenServicesMeaning(gs);
    ServiceTotalPositive(gs, line.key);
  }

  /** Each service is listed at most once. */
  lemma RankedServicesDistinct(results: seq<DayResult>)
    ensures DistinctKeys(RankServices(results))
  {
    var items := ServiceDict(results).Items();
    assert DistinctKeys(items);
    SortDistinct(ByAmountDescending, items);
  }

  // Totals

  lemma {:induction false} CountedSumConcat(a: seq<Group>, b: seq<Group>)
    ensures CountedSum(a + b) == CountedSum(a) + CountedSum(b)
  {
    if b == [] {
      assert a + b == a;
    } else {
      var init := b[..|b| - 1];
      CountedSumConcat(a, init);
      assert (a + b)[..|a + b| - 1] == a + init;
    }
  }

  /** The totals of all services add up to the counted amounts. */
  lemma {:induction false} ServiceItemsSum(gs: seq<Group>)
    ensures SumAmounts(ServiceTotalsOf(gs).Items()) == CountedSum(gs)
  {
    if gs != [] {
      var init, g := gs[..|gs| - 1], gs[|gs| - 1];
      var d := ServiceTotalsOf(init);
      ServiceItemsSum(init);
      assert gs == init + [g];
      CountedSumAppend(init, g);
      if Counted(g) {
        CountGroup(d, init, g);
        ServiceTotalsUnique(d.Accumulate(g.service, g.amount), gs);
        AccumulateSum(d, g.service, g.amount);
      } else {
        SkipGroup(d, init, g);
        ServiceTotalsUnique(d, gs);
      }
    }
  }

  /** With one entry per date, the period total is the sum of all counted amounts. */
  lemma {:induction false} PeriodTotalCounted(results: seq<DayResult>)
    requires DistinctDates(results)
    ensures PeriodTotal(results) == CountedSum(AllGroups(results))
  {
    if results != [] {
      var init, last := results[..|results| - 1], results[|results| - 1];
      assert DistinctDates(init);
      PeriodTotalCounted(init);
      assert !HasDate(init, last.date);
      assert DailyDict(results) == DailyDict(init).Set(last.date, CountedSum(last.groups));
      SetNewKey(DailyDict(init), last.date, CountedSum(last.groups));
      CountedSumConcat(AllGroups(init), last.groups);
    }
  }

  /**
   * With one entry per date, the period total equals the sum of all service totals:
   * the daily section and the (uncut) service section account for the same money.
   */
  lemma PeriodTotalByService(results: seq<DayResult>)
    requires DistinctDates(results)
    ensures PeriodTotal(results) == SumAmounts(ServiceDict(results).Items())
  {
    PeriodTotalCounted(results);
    ServiceItemsSum(AllGroups(results));
  }

  /**
   * Line 128 overwrites: when two entries share a date, the daily total is the later
   * entry's, while the service totals still count both.
   */
  lemma LastEntryWins(date: string, first: seq<Group>, second: seq<Group>)
    ensures DailyLines([DayResult(date, first), DayResult(date, second)]) == [Line(date, CountedSum(second))]
    ensures ServiceDict([DayResult(date, first), DayResult(date, second)]) == ServiceTotalsOf(first + second)
  {
    var results := [DayResult(date, first), DayResult(date, second)];
    var init := results[..1];
    assert init == [DayResult(date, first)];
    assert init[..0] == [];
    assert SeenDates(init) == [date];
    assert SeenDates(results) == [date];
    assert DailyTotals(results) == map[date := CountedSum(second)];
    assert DailyDict(results).Items() == [Line(date, CountedSum(second))];
    SortSingleton(ByKeyAscending, Line(date, CountedSum(second)));
    assert AllGroups(init) == first;
  }

  // The report

  /** The report's figures agree with one another. */
  lemma SummaryConsistent(results: seq<DayResult>, resources: Census, days: int)
    requires days != 0
    ensures ReportOf(Some(results), resources, days).Ok?
    ensures
      var s := ReportOf(Some(results), resources, days).value;
      s.Summary? && s.periodTotal == SumAmounts(s.daily) && s.periodTotal >= 0.0 && |s.topServices| <= TopCount
  {
    PeriodTotalOfLines(results);
    PeriodTotalNonNegative(results);
    TopServicesRanking(ServiceDict(results).Items());
  }

  lemma PeriodTotalNonNegative(results: seq<DayResult>)
    ensures PeriodTotal(results) >= 0.0
  {
    var d := DailyDict(results);
    forall line | line in d.Items()
      ensures line.amount >= 0.0
    {
      ItemsMeaning(d, line);
      DailyTotalsCounted(results, line.key);
    }
    SumNonNegative(d.Items());
  }

  /** Every daily total is the counted sum of the last entry of that date: later writes win. */
  lemma {:induction false} DailyTotalsCounted(results: seq<DayResult>, date: string)
    requires date in DailyTotals(results)
    ensures exists i ::
              0 <= i < |results| && results[i].date == date && DailyTotals(results)[date] == CountedSum(results[i].groups) &&
              (forall j :: i < j < |results| ==> results[j].date != date)
  {
    var init, last := results[..|results| - 1], results[|results| - 1];
    if last.date != date {
      DailyTotalsCounted(init, date);
      var i :| 0 <= i < |init| && init[i].date == date && DailyTotals(init)[date] == CountedSum(init[i].groups) &&
               (forall j :: i < j < |init| ==> init[j].date != date);
      assert results[i] == init[i];
      assert forall j :: i < j < |results| - 1 ==> results[j] == init[j];
    } else {
      assert results[|results| - 1] == last;
    }
  }

  lemma {:induction false} SumNonNegative(lines: seq<Line>)
    requires forall line :: line in lines ==> line.amount >= 0.0
    ensures SumAmounts(lines) >= 0.0
  {
    if lines != [] {
      assert lines[0] in lines;
      SumNonNegative(lines[1..]);
    }
  }

  /** An empty `ResultsByTime` gives a report with no lines and zero totals. */
  lemma EmptyResponse(resources: Census, days: int)
    requires days != 0
    ensures ReportOf(Some([]), resources, days) == Ok(Summary(days, [], 0.0, 0.0, [], resources))
  {
  }

  // The response of the unit tests: two days, three services on the first.

  function FixtureResults(): seq<DayResult>
  {
    [DayResult("2024-01-01", [Group("AmazonEC2", 10.50), Group("AmazonRDS", 5.25), Group("AmazonS3", 0.50)]),
     DayResult("2024-01-02", [Group("AmazonEC2", 11.00)])]
  }

  /** The two days of the test response sum to 16.25 and 11.00. */
  lemma FixtureDailyDict()
    ensures DailyDict(FixtureResults()).Items() == [Line("2024-01-01", 16.25), Line("2024-01-02", 11.00)]
  {
    var results := FixtureResults();
    var first, second := results[0], results[1];
    assert results[..1] == [first] && [first][..0] == [];
    var gs := first.groups;
    assert [gs[0]][..0] == [] && [gs[0], gs[1]][..1] == [gs[0]] && gs[..2] == [gs[0], gs[1]];
    assert CountedSum([gs[0]]) == 10.50;
    assert CountedSum([gs[0], gs[1]]) == 15.75;
    assert CountedSum(gs) == 16.25;
    assert second.groups[..0] == [];
    assert CountedSum(second.groups) == 11.00;
    assert SeenDates(results) == ["2024-01-01", "2024-01-02"];
  }

  /** The daily section of the test response: 16.25 and 11.00, in date order, 27.25 in all. */
  lemma FixtureDaily()
    ensures DailyLines(FixtureResults()) == [Line("2024-01-01", 16.25), Line("2024-01-02", 11.00)]
    ensures PeriodTotal(FixtureResults()) == 27.25
  {
    FixtureDailyDict();
    FixtureDatesInOrder(Line("2024-01-01", 16.25), Line("2024-01-02", 11.00));
  }

  lemma FixtureDatesInOrder(first: Line, second: Line)
    requires first.key == "2024-01-01" && second.key == "2024-01-02"
    ensures Sort(ByKeyAscending, [first, second]) == [first, second]
  {
    StrLeCommonPrefix("2024-01-0", "1", "2");
    assert "2024-01-0" + "1" == first.key && "2024-01-0" + "2" == second.key;
    SortKeepsSorted(ByKeyAscending, [first, second]);
  }

  /** The services of the test response: EC2 over both days, then RDS, then S3. */
  lemma FixtureServiceDict()
    ensures ServiceDict(FixtureResults()).Items() == [Line("AmazonEC2", 21.50), Line("AmazonRDS", 5.25), Line("AmazonS3", 0.50)]
  {
    var results := FixtureResults();
    var init := results[..1];
    assert init[..0] == [];
    assert AllGroups(init) == results[0].groups;
    FixtureServiceTotals(AllGroups(results));
  }

  predicate FixtureGroups(gs: seq<Group>)
  {
    gs == [Group("AmazonEC2", 10.50), Group("AmazonRDS", 5.25), Group("AmazonS3", 0.50), Group("AmazonEC2", 11.00)]
  }

  lemma FixtureServiceTotals(gs: seq<Group>)
    requires FixtureGroups(gs)
    ensures ServiceTotalsOf(gs).Items() == [Line("AmazonEC2", 21.50), Line("AmazonRDS", 5.25), Line("AmazonS3", 0.50)]
  {
    FixtureSeenServices(gs);
    FixtureEc2Total(gs);
    FixtureOtherTotals(gs);
  }

  lemma FixtureSeenServices(gs: seq<Group>)
    requires FixtureGroups(gs)
    ensures SeenServices(gs) == ["AmazonEC2", "AmazonRDS", "AmazonS3"]
  {
    var one, two, three := gs[..1], gs[..2], gs[..3];
    assert one[..0] == [] && two[..1] == one && three[..2] == two && gs[..3] == three;
    assert SeenServices(one) == ["AmazonEC2"];
    assert SeenServices(two) == ["AmazonEC2", "AmazonRDS"];
    assert "AmazonEC2" != "AmazonS3" && "AmazonRDS" != "AmazonS3";
  }

  lemma FixtureEc2Total(gs: seq<Group>)
    requires FixtureGroups(gs)
    ensures ServiceTotal(gs, "AmazonEC2") == 21.50
  {
    var one, two, three := gs[..1], gs[..2], gs[..3];
    assert one[..0] == [] && two[..1] == one && three[..2] == two && gs[..3] == three;
    assert "AmazonEC2" != "AmazonRDS" && "AmazonEC2" != "AmazonS3";
    assert ServiceTotal(one, "AmazonEC2") == 10.50;
    assert ServiceTotal(two, "AmazonEC2") == 10.50;
  }

  lemma FixtureOtherTotals(gs: seq<Group>)
    requires FixtureGroups(gs)
    ensures ServiceTotal(gs, "AmazonRDS") == 5.25 && ServiceTotal(gs, "AmazonS3") == 0.50
  {
    var one, two, three := gs[..1], gs[..2], gs[..3];
    assert one[..0] == [] && two[..1] == one && three[..2] == two && gs[..3] == three;
    assert "AmazonEC2" != "AmazonRDS" && "AmazonEC2" != "AmazonS3" && "AmazonRDS" != "AmazonS3";
    assert ServiceTotal(one, "AmazonRDS") == 0.0 && ServiceTotal(one, "AmazonS3") == 0.0;
    assert ServiceTotal(two, "AmazonRDS") == 5.25 && ServiceTotal(two, "AmazonS3") == 0.0;
  }

  /** The ranking of the test response lists the three services largest first. */
  lemma FixtureRanking()
    ensures RankServices(FixtureResults()) == [Line("AmazonEC2", 21.50), Line("AmazonRDS", 5.25), Line("AmazonS3", 0.50)]
  {
    FixtureServiceDict();
    SortKeepsSorted(ByAmountDescending, ServiceDict(FixtureResults()).Items());
  }
}

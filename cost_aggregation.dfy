/**
 * The reduction at the heart of `format_cost_message`: per-day cost entries, each a
 * list of per-service groups, become a daily-total dict keyed by date and a
 * service-total dict keyed by service, counting only amounts above 0.01.
 */
module CostAggregation {
  import opened Totals

  /** One element of `Groups`: the service in `Keys[0]` and `Metrics.UnblendedCost.Amount`. */
  datatype Group = Group(service: string, amount: real)

  /** One element of `ResultsByTime`: `TimePeriod.Start` and its `Groups`. */
  datatype DayResult = DayResult(date: string, groups: seq<Group>)

  /** Amounts at or below this are treated as noise and left out of every total. */
  const Threshold: real := 0.01

  predicate Counted(g: Group)
  {
    g.amount > Threshold
  }

  /** Some group of `gs` for `service` is counted. */
  ghost predicate HasCounted(gs: seq<Group>, service: string)
  {
    exists i :: 0 <= i < |gs| && gs[i].service == service && Counted(gs[i])
  }

  /** Some entry of `results` starts on `date`. */
  ghost predicate HasDate(results: seq<DayResult>, date: string)
  {
    exists i :: 0 <= i < |results| && results[i].date == date
  }

  ghost predicate DistinctDates(results: seq<DayResult>)
  {
    forall i, j :: 0 <= i < j < |results| ==> results[i].date != results[j].date
  }

  /** The groups of all entries, entry after entry. */
  function AllGroups(results: seq<DayResult>): seq<Group>
  {
    if results == [] then [] else AllGroups(results[..|results| - 1]) + results[|results| - 1].groups
  }

  /** The sum of the counted amounts: one day's `total_cost`. */
  function CountedSum(gs: seq<Group>): (r: real)
    ensures r >= 0.0
  {
    if gs == [] then 0.0
    else CountedSum(gs[..|gs| - 1]) + (if Counted(gs[|gs| - 1]) then gs[|gs| - 1].amount else 0.0)
  }

  /** A day's total is 0 exactly when every one of its amounts was filtered out. */
  lemma {:induction false} CountedSumZero(gs: seq<Group>)
    ensures CountedSum(gs) == 0.0 <==> forall i :: 0 <= i < |gs| ==> !Counted(gs[i])
  {
    if gs != [] {
      var init := gs[..|gs| - 1];
      CountedSumZero(init);
      assert forall i :: 0 <= i < |init| ==> init[i] == gs[i];
    }
  }

  lemma CountedSumAppend(gs: seq<Group>, g: Group)
    ensures CountedSum(gs + [g]) == CountedSum(gs) + (if Counted(g) then g.amount else 0.0)
  {
    assert (gs + [g])[..|gs + [g]| - 1] == gs;
  }

  /** The sum of the counted amounts of one service. */
  function ServiceTotal(gs: seq<Group>, service: string): (r: real)
    ensures r == 0.0 || r > Threshold
  {
    if gs == [] then 0.0
    else
      var last := gs[|gs| - 1];
      ServiceTotal(gs[..|gs| - 1], service) + (if last.service == service && Counted(last) then last.amount else 0.0)
  }

  /** A service's total is positive exactly when one of its amounts is counted. */
  lemma {:induction false} ServiceTotalPositive(gs: seq<Group>, service: string)
    ensures ServiceTotal(gs, service) > 0.0 <==> HasCounted(gs, service)
  {
    if gs != [] {
      var init := gs[..|gs| - 1];
      ServiceTotalPositive(init, service);
      assert forall i :: 0 <= i < |init| ==> init[i] == gs[i];
    }
  }

  /** The services that have a counted group, in the order they are first counted. */
  function SeenServices(gs: seq<Group>): (seen: seq<string>)
    ensures Distinct(seen)
  {
    if gs == [] then []
    else
      var seen, last := SeenServices(gs[..|gs| - 1]), gs[|gs| - 1];
      if Counted(last) && last.service !in seen then seen + [last.service] else seen
  }

  /** A service is listed exactly when one of its amounts is counted. */
  lemma {:induction false} SeenServicesMeaning(gs: seq<Group>)
    ensures forall service :: service in SeenServices(gs) <==> HasCounted(gs, service)
  {
    if gs != [] {
      var init := gs[..|gs| - 1];
      SeenServicesMeaning(init);
      assert forall i :: 0 <= i < |init| ==> init[i] == gs[i];
    }
  }

  /** The distinct dates of the entries, in the order they first occur. */
  function SeenDates(results: seq<DayResult>): (dates: seq<string>)
    ensures Distinct(dates)
    ensures forall date :: date in dates <==> HasDate(results, date)
  {
    if results == [] then []
    else
      var init, last := results[..|results| - 1], results[|results| - 1];
      assert forall i :: 0 <= i < |init| ==> init[i] == results[i];
      var dates := SeenDates(init);
      if last.date in dates then dates else dates + [last.date]
  }

  /** Each date mapped to the counted sum of the entry that wrote it last. */
  function DailyTotals(results: seq<DayResult>): (totals: map<string, real>)
    ensures forall date :: date in totals <==> HasDate(results, date)
  {
    if results == [] then map[]
    else
      var init, last := results[..|results| - 1], results[|results| - 1];
      assert forall i :: 0 <= i < |init| ==> init[i] == results[i];
      DailyTotals(init)[last.date := CountedSum(last.groups)]
  }

  /** `daily_totals` after the loop over `results`. */
  function DailyDict(results: seq<DayResult>): (d: OrderedTotals)
    ensures d.Valid()
  {
    OrderedTotals(SeenDates(results), DailyTotals(results))
  }

  /** `service_totals` after the groups `gs` have been processed. */
  function ServiceTotalsOf(gs: seq<Group>): (d: OrderedTotals)
    ensures d.Valid()
  {
    var seen := SeenServices(gs);
    OrderedTotals(seen, map service | service in seen :: ServiceTotal(gs, service))
  }

  /** `d` lists the services counted in `gs` in first-counted order, each with its total. */
  ghost predicate HoldsServiceTotals(d: OrderedTotals, gs: seq<Group>)
  {
    d.Valid() && d.order == SeenServices(gs) &&
    forall service :: service in d.amounts ==> d.amounts[service] == ServiceTotal(gs, service)
  }

  lemma ServiceTotalsUnique(d: OrderedTotals, gs: seq<Group>)
    requires HoldsServiceTotals(d, gs)
    ensures d == ServiceTotalsOf(gs)
  {
    var e := ServiceTotalsOf(gs);
    assert d.amounts == e.amounts;
  }

  /** `service_totals` after the loop over `results`. */
  function ServiceDict(results: seq<DayResult>): (d: OrderedTotals)
    ensures d.Valid()
  {
    ServiceTotalsOf(AllGroups(results))
  }

  lemma ServiceTotalAppend(gs: seq<Group>, g: Group, service: string)
    ensures ServiceTotal(gs + [g], service)
         == ServiceTotal(gs, service) + (if g.service == service && Counted(g) then g.amount else 0.0)
  {
    assert (gs + [g])[..|gs + [g]| - 1] == gs;
  }

  lemma SeenServicesAppend(gs: seq<Group>, g: Group)
    ensures SeenServices(gs + [g])
         == if Counted(g) && g.service !in SeenServices(gs) then SeenServices(gs) + [g.service] else SeenServices(gs)
  {
    assert (gs + [g])[..|gs + [g]| - 1] == gs;
  }

  /**
   * Lines 123-125 on a counted group: its service, set to 0 first when missing, gets
   * the amount added, which keeps `d` the dict of the counted groups so far.
   */
  lemma CountGroup(d: OrderedTotals, gs: seq<Group>, g: Group)
    requires HoldsServiceTotals(d, gs) && Counted(g)
    ensures
      HoldsServiceTotals(d.Accumulate(g.service, g.amount), gs + [g])
  {
    SeenServicesAppend(gs, g);
    if g.service !in d.amounts {
      SeenServicesMeaning(gs);
      ServiceTotalPositive(gs, g.service);
    }
    forall service
      ensures ServiceTotal(gs + [g], service)
           == ServiceTotal(gs, service) + (if g.service == service then g.amount else 0.0)
    {
      ServiceTotalAppend(gs, g, service);
    }
  }

  /** A group at or below the threshold changes nothing. */
  lemma SkipGroup(d: OrderedTotals, gs: seq<Group>, g: Group)
    requires HoldsServiceTotals(d, gs) && !Counted(g)
    ensures HoldsServiceTotals(d, gs + [g])
  {
    SeenServicesAppend(gs, g);
    forall service
      ensures ServiceTotal(gs + [g], service) == ServiceTotal(gs, service)
    {
      ServiceTotalAppend(gs, g, service);
    }
  }

  /**
   * Lines 116-126: one entry's groups. Returns the entry's `total_cost` and
   * `service_totals` after its counted groups were added.
   */
  method AddGroups(groups: seq<Group>, ghost done: seq<Group>, services: OrderedTotals)
    returns (totalCost: real, updated: OrderedTotals)
    requires HoldsServiceTotals(services, done)
    ensures totalCost == CountedSum(groups)
    ensures HoldsServiceTotals(updated, done + groups)
  {
    totalCost, updated := 0.0, services;
    var j := 0;
    ghost var processed := done;
    assert done + groups[..j] == done;
    while j < |groups|
      invariant 0 <= j <= |groups|
      invariant processed == done + groups[..j]
      invariant totalCost == CountedSum(groups[..j])
      invariant HoldsServiceTotals(updated, processed)
    {
      var g := groups[j];
      assert done + groups[..j + 1] == processed + [g];
      assert groups[..j + 1] == groups[..j] + [g];
      CountedSumAppend(groups[..j], g);
      if g.amount > Threshold {
        CountGroup(updated, processed, g);
        updated := updated.Accumulate(g.service, g.amount);
        totalCost := totalCost + g.amount;
      } else {
        SkipGroup(updated, processed, g);
      }
      processed := processed + [g];
      j := j + 1;
    }
    assert groups[..j] == groups;
  }

  /** Lines 111-128 of `format_cost_message`: the two dicts built over all entries. */
  method AggregateCosts(results: seq<DayResult>) returns (daily: OrderedTotals, services: OrderedTotals)
    ensures daily == DailyDict(results)
    ensures services == ServiceDict(results)
  {
    daily, services := Empty(), Empty();
    var i := 0;
    while i < |results|
      invariant 0 <= i <= |results|
      invariant daily == DailyDict(results[..i])
      invariant HoldsServiceTotals(services, AllGroups(results[..i]))
    {
      assert results[..i + 1][..i] == results[..i];
      var totalCost;
      totalCost, services := AddGroups(results[i].groups, AllGroups(results[..i]), services);
      daily := daily.Set(results[i].date, totalCost);
      i := i + 1;
    }
    assert results[..i] == results;
    ServiceTotalsUnique(services, AllGroups(results));
  }
}

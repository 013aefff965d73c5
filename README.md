# AWS daily cost notifier, modelled in Dafny

This project models the Lambda function of the AWS daily cost monitor
(`lambda/cost_notifier.py`) and proves properties of the model. The function
works in four steps:

1. It reads its configuration: `SNS_TOPIC_ARN`, and `DAYS_TO_CHECK` (default 7).
2. It asks Cost Explorer for the daily, per-service unblended cost of the last
   `DAYS_TO_CHECK` days, and counts EC2 instances, RDS instances, S3 buckets and
   Lambda functions.
3. It reduces the cost data to two dicts:
   - a daily total per date;
   - a period total per service.

   Amounts of 0.01 or less are ignored in both.
4. It formats a report and publishes it to the SNS topic.

The report holds:

- the daily totals, in date order;
- the period total and the average per day;
- the ten most expensive services;
- the resource counts.

The model is imperative where the source is. The handler, the per-entry
aggregation loop and the instance-counting loop are methods. Their contracts
tie their results to specification functions, and lemmas prove the promised
properties about those functions.

| file | module | models |
|---|---|---|
| `wrappers.dfy` | `Wrappers` | `None` and uncaught exceptions as `Option` / `Result` values |
| `totals.dfy` | `Totals` | a Python dict from `str` to `Decimal`: insertion order, `d[k] = v`, `d[k] += v`, `d.items()` |
| `string_order.dfy` | `StringOrder` | Python's ordering of `str` (lexicographic by code point) |
| `sorting.dfy` | `Sorting` | `sorted(...)`: a stable sort, ascending by key or descending by amount |
| `cost_aggregation.dfy` | `CostAggregation` | the loops of lines 111-128 that build `daily_totals` and `service_totals` |
| `cost_report.dfy` | `CostReport` | `format_cost_message`: daily lines, period total, average, top ten, failure notice |
| `resource_census.dfy` | `ResourceCensus` | `get_resource_counts` |
| `cost_query.dfy` | `CostQuery` | the request `get_cost_data` sends |
| `settings.dfy` | `Settings` | the environment variables and `int(...)` of `DAYS_TO_CHECK` |
| `handler.dfy` | `Handler` | `lambda_handler`: the order of its steps, the calls it makes, the response it returns |

Modelling choices:

- Amounts are `real`. `Decimal` arithmetic on the few-digit amounts Cost Explorer
  returns is exact, so `real` computes the same sums.
- Dates in the response (`TimePeriod.Start`) are strings, sorted as Python sorts
  `str`. Dates in the request are proleptic Gregorian ordinals
  (`date.toordinal()`).
- Every AWS call is replaced by its reply, which the handler receives as a
  parameter (`Handler.Replies`). A query that raised, and was caught, is `None`.
- The handler returns the sequence of calls it made, so "nothing is queried
  when the topic is missing" becomes a postcondition.
- The report is the data the text is made of (`CostReport.Report`), not the
  text itself.

Behaviour of the code that the model keeps:

- **Period.** The request asks for `Start = today - days` and `End = today`, and
  Cost Explorer's `End` is exclusive. The request therefore covers the `days`
  days before today, and today is not among them (`CostQuery.RequestCoversDays`).
- **Failure notice.** When the cost query returned nothing, the report is the
  one-line notice alone (lines 100-101). It carries no resource counts, so
  `CostFailureNotice` has none.
- **Zero days.** `DAYS_TO_CHECK` is not checked to be positive. With cost data
  present and 0 days, the average divides by zero (line 137). The exception
  escapes `lambda_handler` and the report is never published
  (`Handler.LambdaHandler`, `Handler.ZeroDaysNeverPublished`).
- **Order of checks.** `DAYS_TO_CHECK` is parsed (line 189) before the topic is
  checked (line 191), and the topic is checked before any query is sent
  (line 200). A malformed `DAYS_TO_CHECK` raises even when the topic is missing,
  and a missing topic means no query is sent.

## Model

| member | source | states |
|---|---|---|
| Totals.OrderedTotals.Set | lambda/cost_notifier.py:128 | `d[key] = amount`: the new dict is valid, maps `key` to `amount`, and keeps every other key; a new key is appended to the order and a known key keeps its place |
| Totals.OrderedTotals.Accumulate | lambda/cost_notifier.py:123-125 | `d[key] += amount` after `d[key] = 0` for a missing key: the stored value grows by `amount` from the old value or from 0, a new key goes last, and the dict stays valid |
| Totals.OrderedTotals.Items | lambda/cost_notifier.py:132 | `d.items()`: one item per key, in insertion order, each with its stored amount |
| Totals.ItemsOf | lambda/cost_notifier.py:132 | the items of the given keys, each paired with its amount, in the order of the keys |
| Totals.Empty | lambda/cost_notifier.py:111-112 | `{}`: a valid dict with no keys |
| Totals.ItemsMeaning | lambda/cost_notifier.py:132 | a pair is among the items exactly when its key is stored with that amount |
| Totals.SetNewKey | lambda/cost_notifier.py:128 | storing a new key appends exactly one item and adds its amount to the sum of the items |
| Totals.AccumulateSum | lambda/cost_notifier.py:123-125 | `d[key] += amount` adds exactly `amount` to the sum of the items, for a new or a known key |
| Totals.AccumulateNewKey | lambda/cost_notifier.py:123-125 | for a key not yet stored, setting it to 0 and then adding adds exactly `amount` to the sum |
| Totals.SumAmountsAppend | lambda/cost_notifier.py:135 | `sum` over a concatenation is the sum of the sums |
| Totals.SumItemsOverwrite | lambda/cost_notifier.py:125 | overwriting a stored key changes the sum of the items by the new value minus the old |
| StringOrder.StrLeTotal | lambda/cost_notifier.py:132 | any two strings are comparable |
| StringOrder.StrLeTransitive | lambda/cost_notifier.py:132 | string order is transitive |
| StringOrder.StrLeAntisymmetric | lambda/cost_notifier.py:132 | two strings each at most the other are equal |
| StringOrder.StrLeCommonPrefix | lambda/cost_notifier.py:132 | strings with a common prefix compare as their remainders |
| Sorting.SortPermutes | lambda/cost_notifier.py:132 | `sorted` returns a permutation of its input, of the same length |
| Sorting.SortSorted | lambda/cost_notifier.py:141-142 | the output of `sorted` is ordered by the sort key |
| Sorting.SortStable | lambda/cost_notifier.py:141-142 | items with equal sort keys keep their input order |
| Sorting.SortSum | lambda/cost_notifier.py:135 | sorting does not change the sum of the amounts |
| Sorting.SortDistinct | lambda/cost_notifier.py:132 | sorting items with distinct keys keeps their keys distinct |
| Sorting.SortKeepsSorted | lambda/cost_notifier.py:132 | an input already in order is returned unchanged |
| Sorting.SortIdempotent | lambda/cost_notifier.py:141-142 | sorting a sorted list changes nothing |
| Sorting.InsertStable | lambda/cost_notifier.py:141-142 | inserting into an ordered list places the new item after every item tied with it |
| Sorting.InsertSorted | lambda/cost_notifier.py:141-142 | inserting into an ordered list keeps it ordered |
| Sorting.InsertPermutes | lambda/cost_notifier.py:141-142 | inserting adds exactly the new item |
| Sorting.TiesWithAppend | lambda/cost_notifier.py:141-142 | the tied items of a concatenation are those of the first part followed by those of the second |
| CostAggregation.CountedSum | lambda/cost_notifier.py:116-126 | a day's `total_cost`, never negative |
| CostAggregation.CountedSumZero | lambda/cost_notifier.py:122 | a day's total is 0 exactly when every one of its amounts is at or below 0.01 |
| CostAggregation.ServiceTotal | lambda/cost_notifier.py:122-125 | a service's total is 0 or above 0.01 |
| CostAggregation.ServiceTotalPositive | lambda/cost_notifier.py:122-125 | a service's total is positive exactly when one of its amounts exceeds 0.01 |
| CostAggregation.SeenServices | lambda/cost_notifier.py:123-124 | services become keys in the order their first counted amount appears, each once |
| CostAggregation.SeenServicesMeaning | lambda/cost_notifier.py:122-124 | a service is a key exactly when one of its amounts exceeds 0.01 |
| CostAggregation.SeenDates | lambda/cost_notifier.py:114-128 | dates become keys in first-occurrence order, each once, and exactly the dates of the entries |
| CostAggregation.DailyTotals | lambda/cost_notifier.py:128 | the dates stored are exactly the dates of the entries |
| CostAggregation.DailyDict | lambda/cost_notifier.py:111-128 | `daily_totals` is a valid dict |
| CostAggregation.ServiceTotalsOf | lambda/cost_notifier.py:112-125 | `service_totals` is a valid dict |
| CostAggregation.ServiceTotalsUnique | lambda/cost_notifier.py:112-126 | a dict that lists the counted services in first-counted order, each with its total, is `service_totals` |
| CostAggregation.CountGroup | lambda/cost_notifier.py:122-126 | adding a counted amount to its service keeps the dict the service totals of the amounts seen so far |
| CostAggregation.SkipGroup | lambda/cost_notifier.py:122 | an amount at or below 0.01 leaves the service totals unchanged |
| CostAggregation.AddGroups | lambda/cost_notifier.py:116-126 | the inner loop returns the entry's counted sum and adds its counted amounts to `service_totals` |
| CostAggregation.AggregateCosts | lambda/cost_notifier.py:111-128 | the outer loop returns `daily_totals` and `service_totals` for all entries |
| CostReport.Average | lambda/cost_notifier.py:137 | for `days != 0`, the average times `days` is the period total |
| CostReport.FormatCostMessage | lambda/cost_notifier.py:98-144 | the report: the failure notice when there is no cost data, the division-by-zero error exactly when there is cost data and `days == 0`, and otherwise the summary built from the aggregated dicts |
| CostReport.DailyLinesAscending | lambda/cost_notifier.py:132 | the daily lines are in strictly ascending date order, so each date appears once |
| CostReport.DailyLinesContents | lambda/cost_notifier.py:128-133 | a line is shown exactly when its date occurs in the response, with the total of that date's last entry |
| CostReport.DailyLinesCount | lambda/cost_notifier.py:132-133 | there is one line per distinct date |
| CostReport.PeriodTotalOfLines | lambda/cost_notifier.py:135 | the period total is the sum of the daily lines shown |
| CostReport.PeriodTotalNonNegative | lambda/cost_notifier.py:135 | the period total is never negative |
| CostReport.TopServicesRanking | lambda/cost_notifier.py:141-142 | the ranking has `min(10, n)` items, largest first; with the omitted items it is exactly the input; nothing omitted exceeds anything shown |
| CostReport.TopServicesStable | lambda/cost_notifier.py:141-142 | among services with equal totals, those shown come first, in first-counted order, and those omitted follow |
| CostReport.RankedServicesCounted | lambda/cost_notifier.py:122-144 | every ranked service had a counted amount and is shown with its total, which exceeds 0.01 |
| CostReport.RankedServicesDistinct | lambda/cost_notifier.py:141-144 | no service is ranked twice |
| CostReport.CountedSumConcat | lambda/cost_notifier.py:116-126 | counted sums add over concatenation |
| CostReport.ServiceItemsSum | lambda/cost_notifier.py:122-126 | the totals of all services add up to every counted amount |
| CostReport.PeriodTotalCounted | lambda/cost_notifier.py:114-135 | with one entry per date, the period total is the sum of all counted amounts |
| CostReport.PeriodTotalByService | lambda/cost_notifier.py:114-135 | with one entry per date, the period total equals the sum of all service totals |
| CostReport.LastEntryWins | lambda/cost_notifier.py:128 | two entries with one date give one daily line, the later entry's total, while the service totals count both |
| CostReport.SummaryConsistent | lambda/cost_notifier.py:132-142 | for `days != 0` the report is a summary whose total is the sum of its daily lines, is not negative, and whose ranking has at most 10 lines |
| CostReport.DailyTotalsCounted | lambda/cost_notifier.py:114-128 | every daily total is the counted sum of the last entry of that date: no later entry has that date |
| CostReport.EmptyResponse | lambda/cost_notifier.py:114-144 | an empty `ResultsByTime` gives no lines, a total and average of 0, and no ranking |
| CostReport.FixtureDailyDict | lambda/conftest.py:11-68 | the test response gives daily totals 16.25 and 11.00 |
| CostReport.FixtureDaily | lambda/test_cost_notifier.py:159-173 | the test response shows 2024-01-01 then 2024-01-02, and 27.25 in all |
| CostReport.FixtureRanking | lambda/test_cost_notifier.py:159-173 | the test response ranks EC2 21.50, RDS 5.25, S3 0.50 |
| CostReport.FixtureServiceTotals | lambda/conftest.py:11-68 | the four groups of the test response give EC2 21.50, RDS 5.25 and S3 0.50, in that order |
| ResourceCensus.RunningCount | lambda/cost_notifier.py:50-53 | running instances never outnumber instances |
| ResourceCensus.RunningCountAppend | lambda/cost_notifier.py:49-53 | the running count adds over concatenation |
| ResourceCensus.RunningCountAll | lambda/cost_notifier.py:52-53 | all instances count as running exactly when every state is `running` |
| ResourceCensus.RunningCountNone | lambda/cost_notifier.py:52-53 | no instance counts as running exactly when none is in state `running` |
| ResourceCensus.AvailableCount | lambda/cost_notifier.py:66-67 | available databases never outnumber databases |
| ResourceCensus.AvailableCountAll | lambda/cost_notifier.py:66-67 | all databases count as available exactly when every status is `available` |
| ResourceCensus.Ec2CountsOf | lambda/cost_notifier.py:54-60 | the EC2 entry never has more running instances than instances |
| ResourceCensus.RdsCountsOf | lambda/cost_notifier.py:68-74 | the RDS entry never has more available databases than databases |
| ResourceCensus.CountInstances | lambda/cost_notifier.py:46-53 | the nested loop counts every instance of every reservation and the running ones |
| ResourceCensus.GetResourceCounts | lambda/cost_notifier.py:40-96 | each of the four counts is computed from its own reply alone, with zeros for a failed call: EC2 instances and running ones, RDS instances and available ones, buckets, functions |
| ResourceCensus.AllCallsFailed | lambda/test_cost_notifier.py:105-124 | when every call fails, every count is 0 |
| ResourceCensus.FixtureCensus | lambda/test_cost_notifier.py:65-82 | the test replies give 3 instances, 2 running, 1 of 1 database available, 5 buckets, 2 functions |
| CostQuery.CostQueryFor | lambda/cost_notifier.py:17-34 | the request ends today and starts `days` earlier, daily, unblended cost, grouped by service; it is an error exactly when the start is not a date |
| CostQuery.PeriodMembers | lambda/cost_notifier.py:21-25 | a date is in the period exactly when it is at or after `Start` and before `End` |
| CostQuery.PeriodSize | lambda/cost_notifier.py:21-25 | a period from `start` to `end` has `end - start` dates |
| CostQuery.RequestCoversDays | lambda/cost_notifier.py:17-25 | for `days >= 0` the request covers exactly `days` dates: yesterday is the last of them, and today is not included |
| CostQuery.NegativeDaysInverted | lambda/cost_notifier.py:18 | a negative `days` asks for a period that starts after it ends and so covers no date |
| Settings.DigitsValue | lambda/cost_notifier.py:189 | a digit string has a value exactly when it is non-empty and all digits |
| Settings.ShowNat | lambda/cost_notifier.py:189 | decimal writing produces a non-empty digit string |
| Settings.DigitsRoundTrip | lambda/cost_notifier.py:189 | reading a natural number's decimal digits gives it back |
| Settings.ParseRoundTrip | lambda/cost_notifier.py:189 | `int(str(n)) == n` for every integer |
| Settings.DefaultIsSeven | lambda/cost_notifier.py:189 | when `DAYS_TO_CHECK` is unset, 7 days are checked |
| Totals.SumAmounts | lambda/cost_notifier.py:135 | definition: `sum(...)` over the amounts of some items |
| StringOrder.StrLe | lambda/cost_notifier.py:132 | definition: Python's `<=` on `str`, lexicographic by code point with a proper prefix first |
| StringOrder.StrLt | lambda/cost_notifier.py:132 | definition: Python's `<` on `str` |
| Sorting.Insert | lambda/cost_notifier.py:141-142 | definition: one insertion step of the stable sort, after every item that may stand before the new one |
| Sorting.Sort | lambda/cost_notifier.py:132 | definition: `sorted(...)` by date ascending or by amount descending, keeping the input order of ties |
| CostAggregation.Counted | lambda/cost_notifier.py:122 | definition: an amount above 0.01 |
| CostAggregation.AllGroups | lambda/cost_notifier.py:114-120 | definition: the groups of all entries, entry after entry, as the two loops visit them |
| CostAggregation.ServiceDict | lambda/cost_notifier.py:112-126 | definition: `service_totals` after the loop over all entries; it is a valid dict |
| CostReport.DailyLines | lambda/cost_notifier.py:132-133 | definition: `sorted(daily_totals.items())` |
| CostReport.PeriodTotal | lambda/cost_notifier.py:135 | definition: `sum(daily_totals.values())` |
| CostReport.TopServices | lambda/cost_notifier.py:141-142 | definition: the items sorted by amount, largest first, cut to the first ten |
| CostReport.OmittedServices | lambda/cost_notifier.py:141-142 | definition: the sorted items the cut to ten drops |
| CostReport.RankServices | lambda/cost_notifier.py:140-144 | definition: the top ten of `service_totals.items()` |
| CostReport.ReportOf | lambda/cost_notifier.py:98-144 | definition: the notice without cost data, the division-by-zero error for 0 days, otherwise the summary |
| ResourceCensus.Instances | lambda/cost_notifier.py:49-51 | definition: the instances of all reservations, reservation after reservation |
| ResourceCensus.IsRunning | lambda/cost_notifier.py:52 | definition: an instance whose state name is `running` |
| ResourceCensus.IsAvailable | lambda/cost_notifier.py:66 | definition: a database whose status is `available` |
| ResourceCensus.ListedCount | lambda/cost_notifier.py:76-94 | definition: `len(...)` of a listing, 0 when the call failed |
| ResourceCensus.CensusOf | lambda/cost_notifier.py:40-96 | definition: the dict `get_resource_counts` returns for the given replies |
| Settings.ParseInt | lambda/cost_notifier.py:189 | definition: `int(...)` on an optional sign and ASCII digits, `None` where it raises |
| Settings.DaysToCheck | lambda/cost_notifier.py:189 | definition: `DAYS_TO_CHECK` read with `int(...)`, `'7'` when unset |
| Settings.IsConfigured | lambda/cost_notifier.py:191 | definition: the topic is set and not empty |
| CostQuery.Period | lambda/cost_notifier.py:21-25 | definition: the dates from `Start` up to but not including `End` |
| Handler.ReportFor | lambda/cost_notifier.py:200-208 | definition: the report formatted from the cost reply and the counts of the inventory replies |
| Handler.LambdaHandler | lambda/cost_notifier.py:183-223 | the handler's whole behaviour, listed below this table |
| Handler.CostFailureStillPublished | lambda/cost_notifier.py:100-101 | when the cost query fails, the failure notice is still formatted and published |
| Handler.ZeroDaysNeverPublished | lambda/cost_notifier.py:137 | with cost data and 0 days, the handler never reaches the publish call |

`Handler.LambdaHandler` states, in order:

- A malformed `DAYS_TO_CHECK` raises with no call made.
- A missing or empty topic returns 500 "SNS_TOPIC_ARN not configured" with no call made.
- A start date outside the range of `date` raises with no call made.
- Otherwise the first five calls are the cost query for the period and the four
  inventory calls.
- A division by zero then raises. Failing that, the sixth and last call
  publishes the report made from the replies. The handler then returns 200 or
  500 "Failed to send report", depending on whether the publish succeeded.
- The handler returns 200 exactly when every step succeeded and the publish
  succeeded.

## Left out

- The report's text is not modelled: headings, emoji, the `$%.2f` formatting of
  amounts through `float`, and the generation timestamp (line 105). The model
  keeps the data those lines print.
- The publish `Subject` with today's date is not modelled, nor the `MessageId`
  log line. `send_notification` is reduced to the success flag of its reply.
- `print` logging is not modelled.
- The clock is not modelled: `datetime.now().date()` is the `today` parameter,
  given as a date ordinal.
- Formatting request dates with `strftime('%Y-%m-%d')` is not modelled.
- The AWS clients are not modelled. Each call is replaced by its reply
  (`Handler.Replies`), with `None` for a call that raised.
- A reply that is malformed, so that a key lookup raises inside the same `try`,
  is modelled as a failed call, like the call raising.
- A cost response with a malformed `ResultsByTime` is outside `get_cost_data`'s
  `try`, so it would raise in `format_cost_message`. The model does not cover
  this case.
- An empty-dict cost response, which `if not cost_data` treats like `None`, is
  modelled as `None`.
- Pagination is not modelled, because the code reads only the first page of
  every listing.
- Buckets and functions are reduced to their number, because only `len(...)` of
  them is used.
- Amounts are exact `real`s. `Decimal`'s 28-digit context rounding, and the
  rounding of `total_period_cost / days`, are not modelled.
- Settings.ParseInt: `int(...)` is modelled only for an optional sign followed
  by ASCII decimal digits. Python also accepts surrounding whitespace,
  underscores between digits, and non-ASCII digits, which the model rejects as
  `ValueError`.
- The `event` and `context` arguments of `lambda_handler` are not modelled,
  because the code never reads them.
- The `json.dumps` encoding of the response body is written out as its result
  for the three fixed messages.

/**
 * `lambda_handler`: read the configuration, query costs and inventory, format the
 * report and publish it. The AWS services are modelled by the replies they give;
 * the calls the handler makes are returned in order.
 */
module Handler {
  import opened Wrappers
  import opened Settings
  import opened CostQuery
  import opened CostAggregation
  import opened ResourceCensus
  import opened CostReport

  /** One request the handler sends to an AWS service. */
  datatype ExternalCall =
    | GetCostAndUsage(request: CostRequest)
    | DescribeInstances
    | DescribeDbInstances
    | ListBuckets
    | ListFunctions
    | PublishReport(topicArn: string, report: Report)

  /**
   * What the services answer: the cost data (`None` when the query raised), the
   * inventory listings, and whether `sns_client.publish` succeeded.
   */
  datatype Replies = Replies(costData: Option<seq<DayResult>>, inventory: InventoryResponses, published: bool)

  /** The dict the handler returns; `body` is the `json.dumps` text. */
  datatype Response = Response(statusCode: int, body: string)

  /** The exceptions that escape the handler. */
  datatype Failure =
    | InvalidDaysToCheck   // `int(...)` raises `ValueError`
    | DateOutOfRange       // `end_date - timedelta(days=...)` raises `OverflowError`
    | AverageOverZeroDays  // `total_period_cost / days` with `days == 0`

  datatype Outcome = Returned(response: Response) | Raised(failure: Failure)

  const NotConfigured: Response := Response(500, "\"SNS_TOPIC_ARN not configured\"")
  const ReportSent: Response := Response(200, "\"Report sent successfully\"")
  const ReportNotSent: Response := Response(500, "\"Failed to send report\"")

  /** The four inventory calls of `get_resource_counts`, in order. */
  const InventoryCalls: seq<ExternalCall> := [DescribeInstances, DescribeDbInstances, ListBuckets, ListFunctions]

  /** The report the handler formats from the replies. */
  function ReportFor(replies: Replies, days: int): Result<Report, FormatError>
  {
    ReportOf(replies.costData, CensusOf(replies.inventory), days)
  }

  /** Every step succeeds up to the publish call. */
  predicate ReachesPublish(env: Environment, today: int, replies: Replies)
    requires ValidDate(today)
  {
    DaysToCheck(env).Some? && IsConfigured(env.topicArn) &&
    CostQueryFor(today, DaysToCheck(env).value).Ok? && ReportFor(replies, DaysToCheck(env).value).Ok?
  }

  /** Lines 183-223. */
  method LambdaHandler(env: Environment, today: int, replies: Replies) returns (outcome: Outcome, calls: seq<ExternalCall>)
    requires ValidDate(today)
    // The days are read first: a bad setting raises even when the topic is missing.
    ensures DaysToCheck(env).None? ==> outcome == Raised(InvalidDaysToCheck) && calls == []
    // Without a topic nothing is queried or published.
    ensures DaysToCheck(env).Some? && !IsConfigured(env.topicArn) ==> outcome == Returned(NotConfigured) && calls == []
    ensures DaysToCheck(env).Some? && IsConfigured(env.topicArn) ==>
      var days := DaysToCheck(env).value;
      match CostQueryFor(today, days)
      case Err(_) => outcome == Raised(DateOutOfRange) && calls == []
      case Ok(request) =>
        |calls| >= 5 && calls[..5] == [GetCostAndUsage(request)] + InventoryCalls &&
        match ReportFor(replies, days)
        case Err(_) => outcome == Raised(AverageOverZeroDays) && |calls| == 5
        case Ok(report) =>
          calls == [GetCostAndUsage(request)] + InventoryCalls + [PublishReport(env.topicArn.value, report)] &&
          outcome == Returned(if replies.published then ReportSent else ReportNotSent)
    // Success is reported exactly when the report was formatted and published.
    ensures outcome == Returned(ReportSent) <==> ReachesPublish(env, today, replies) && replies.published
  {
    calls := [];
    var days := DaysToCheck(env);
    if days.None? {
      return Raised(InvalidDaysToCheck), calls;
    }
    if !IsConfigured(env.topicArn) {
      return Returned(NotConfigured), calls;
    }
    var request := CostQueryFor(today, days.value);
    if request.Err? {
      return Raised(DateOutOfRange), calls;
    }
    calls := calls + [GetCostAndUsage(request.value)];
    var costData := replies.costData;
    calls := calls + InventoryCalls;
    var resources := GetResourceCounts(replies.inventory);
    var report := FormatCostMessage(costData, resources, days.value);
    if report.Err? {
      return Raised(AverageOverZeroDays), calls;
    }
    calls := calls + [PublishReport(env.topicArn.value, report.value)];
    if replies.published {
      outcome := Returned(ReportSent);
    } else {
      outcome := Returned(ReportNotSent);
    }
  }

  /** When the cost query fails, the failure notice is still published. */
  lemma CostFailureStillPublished(env: Environment, today: int, replies: Replies)
    requires ValidDate(today) && replies.costData.None?
    requires DaysToCheck(env).Some? && IsConfigured(env.topicArn) && CostQueryFor(today, DaysToCheck(env).value).Ok?
    ensures ReachesPublish(env, today, replies)
    ensures ReportFor(replies, DaysToCheck(env).value) == Ok(CostFailureNotice)
  {
  }

  /** With cost data, a setting of 0 days always raises before publishing. */
  lemma ZeroDaysNeverPublished(env: Environment, today: int, replies: Replies)
    requires ValidDate(today) && replies.costData.Some? && DaysToCheck(env) == Some(0)
    ensures !ReachesPublish(env, today, replies)
  {
  }
}

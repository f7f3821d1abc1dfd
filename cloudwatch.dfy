/** An in-memory model of the CloudWatch API the alarm handler calls: describeAlarms (paginated),
    deleteAlarms (batch) and putMetricAlarm. Remote failures are injected through the backend's
    constant oracles, fixed when the backend is built. */
module CloudWatchModel {
  import opened Outcomes

  datatype Dimension = Dimension(name: string, value: string)

  /** An alarm as the backend stores and lists it: the fields of a putMetricAlarm request. */
  datatype MetricAlarm = MetricAlarm(
    alarmName: string,
    alarmDescription: string,
    metricName: string,
    namespace: string,
    statistic: string,
    period: int,
    threshold: int,
    comparisonOperator: string,
    evaluationPeriods: int,
    dimensions: seq<Dimension>,
    alarmActions: seq<string>)

  /** One describeAlarms response: `MetricAlarms` and `NextToken` may each be absent. */
  datatype Page = Page(metricAlarms: Option<seq<MetricAlarm>>, nextToken: Option<string>)

  /** What one describeAlarms call gets back: a page, or a rejected promise. */
  datatype DescribeReply = Answered(page: Page) | Failed

  /** One remote call, as the backend records it. The page index of a describe call stands for the
      continuation token it carries: the first call of a listing is page 0, the call made with
      page k's NextToken is page k + 1. */
  datatype Call =
    | Describe(prefix: string, pageIndex: nat)
    | Delete(names: seq<string>)
    | Put(alarm: MetricAlarm)

  /** The reply to the call for page `pageIndex` of a chain; past the end, the call fails. */
  function ReplyAt(chain: seq<DescribeReply>, pageIndex: nat): (r: DescribeReply)
    ensures r.Answered? ==> pageIndex < |chain| && r == chain[pageIndex]
  {
    if pageIndex < |chain| then chain[pageIndex] else Failed
  }

  class CloudWatch {
    /** The alarms the backend currently holds, keyed by alarm name. */
    var alarms: map<string, MetricAlarm>
    /** Every remote call made so far, in order. */
    ghost var calls: seq<Call>
    /** For each AlarmNamePrefix, the chain of replies describeAlarms gives for it. The chain does
        not follow deletes and puts made meanwhile: the backend is eventually consistent. */
    const listings: string -> seq<DescribeReply>
    /** Whether the backend accepts a deleteAlarms call for these names. */
    const acceptsDelete: seq<string> -> bool
    /** Whether the backend accepts a putMetricAlarm call with this request. */
    const acceptsPut: MetricAlarm -> bool

    constructor (initial: map<string, MetricAlarm>, listings: string -> seq<DescribeReply>,
                 acceptsDelete: seq<string> -> bool, acceptsPut: MetricAlarm -> bool)
      ensures alarms == initial && calls == []
      ensures this.listings == listings && this.acceptsDelete == acceptsDelete && this.acceptsPut == acceptsPut
    {
      alarms := initial;
      calls := [];
      this.listings := listings;
      this.acceptsDelete := acceptsDelete;
      this.acceptsPut := acceptsPut;
    }

    /** describeAlarms({AlarmNamePrefix: prefix, NextToken}): reads one page, changes no alarm. */
    method DescribeAlarms(prefix: string, pageIndex: nat) returns (r: DescribeReply)
      modifies this
      ensures r == ReplyAt(listings(prefix), pageIndex)
      ensures alarms == old(alarms)
      ensures calls == old(calls) + [Describe(prefix, pageIndex)]
    {
      r := ReplyAt(listings(prefix), pageIndex);
      calls := calls + [Describe(prefix, pageIndex)];
    }

    /** deleteAlarms({AlarmNames: names}): when accepted, removes exactly the named alarms (a name
        the backend does not hold is ignored); when rejected, removes nothing. */
    method DeleteAlarms(names: seq<string>) returns (ok: bool)
      modifies this
      ensures ok == acceptsDelete(names)
      ensures alarms == if ok then old(alarms) - (set n | n in names) else old(alarms)
      ensures calls == old(calls) + [Delete(names)]
    {
      ok := acceptsDelete(names);
      if ok {
        alarms := alarms - (set n | n in names);
      }
      calls := calls + [Delete(names)];
    }

    /** putMetricAlarm(alarm): when accepted, creates the alarm or overwrites the one of the same
        name and leaves every other alarm as it was; when rejected, changes nothing. */
    method PutMetricAlarm(alarm: MetricAlarm) returns (ok: bool)
      modifies this
      ensures ok == acceptsPut(alarm)
      ensures alarms == if ok then old(alarms)[alarm.alarmName := alarm] else old(alarms)
      ensures calls == old(calls) + [Put(alarm)]
    {
      ok := acceptsPut(alarm);
      if ok {
        alarms := alarms[alarm.alarmName := alarm];
      }
      calls := calls + [Put(alarm)];
    }
  }
}

/** The alarm swap engine: deleteExistingAlarms removes the stale alarms of one metric type and
    createMetricAlarm puts the alarm of the current deployment. Each method is proved against a
    pure function (Cleanup, Create) giving the backend state and the remote calls it produces;
    Swap composes the two as the handler runs them. */
module AlarmSwap {
  import opened Outcomes
  import opened AlarmConfigs
  import opened CloudWatchModel
  import opened AlarmListing

  /** The single alarm action of every created alarm (the alerting topic). */
  const AlarmAction := "arn:aws:sns:ap-northeast-1:034362035978:anomaly_detection"

  /** The name of a type's alarm for one deployment. */
  function AlarmName(config: AlarmConfig, deploymentId: string): string {
    config.prefix + "-" + deploymentId
  }

  /** The request fields an alarm takes over from its template unchanged. */
  predicate CopiesTemplate(a: MetricAlarm, config: AlarmConfig) {
    a.alarmDescription == config.description
    && a.metricName == config.metricName
    && a.namespace == config.namespace
    && a.statistic == config.statistic
    && a.period == config.period
    && a.threshold == config.threshold
    && a.comparisonOperator == config.comparisonOperator
    && a.evaluationPeriods == config.evaluationPeriods
  }

  /** The putMetricAlarm request createMetricAlarm builds from a template. */
  function AlarmRequest(config: AlarmConfig, deploymentId: string, autoScalingGroupName: string): (r: MetricAlarm)
    ensures r.alarmName == config.prefix + "-" + deploymentId
    ensures CopiesTemplate(r, config)
    ensures r.dimensions == [Dimension(AsgDimension, autoScalingGroupName)]
    ensures r.alarmActions == [AlarmAction]
  {
    MetricAlarm(
      AlarmName(config, deploymentId), config.description, config.metricName, config.namespace,
      config.statistic, config.period, config.threshold, config.comparisonOperator,
      config.evaluationPeriods, [Dimension(AsgDimension, autoScalingGroupName)], [AlarmAction])
  }

  /** What a step does to the backend: the alarms it leaves and the remote calls it makes. */
  datatype Effect = Effect(alarms: map<string, MetricAlarm>, calls: seq<Call>)

  /** A step's effect and the error it raises, if any. */
  datatype Run = Run(failure: Option<Error>, effect: Effect)

  /** The stale names deleteExistingAlarms finds under `prefix`, or None when the listing fails. */
  function StaleUnder(cw: CloudWatch, prefix: string): Option<seq<string>> {
    match Collect(cw.listings(prefix), 0, [])
    case Ok(all) => Some(StaleNames(all, prefix))
    case Err(_) => None
  }

  /** The cleanup of deleteExistingAlarms for a known type with cleanup prefix `prefix`: list,
      filter, and delete the stale names unless there are none. A failed listing or a rejected
      delete leaves the alarms as they were and raises nothing. */
  function Cleanup(cw: CloudWatch, prefix: string, alarms: map<string, MetricAlarm>): Effect {
    var listing := ListingCalls(prefix, cw.listings(prefix), 0);
    match StaleUnder(cw, prefix)
    case None => Effect(alarms, listing)
    case Some(stale) =>
      if |stale| == 0 then Effect(alarms, listing)
      else Effect(if cw.acceptsDelete(stale) then alarms - (set n | n in stale) else alarms,
                  listing + [Delete(stale)])
  }

  /** The put of createMetricAlarm for a known template; a rejected put raises RemoteCreateError. */
  function Create(cw: CloudWatch, config: AlarmConfig, deploymentId: string, autoScalingGroupName: string,
                  alarms: map<string, MetricAlarm>): Run
  {
    var request := AlarmRequest(config, deploymentId, autoScalingGroupName);
    if cw.acceptsPut(request) then Run(None, Effect(alarms[request.alarmName := request], [Put(request)]))
    else Run(Some(RemoteCreateError), Effect(alarms, [Put(request)]))
  }

  /** deleteExistingAlarms followed by createMetricAlarm for one metric type, as the handler runs
      them. An unknown type fails before any remote call. */
  function Swap(cw: CloudWatch, metricType: string, deploymentId: string, autoScalingGroupName: string,
                alarms: map<string, MetricAlarm>): Run
  {
    match Lookup(metricType)
    case None => Run(Some(UnknownMetricType(metricType)), Effect(alarms, []))
    case Some(config) =>
      var cleaned := Cleanup(cw, config.prefix + "-", alarms);
      var created := Create(cw, config, deploymentId, autoScalingGroupName, cleaned.alarms);
      Run(created.failure, Effect(created.effect.alarms, cleaned.calls + created.effect.calls))
  }

  /** deleteExistingAlarms(metricType, deploymentId). Only the unknown-type error escapes: it is
      raised before the cleanup, outside the part whose errors are swallowed. The deployment id
      plays no role. */
  method DeleteExistingAlarms(cw: CloudWatch, metricType: string, deploymentId: string) returns (r: Result<(), Error>)
    modifies cw
    ensures Lookup(metricType).None? ==>
      r == Err(UnknownMetricType(metricType)) && cw.alarms == old(cw.alarms) && cw.calls == old(cw.calls)
    ensures Lookup(metricType).Some? ==>
      var e := Cleanup(cw, Lookup(metricType).value.prefix + "-", old(cw.alarms));
      r == Ok(()) && cw.alarms == e.alarms && cw.calls == old(cw.calls) + e.calls
  {
    var config := Lookup(metricType);
    if config.None? {
      return Err(UnknownMetricType(metricType));
    }
    var prefix := config.value.prefix + "-";
    var allAlarms := GetAllAlarms(cw, prefix, 0, []);
    if allAlarms.Ok? {
      var alarmsToDelete := StaleNames(allAlarms.value, prefix);
      if |alarmsToDelete| > 0 {
        var deleted := cw.DeleteAlarms(alarmsToDelete);
      }
    }
    return Ok(());
  }

  /** createMetricAlarm(metricType, deploymentId, autoScalingGroupName). */
  method CreateMetricAlarm(cw: CloudWatch, metricType: string, deploymentId: string, autoScalingGroupName: string)
    returns (r: Result<(), Error>)
    modifies cw
    ensures Lookup(metricType).None? ==>
      r == Err(UnknownMetricType(metricType)) && cw.alarms == old(cw.alarms) && cw.calls == old(cw.calls)
    ensures Lookup(metricType).Some? ==>
      var run := Create(cw, Lookup(metricType).value, deploymentId, autoScalingGroupName, old(cw.alarms));
      cw.alarms == run.effect.alarms && cw.calls == old(cw.calls) + run.effect.calls
      && r == (if run.failure.None? then Ok(()) else Err(run.failure.value))
  {
    var config := Lookup(metricType);
    if config.None? {
      return Err(UnknownMetricType(metricType));
    }
    var params := AlarmRequest(config.value, deploymentId, autoScalingGroupName);
    var ok := cw.PutMetricAlarm(params);
    if !ok {
      return Err(RemoteCreateError);
    }
    return Ok(());
  }

  /** A call made by the cleanup under `prefix`: a describe for that prefix, or a delete of a
      non-empty batch of names that all start with it. */
  predicate CleanupCall(c: Call, prefix: string) {
    (c.Describe? && c.prefix == prefix)
    || (c.Delete? && |c.names| > 0 && forall n :: n in c.names ==> prefix <= n)
  }

  lemma {:induction false} ListingCallsUnderPrefix(prefix: string, chain: seq<DescribeReply>, pageIndex: nat)
    ensures forall c :: c in ListingCalls(prefix, chain, pageIndex) ==> c.Describe? && c.prefix == prefix
    decreases |chain| - pageIndex
  {
    match ReplyAt(chain, pageIndex)
    case Answered(p) =>
      if HasNextToken(p) {
        ListingCallsUnderPrefix(prefix, chain, pageIndex + 1);
      }
    case Failed =>
  }

  /** The cleanup only ever removes alarms: what it keeps is unchanged, and what it removes is an
      alarm whose name the listing returned with the prefix and an AutoScalingGroupName dimension.
      When the listing succeeds and the delete is accepted it removes exactly the stale names;
      when the listing fails it removes nothing. */
  lemma CleanupRemovesOnlyStale(cw: CloudWatch, prefix: string, alarms: map<string, MetricAlarm>)
    ensures var e := Cleanup(cw, prefix, alarms);
      (forall k :: k in e.alarms ==> k in alarms && e.alarms[k] == alarms[k])
      && (forall k :: k in alarms && k !in e.alarms ==>
            prefix <= k && StaleUnder(cw, prefix).Some? && k in StaleUnder(cw, prefix).value)
      && (StaleUnder(cw, prefix).None? ==> e.alarms == alarms)
      && (StaleUnder(cw, prefix).Some? && cw.acceptsDelete(StaleUnder(cw, prefix).value) ==>
            forall k :: k in alarms ==> (k in e.alarms <==> k !in StaleUnder(cw, prefix).value))
  {
    match StaleUnder(cw, prefix)
    case None =>
    case Some(stale) =>
      forall k | k in stale ensures prefix <= k {
        var all := Collect(cw.listings(prefix), 0, []).value;
        var a :| a in all && a.alarmName == k && IsStale(a, prefix);
      }
  }

  /** Every call the cleanup makes is a describe under its prefix or a non-empty delete of names
      under its prefix; the batch delete is never issued empty, and is the last call if issued. */
  lemma CleanupCallsStayUnderPrefix(cw: CloudWatch, prefix: string, alarms: map<string, MetricAlarm>)
    ensures var e := Cleanup(cw, prefix, alarms);
      (forall c :: c in e.calls ==> CleanupCall(c, prefix))
      && (forall i :: 0 <= i < |e.calls| - 1 ==> e.calls[i].Describe?)
  {
    ListingCallsUnderPrefix(prefix, cw.listings(prefix), 0);
    var listing := ListingCalls(prefix, cw.listings(prefix), 0);
    assert forall i :: 0 <= i < |listing| ==> listing[i] in listing;
    match StaleUnder(cw, prefix)
    case None =>
    case Some(stale) =>
      forall k | k in stale ensures prefix <= k {
        var all := Collect(cw.listings(prefix), 0, []).value;
        var a :| a in all && a.alarmName == k && IsStale(a, prefix);
      }
  }

  /** One swap for a known type: it fails exactly when the put of its request is rejected, and
      then only with RemoteCreateError, whatever happened during the cleanup; on success the
      store holds the request under the type's alarm name; an alarm whose name is neither that
      name nor under the cleanup prefix is left as it was; and the calls are the cleanup's,
      followed by the one put. */
  lemma SwapOutcome(cw: CloudWatch, metricType: string, deploymentId: string, asg: string, alarms: map<string, MetricAlarm>)
    requires Lookup(metricType).Some?
    ensures var config := Lookup(metricType).value;
      var request := AlarmRequest(config, deploymentId, asg);
      var run := Swap(cw, metricType, deploymentId, asg, alarms);
      (run.failure.None? <==> cw.acceptsPut(request))
      && (run.failure.Some? ==> run.failure == Some(RemoteCreateError))
      && (run.failure.None? ==> request.alarmName in run.effect.alarms && run.effect.alarms[request.alarmName] == request)
      && (forall k :: k != request.alarmName && !(config.prefix + "-" <= k) ==>
            (k in run.effect.alarms <==> k in alarms) && (k in alarms ==> run.effect.alarms[k] == alarms[k]))
      && run.effect.calls == Cleanup(cw, config.prefix + "-", alarms).calls + [Put(request)]
  {
    var config := Lookup(metricType).value;
    CleanupRemovesOnlyStale(cw, config.prefix + "-", alarms);
  }

  /** A known type's swap fails exactly when its put is rejected, and then with
      RemoteCreateError: whatever the cleanup meets never reaches the result. */
  lemma SwapFailsOnlyAtPut(cw: CloudWatch, metricType: string, deploymentId: string, asg: string,
                           alarms: map<string, MetricAlarm>)
    requires metricType in Configs
    ensures var run := Swap(cw, metricType, deploymentId, asg, alarms);
      (run.failure.None? <==> cw.acceptsPut(AlarmRequest(Configs[metricType], deploymentId, asg)))
      && (run.failure.Some? ==> run.failure == Some(RemoteCreateError))
  {
  }

  /** An unknown type fails fast: the error is UnknownMetricType, no remote call is made and no
      alarm changes. */
  lemma UnknownTypeFailsFast(cw: CloudWatch, metricType: string, deploymentId: string, asg: string, alarms: map<string, MetricAlarm>)
    requires Lookup(metricType).None?
    ensures Swap(cw, metricType, deploymentId, asg, alarms) == Run(Some(UnknownMetricType(metricType)), Effect(alarms, []))
  {
  }

  /** A second cleanup under the same prefix, on the store the first one left, changes nothing
      more: the listing and the stale names are the same, and they are already removed. */
  lemma CleanupTwice(cw: CloudWatch, prefix: string, alarms: map<string, MetricAlarm>)
    ensures var once := Cleanup(cw, prefix, alarms).alarms;
      Cleanup(cw, prefix, once).alarms == once
  {
    match StaleUnder(cw, prefix)
    case None =>
    case Some(stale) =>
      var gone := set n | n in stale;
      if |stale| > 0 && cw.acceptsDelete(stale) {
        assert (alarms - gone) - gone == alarms - gone;
      }
  }

  /** Swapping twice in succession with the same arguments, on one backend whose listing chains
      stay as they were for the first swap, leaves the store exactly as one swap leaves it, and
      when the second put is accepted the alarm name holds the request. A retry whose listing
      shows what the first swap did is `SwapRetryOnAnyBackend`. */
  lemma {:induction false} SwapTwiceIsIdempotent(cw: CloudWatch, metricType: string, deploymentId: string, asg: string,
                                                 alarms: map<string, MetricAlarm>)
    ensures var first := Swap(cw, metricType, deploymentId, asg, alarms);
      var second := Swap(cw, metricType, deploymentId, asg, first.effect.alarms);
      second.effect.alarms == first.effect.alarms
      && (Lookup(metricType).Some? && second.failure.None? ==>
            var request := AlarmRequest(Lookup(metricType).value, deploymentId, asg);
            request.alarmName in second.effect.alarms && second.effect.alarms[request.alarmName] == request)
  {
    match Lookup(metricType)
    case None =>
    case Some(config) =>
      var prefix := config.prefix + "-";
      var request := AlarmRequest(config, deploymentId, asg);
      var name := request.alarmName;
      var cleaned := Cleanup(cw, prefix, alarms).alarms;
      var first := Swap(cw, metricType, deploymentId, asg, alarms);
      SwapOutcome(cw, metricType, deploymentId, asg, first.effect.alarms);
      CleanupTwice(cw, prefix, alarms);
      if cw.acceptsPut(request) {
        // the first swap's put is the only change the second cleanup can see
        var installed := cleaned[name := request];
        assert first.effect.alarms == installed;
        assert prefix <= name;
        CleanupRemovesOnlyStale(cw, prefix, installed);
        CleanupRemovesOnlyStale(cw, prefix, cleaned);
        var again := Cleanup(cw, prefix, installed).alarms;
        assert again[name := request] == installed by {
          forall k ensures k in again[name := request] <==> k in installed {
            if k != name && k in installed {
              assert k in cleaned;
              assert k in Cleanup(cw, prefix, cleaned).alarms;
            }
          }
        }
      } else {
        assert first.effect.alarms == cleaned;
      }
  }

  /** A retry of a known type's swap on any backend, with its own listings and oracles, on the
      store the first swap left: it fails exactly when its own put is rejected; when it succeeds,
      the alarm name holds the request; and together the two swaps leave every alarm that is
      neither of that name nor under the type's prefix as it was before the first. */
  lemma SwapRetryOnAnyBackend(cw: CloudWatch, retryBackend: CloudWatch, metricType: string, deploymentId: string,
                              asg: string, alarms: map<string, MetricAlarm>)
    requires metricType in Configs
    ensures var config := Configs[metricType];
      var request := AlarmRequest(config, deploymentId, asg);
      var first := Swap(cw, metricType, deploymentId, asg, alarms);
      var retry := Swap(retryBackend, metricType, deploymentId, asg, first.effect.alarms);
      (retry.failure.None? <==> retryBackend.acceptsPut(request))
      && (retry.failure.None? ==>
            request.alarmName in retry.effect.alarms && retry.effect.alarms[request.alarmName] == request)
      && (forall k :: k != request.alarmName && !(config.prefix + "-" <= k) ==>
            (k in retry.effect.alarms <==> k in alarms) && (k in alarms ==> retry.effect.alarms[k] == alarms[k]))
  {
    var first := Swap(cw, metricType, deploymentId, asg, alarms);
    SwapOutcome(cw, metricType, deploymentId, asg, alarms);
    SwapOutcome(retryBackend, metricType, deploymentId, asg, first.effect.alarms);
  }

  /** Alarm names never collide across types, whatever the deployment ids, and within one type
      they are equal exactly when the deployment ids are. */
  lemma AlarmNamesDistinct(t1: string, d1: string, t2: string, d2: string)
    requires t1 in Configs && t2 in Configs
    ensures AlarmName(Configs[t1], d1) == AlarmName(Configs[t2], d2) <==> t1 == t2 && d1 == d2
  {
    var p1, p2 := Configs[t1].prefix, Configs[t2].prefix;
    if t1 != t2 {
      CleanupPrefixIsolated(t1, t2, d2);
      assert p1 + "-" + d1 == (p1 + "-") + d1;
      assert p1 + "-" <= p1 + "-" + d1;
    } else if AlarmName(Configs[t1], d1) == AlarmName(Configs[t2], d2) {
      assert d1 == (p1 + "-" + d1)[|p1| + 1..];
      assert d2 == (p2 + "-" + d2)[|p2| + 1..];
    }
  }

  /** A swap of one type leaves another type's current alarm for the same deployment as it
      was: that name is neither the new request's nor under the swapped type's prefix. */
  lemma SwapSparesOtherType(cw: CloudWatch, swapped: string, other: string, deploymentId: string, asg: string,
                            alarms: map<string, MetricAlarm>)
    requires swapped in Configs && other in Configs && swapped != other
    ensures var name := AlarmName(Configs[other], deploymentId);
      var after := Swap(cw, swapped, deploymentId, asg, alarms).effect.alarms;
      (name in after <==> name in alarms) && (name in alarms ==> after[name] == alarms[name])
  {
    SwapOutcome(cw, swapped, deploymentId, asg, alarms);
    CleanupPrefixIsolated(swapped, other, deploymentId);
    AlarmNamesDistinct(other, deploymentId, swapped, deploymentId);
  }
}

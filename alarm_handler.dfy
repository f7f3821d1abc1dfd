/** The deployment event orchestrator (handler): builds the Auto Scaling group name, then swaps
    the alarm of each metric type in a fixed order and collects the results. The first error
    aborts the run and is rethrown; types swapped before it stay swapped. */
module AlarmHandler {
  import opened Outcomes
  import opened AlarmConfigs
  import opened CloudWatchModel
  import opened AlarmListing
  import opened AlarmSwap

  /** The deployment notification, already unwrapped from its SNS envelope and parsed. */
  datatype DeploymentEvent = DeploymentEvent(deploymentId: string, applicationName: string, deploymentGroupName: string)

  /** One entry of the results map. */
  datatype AlarmStatus = AlarmStatus(alarmName: string, status: string)

  /** The parts of the success response the handler computes. */
  datatype HandlerResult = HandlerResult(autoScalingGroupName: string, alarms: map<string, AlarmStatus>)

  /** The metric types the handler processes, in order. */
  const MetricTypes := ["CPU", "StatusCheck", "Memory"]

  /** The name CodeDeploy gives the Auto Scaling group of a deployment. */
  function AutoScalingGroupName(deploymentGroupName: string, deploymentId: string): (name: string)
    ensures |name| == |"CodeDeploy_"| + |deploymentGroupName| + 1 + |deploymentId|
    ensures "CodeDeploy_" <= name
    ensures name[11..11 + |deploymentGroupName|] == deploymentGroupName
    ensures name[11 + |deploymentGroupName|] == '_'
    ensures name[|name| - |deploymentId|..] == deploymentId
  {
    "CodeDeploy_" + deploymentGroupName + "_" + deploymentId
  }

  /** The swaps of the types in `types`, in order, each starting from the alarms the previous one
      left, up to and including the first that fails. */
  function SwapAll(cw: CloudWatch, types: seq<string>, deploymentId: string, asg: string,
                   alarms: map<string, MetricAlarm>): Run
    decreases |types|
  {
    if types == [] then Run(None, Effect(alarms, []))
    else
      var before := SwapAll(cw, types[..|types| - 1], deploymentId, asg, alarms);
      if before.failure.Some? then before
      else
        var last := Swap(cw, types[|types| - 1], deploymentId, asg, before.effect.alarms);
        Run(last.failure, Effect(last.effect.alarms, before.effect.calls + last.effect.calls))
  }

  /** The results map after the types in `types` have all been swapped. */
  function Results(types: seq<string>, deploymentId: string): map<string, AlarmStatus> {
    map t | t in types && t in Configs :: AlarmStatus(AlarmName(Configs[t], deploymentId), "created")
  }

  /** Once a prefix of the types fails, the run is over: the later types make no call and change
      nothing. */
  lemma {:induction false} FailureIsFinal(cw: CloudWatch, types: seq<string>, n: nat, deploymentId: string, asg: string,
                                          alarms: map<string, MetricAlarm>)
    requires n <= |types|
    requires SwapAll(cw, types[..n], deploymentId, asg, alarms).failure.Some?
    ensures SwapAll(cw, types, deploymentId, asg, alarms) == SwapAll(cw, types[..n], deploymentId, asg, alarms)
    decreases |types|
  {
    if n < |types| {
      var init := types[..|types| - 1];
      assert init[..n] == types[..n];
      FailureIsFinal(cw, init, n, deploymentId, asg, alarms);
    } else {
      assert types[..n] == types;
    }
  }

  /** One more type: the run over `types[..i + 1]` is the run over `types[..i]`, followed by the
      swap of `types[i]` when the former has not failed. */
  lemma SwapAllStep(cw: CloudWatch, types: seq<string>, i: nat, deploymentId: string, asg: string,
                    alarms: map<string, MetricAlarm>)
    requires i < |types|
    ensures var before := SwapAll(cw, types[..i], deploymentId, asg, alarms);
      var last := Swap(cw, types[i], deploymentId, asg, before.effect.alarms);
      before.failure.None? ==>
        SwapAll(cw, types[..i + 1], deploymentId, asg, alarms)
        == Run(last.failure, Effect(last.effect.alarms, before.effect.calls + last.effect.calls))
  {
    assert types[..i + 1][..i] == types[..i];
  }

  /** Regrouping an appended call log; stated apart so that the loop of SwapEach stays cheap. */
  lemma AppendRegroups(a: seq<Call>, b: seq<Call>, c: seq<Call>, d: seq<Call>)
    ensures a + b + c + d == a + (b + (c + d))
  {
  }

  /** Recording one more known type adds its entry to the results map. */
  lemma ResultsStep(types: seq<string>, i: nat, deploymentId: string)
    requires i < |types| && types[i] in Configs
    ensures Results(types[..i + 1], deploymentId)
      == Results(types[..i], deploymentId)[types[i] := AlarmStatus(AlarmName(Configs[types[i]], deploymentId), "created")]
  {
    assert types[..i + 1] == types[..i] + [types[i]];
  }

  /** The loop of handler over the metric types: for each type in order, delete the stale alarms,
      then create the new one and record it; the first error is rethrown. */
  method SwapEach(cw: CloudWatch, metricTypes: seq<string>, deploymentId: string, autoScalingGroupName: string)
    returns (r: Result<map<string, AlarmStatus>, Error>)
    modifies cw
    ensures var run := SwapAll(cw, metricTypes, deploymentId, autoScalingGroupName, old(cw.alarms));
      cw.alarms == run.effect.alarms && cw.calls == old(cw.calls) + run.effect.calls
      && r == if run.failure.None? then Ok(Results(metricTypes, deploymentId)) else Err(run.failure.value)
  {
    var results: map<string, AlarmStatus> := map[];
    var i := 0;
    while i < |metricTypes|
      invariant 0 <= i <= |metricTypes|
      invariant SwapAll(cw, metricTypes[..i], deploymentId, autoScalingGroupName, old(cw.alarms)).failure.None?
      invariant cw.alarms == SwapAll(cw, metricTypes[..i], deploymentId, autoScalingGroupName, old(cw.alarms)).effect.alarms
      invariant cw.calls == old(cw.calls) + SwapAll(cw, metricTypes[..i], deploymentId, autoScalingGroupName, old(cw.alarms)).effect.calls
      invariant results == Results(metricTypes[..i], deploymentId)
    {
      var metricType := metricTypes[i];
      ghost var before := SwapAll(cw, metricTypes[..i], deploymentId, autoScalingGroupName, old(cw.alarms));
      ghost var step := Swap(cw, metricType, deploymentId, autoScalingGroupName, before.effect.alarms);
      SwapAllStep(cw, metricTypes, i, deploymentId, autoScalingGroupName, old(cw.alarms));
      var deleted := DeleteExistingAlarms(cw, metricType, deploymentId);
      if deleted.Err? {
        FailureIsFinal(cw, metricTypes, i + 1, deploymentId, autoScalingGroupName, old(cw.alarms));
        return Err(deleted.error);
      }
      ghost var cleaned := Cleanup(cw, Lookup(metricType).value.prefix + "-", before.effect.alarms);
      ghost var midCalls := cw.calls;
      assert midCalls == old(cw.calls) + before.effect.calls + cleaned.calls;
      var created := CreateMetricAlarm(cw, metricType, deploymentId, autoScalingGroupName);
      ghost var put := [Put(AlarmRequest(Lookup(metricType).value, deploymentId, autoScalingGroupName))];
      AppendRegroups(old(cw.calls), before.effect.calls, cleaned.calls, put);
      if created.Err? {
        FailureIsFinal(cw, metricTypes, i + 1, deploymentId, autoScalingGroupName, old(cw.alarms));
        return Err(created.error);
      }
      ResultsStep(metricTypes, i, deploymentId);
      results := results[metricType := AlarmStatus(AlarmName(Configs[metricType], deploymentId), "created")];
      i := i + 1;
    }
    assert metricTypes[..i] == metricTypes;
    return Ok(results);
  }

  /** handler(event), given the parsed notification. */
  method Handler(cw: CloudWatch, event: DeploymentEvent) returns (r: Result<HandlerResult, Error>)
    modifies cw
    ensures var asg := AutoScalingGroupName(event.deploymentGroupName, event.deploymentId);
      var run := SwapAll(cw, MetricTypes, event.deploymentId, asg, old(cw.alarms));
      cw.alarms == run.effect.alarms && cw.calls == old(cw.calls) + run.effect.calls
      && r == if run.failure.None? then Ok(HandlerResult(asg, Results(MetricTypes, event.deploymentId)))
              else Err(run.failure.value)
  {
    var deploymentId := event.deploymentId;
    var autoScalingGroupName := AutoScalingGroupName(event.deploymentGroupName, deploymentId);
    var results := SwapEach(cw, MetricTypes, deploymentId, autoScalingGroupName);
    if results.Err? {
      return Err(results.error);
    }
    return Ok(HandlerResult(autoScalingGroupName, results.value));
  }

  /** The types are all in the registry and no type occurs twice. */
  predicate KnownAndDistinct(types: seq<string>) {
    (forall i :: 0 <= i < |types| ==> types[i] in Configs)
    && (forall i, j :: 0 <= i < j < |types| ==> types[i] != types[j])
  }

  /** The puts among a sequence of calls, in order. */
  function PutsOf(calls: seq<Call>): seq<MetricAlarm> {
    if calls == [] then [] else (if calls[0].Put? then [calls[0].alarm] else []) + PutsOf(calls[1..])
  }

  /** The requests of the types, in order. */
  function Requests(types: seq<string>, deploymentId: string, asg: string): seq<MetricAlarm>
    requires forall i :: 0 <= i < |types| ==> types[i] in Configs
  {
    if types == [] then []
    else Requests(types[..|types| - 1], deploymentId, asg) + [AlarmRequest(Configs[types[|types| - 1]], deploymentId, asg)]
  }

  lemma {:induction false} PutsOfAppend(a: seq<Call>, b: seq<Call>)
    ensures PutsOf(a + b) == PutsOf(a) + PutsOf(b)
  {
    if a == [] {
      assert a + b == b;
    } else {
      assert (a + b)[0] == a[0];
      assert (a + b)[1..] == a[1..] + b;
      PutsOfAppend(a[1..], b);
    }
  }

  lemma {:induction false} NoPutsIn(calls: seq<Call>)
    requires forall i :: 0 <= i < |calls| ==> !calls[i].Put?
    ensures PutsOf(calls) == []
  {
    if calls != [] {
      NoPutsIn(calls[1..]);
    }
  }

  /** Over known types, the run succeeds exactly when every type's put is accepted, and a failed
      run fails with RemoteCreateError: cleanup errors never surface. */
  lemma {:induction false} SwapAllSucceedsIffEveryPutAccepted(cw: CloudWatch, types: seq<string>, deploymentId: string, asg: string,
                                                              alarms: map<string, MetricAlarm>)
    requires forall i :: 0 <= i < |types| ==> types[i] in Configs
    ensures var run := SwapAll(cw, types, deploymentId, asg, alarms);
      (run.failure.None? <==> forall i :: 0 <= i < |types| ==> cw.acceptsPut(AlarmRequest(Configs[types[i]], deploymentId, asg)))
      && (run.failure.Some? ==> run.failure == Some(RemoteCreateError))
    decreases |types|
  {
    if types != [] {
      var n := |types| - 1;
      var init := types[..n];
      SwapAllSucceedsIffEveryPutAccepted(cw, init, deploymentId, asg, alarms);
      var before := SwapAll(cw, init, deploymentId, asg, alarms);
      SwapFailsOnlyAtPut(cw, types[n], deploymentId, asg, before.effect.alarms);
      assert forall i :: 0 <= i < n ==> init[i] == types[i];
    }
  }

  /** When the run over known, distinct types succeeds, every type's alarm name holds that
      type's request: a later type's cleanup never removes an earlier type's new alarm. */
  lemma {:induction false} SwapAllInstallsEach(cw: CloudWatch, types: seq<string>, deploymentId: string, asg: string,
                                               alarms: map<string, MetricAlarm>)
    requires KnownAndDistinct(types)
    ensures var run := SwapAll(cw, types, deploymentId, asg, alarms);
      run.failure.None? ==>
        forall i :: 0 <= i < |types| ==>
          var request := AlarmRequest(Configs[types[i]], deploymentId, asg);
          request.alarmName in run.effect.alarms && run.effect.alarms[request.alarmName] == request
    decreases |types|
  {
    var run := SwapAll(cw, types, deploymentId, asg, alarms);
    if types != [] && run.failure.None? {
      var n := |types| - 1;
      var init := types[..n];
      assert KnownAndDistinct(init);
      SwapAllInstallsEach(cw, init, deploymentId, asg, alarms);
      var before := SwapAll(cw, init, deploymentId, asg, alarms);
      assert before.failure.None?;
      var last := Swap(cw, types[n], deploymentId, asg, before.effect.alarms);
      assert run.effect.alarms == last.effect.alarms;
      SwapOutcome(cw, types[n], deploymentId, asg, before.effect.alarms);
      forall i | 0 <= i < n
        ensures var request := AlarmRequest(Configs[types[i]], deploymentId, asg);
          request.alarmName in run.effect.alarms && run.effect.alarms[request.alarmName] == request
      {
        assert init[i] == types[i];
        SwapSparesOtherType(cw, types[n], types[i], deploymentId, asg, before.effect.alarms);
      }
    }
  }

  /** At the first rejected put, at index `i`, the run stops: it is the run over `types[..i + 1]`,
      so no later type makes a call; it fails with RemoteCreateError; and every earlier type's
      new alarm stays in place. */
  lemma FirstFailureKeepsEarlierSwaps(cw: CloudWatch, types: seq<string>, i: nat, deploymentId: string, asg: string,
                                      alarms: map<string, MetricAlarm>)
    requires KnownAndDistinct(types)
    requires i < |types|
    requires forall j :: 0 <= j < i ==> cw.acceptsPut(AlarmRequest(Configs[types[j]], deploymentId, asg))
    requires !cw.acceptsPut(AlarmRequest(Configs[types[i]], deploymentId, asg))
    ensures var run := SwapAll(cw, types, deploymentId, asg, alarms);
      run == SwapAll(cw, types[..i + 1], deploymentId, asg, alarms)
      && run.failure == Some(RemoteCreateError)
      && forall j :: 0 <= j < i ==>
           var request := AlarmRequest(Configs[types[j]], deploymentId, asg);
           request.alarmName in run.effect.alarms && run.effect.alarms[request.alarmName] == request
  {
    var prefix := types[..i];
    assert forall j :: 0 <= j < i ==> prefix[j] == types[j];
    assert KnownAndDistinct(prefix);
    SwapAllSucceedsIffEveryPutAccepted(cw, prefix, deploymentId, asg, alarms);
    SwapAllInstallsEach(cw, prefix, deploymentId, asg, alarms);
    var before := SwapAll(cw, prefix, deploymentId, asg, alarms);
    SwapAllStep(cw, types, i, deploymentId, asg, alarms);
    SwapFailsOnlyAtPut(cw, types[i], deploymentId, asg, before.effect.alarms);
    FailureIsFinal(cw, types, i + 1, deploymentId, asg, alarms);
    var run := SwapAll(cw, types[..i + 1], deploymentId, asg, alarms);
    forall j | 0 <= j < i
      ensures var request := AlarmRequest(Configs[types[j]], deploymentId, asg);
        request.alarmName in run.effect.alarms && run.effect.alarms[request.alarmName] == request
    {
      SwapSparesOtherType(cw, types[i], types[j], deploymentId, asg, before.effect.alarms);
    }
  }

  /** A known type's swap puts exactly its one request. */
  lemma SwapPutsItsRequest(cw: CloudWatch, metricType: string, deploymentId: string, asg: string,
                           alarms: map<string, MetricAlarm>)
    requires metricType in Configs
    ensures PutsOf(Swap(cw, metricType, deploymentId, asg, alarms).effect.calls)
      == [AlarmRequest(Configs[metricType], deploymentId, asg)]
  {
    var config := Configs[metricType];
    SwapOutcome(cw, metricType, deploymentId, asg, alarms);
    var cleanup := Cleanup(cw, config.prefix + "-", alarms).calls;
    CleanupCallsStayUnderPrefix(cw, config.prefix + "-", alarms);
    assert forall k :: 0 <= k < |cleanup| ==> cleanup[k] in cleanup;
    NoPutsIn(cleanup);
    var request := AlarmRequest(config, deploymentId, asg);
    PutsOfAppend(cleanup, [Put(request)]);
    assert PutsOf([Put(request)]) == [request];
  }

  /** When no type before the last has failed, the run puts exactly one request per type, in the
      order of the types: each type's create comes after the previous type's. */
  lemma {:induction false} SwapAllPutsInOrder(cw: CloudWatch, types: seq<string>, deploymentId: string, asg: string,
                                              alarms: map<string, MetricAlarm>)
    requires forall i :: 0 <= i < |types| ==> types[i] in Configs
    requires forall i :: 0 <= i < |types| - 1 ==> cw.acceptsPut(AlarmRequest(Configs[types[i]], deploymentId, asg))
    ensures PutsOf(SwapAll(cw, types, deploymentId, asg, alarms).effect.calls) == Requests(types, deploymentId, asg)
    decreases |types|
  {
    if types != [] {
      var n := |types| - 1;
      var init := types[..n];
      assert forall i :: 0 <= i < n ==> init[i] == types[i];
      SwapAllPutsInOrder(cw, init, deploymentId, asg, alarms);
      SwapAllSucceedsIffEveryPutAccepted(cw, init, deploymentId, asg, alarms);
      var before := SwapAll(cw, init, deploymentId, asg, alarms);
      assert before.failure.None?;
      var last := Swap(cw, types[n], deploymentId, asg, before.effect.alarms);
      assert SwapAll(cw, types, deploymentId, asg, alarms).effect.calls == before.effect.calls + last.effect.calls;
      SwapPutsItsRequest(cw, types[n], deploymentId, asg, before.effect.alarms);
      PutsOfAppend(before.effect.calls, last.effect.calls);
    }
  }

  /** No run ever issues a batch delete with an empty list of names. */
  lemma {:induction false} SwapAllNeverDeletesEmpty(cw: CloudWatch, types: seq<string>, deploymentId: string, asg: string,
                                                    alarms: map<string, MetricAlarm>)
    ensures forall c :: c in SwapAll(cw, types, deploymentId, asg, alarms).effect.calls && c.Delete? ==> |c.names| > 0
    decreases |types|
  {
    if types != [] {
      var n := |types| - 1;
      SwapAllNeverDeletesEmpty(cw, types[..n], deploymentId, asg, alarms);
      var before := SwapAll(cw, types[..n], deploymentId, asg, alarms);
      match Lookup(types[n])
      case None =>
      case Some(config) =>
        CleanupCallsStayUnderPrefix(cw, config.prefix + "-", before.effect.alarms);
    }
  }

  lemma MetricTypesKnownAndDistinct()
    ensures KnownAndDistinct(MetricTypes)
  {
  }

  /** On success the handler's results map holds exactly CPU, StatusCheck and Memory, each with
      its alarm name `prefix-deploymentId` and status "created". */
  lemma MetricTypesResults(deploymentId: string)
    ensures Results(MetricTypes, deploymentId)
      == map["CPU" := AlarmStatus(Cpu.prefix + "-" + deploymentId, "created"),
             "StatusCheck" := AlarmStatus(StatusCheck.prefix + "-" + deploymentId, "created"),
             "Memory" := AlarmStatus(Memory.prefix + "-" + deploymentId, "created")]
  {
  }

  /** The handler's run over CPU, StatusCheck and Memory succeeds exactly when all three puts are
      accepted, and then the store holds all three new alarms. */
  lemma HandlerOutcome(cw: CloudWatch, event: DeploymentEvent, alarms: map<string, MetricAlarm>)
    ensures var d := event.deploymentId;
      var asg := AutoScalingGroupName(event.deploymentGroupName, d);
      var run := SwapAll(cw, MetricTypes, d, asg, alarms);
      && (run.failure.None? <==>
            cw.acceptsPut(AlarmRequest(Cpu, d, asg)) && cw.acceptsPut(AlarmRequest(StatusCheck, d, asg))
            && cw.acceptsPut(AlarmRequest(Memory, d, asg)))
      && (run.failure.None? ==>
            forall c :: c in [Cpu, StatusCheck, Memory] ==>
              c.prefix + "-" + d in run.effect.alarms && run.effect.alarms[c.prefix + "-" + d] == AlarmRequest(c, d, asg))
  {
    var d := event.deploymentId;
    var asg := AutoScalingGroupName(event.deploymentGroupName, d);
    var types := MetricTypes;
    assert types[0] == "CPU" && types[1] == "StatusCheck" && types[2] == "Memory";
    assert Configs[types[0]] == Cpu && Configs[types[1]] == StatusCheck && Configs[types[2]] == Memory;
    MetricTypesKnownAndDistinct();
    SwapAllSucceedsIffEveryPutAccepted(cw, types, d, asg, alarms);
    SwapAllInstallsEach(cw, types, d, asg, alarms);
    var run := SwapAll(cw, types, d, asg, alarms);
    if run.failure.None? {
      forall c | c in [Cpu, StatusCheck, Memory]
        ensures c.prefix + "-" + d in run.effect.alarms && run.effect.alarms[c.prefix + "-" + d] == AlarmRequest(c, d, asg)
      {
        var i := if c == Cpu then 0 else if c == StatusCheck then 1 else 2;
        assert Configs[types[i]] == c;
      }
    }
  }
}

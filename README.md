# Alarm lifecycle manager — a Dafny model

This project models the Lambda function that re-provisions CloudWatch alarms after a CodeDeploy
deployment has finished. For each metric type (CPU, StatusCheck, Memory) the handler:

1. lists every alarm under the type's name prefix, following `NextToken` pagination;
2. keeps the alarms whose name starts with `prefix + "-"` and that carry an `AutoScalingGroupName` dimension;
3. deletes those in one batch, unless there are none;
4. puts a fresh alarm named `prefix + "-" + deploymentId`, bound to the deployment's Auto Scaling group.

Errors while listing or deleting are swallowed. An unknown type, or a rejected put, aborts the run.

Modules, one per component:

- `Outcomes` (`outcomes.dfy`): `Option`, `Result` and the handler's error taxonomy.
- `AlarmConfigs` (`alarm_configs.dfy`): the closed template registry `ALARM_CONFIGS`, with a partial `Lookup`.
- `CloudWatchModel` (`cloudwatch.dfy`): the monitoring backend, as a class `CloudWatch`.
  - It holds a `map<string, MetricAlarm>` and a ghost log of every remote call.
  - Its methods are `DescribeAlarms`, `DeleteAlarms` and `PutMetricAlarm`.
  - Failures are injected by constant oracles fixed at construction: for each name prefix, the chain of describeAlarms replies (a reply may be `Failed`); and whether a given delete batch or put request is accepted.
- `AlarmListing` (`alarm_listing.dfy`): `getAllAlarms`, as a recursive method proved against the pure fold `Collect`. Also the stale-alarm filter `StaleNames`.
- `AlarmSwap` (`alarm_swap.dfy`): `deleteExistingAlarms` and `createMetricAlarm`, as methods on the backend.
  - They are proved against the pure functions `Cleanup` and `Create`.
  - `Swap` composes the two in the order the handler runs them.
- `AlarmHandler` (`alarm_handler.dfy`): `handler`. It builds the group name `"CodeDeploy_" + deploymentGroupName + "_" + deploymentId` and runs the type loop over `["CPU", "StatusCheck", "Memory"]`.
  - The loop is `SwapEach`, with an invariant over the processed prefix of the list.
  - It is proved against `SwapAll`, the pure fold of `Swap` that stops at the first failure.

Deliberate modelling choices:

- **Page index for the token.** The k-th describeAlarms call of a listing gets entry k of the backend's chain for that prefix. The page index stands in for the opaque `NextToken`.
- **Tokens.** An absent or empty `NextToken` ends the listing, following JavaScript truthiness.
- **Past the end.** A call past the end of the chain is a failed call.
- **Failed calls change nothing.** A rejected delete or put leaves the store unchanged.
- **Listing chains are fixed per invocation.** They do not follow the deletes and puts made during the run: the backend is eventually consistent.

Behaviour of the code that the model keeps as written:

- The handler reads `deploymentId`, `applicationName` and `deploymentGroupName` without validating them.
- The handler's result carries `autoScalingGroupName` and the results map.
- The stale names are an array in listing order, and the batch delete receives them in that order.
- The stale filter tests only that an `AutoScalingGroupName` dimension is present, never its value, and the name prefix does not contain the group name. A cleanup therefore removes every alarm under the type's prefix that has that dimension: alarms of other deployments, of the same or of any other deployment group, included (`AlarmListing.StaleIgnoresDimensionValues`).

## Model

| member | source | states |
|---|---|---|
| `AlarmConfigs.Lookup` | lambda/alarmConfigs.js:2-36 | a template exists exactly for CPU, StatusCheck and Memory; every template has period 300 and evaluationPeriods 2 |
| `AlarmConfigs.TemplateConstants` | lambda/alarmConfigs.js:3-35 | CPU is CPUUtilization/AWS/EC2/Average/70/GreaterThanThreshold; StatusCheck is StatusCheckFailed/AWS/EC2/Maximum/1/GreaterThanOrEqualToThreshold; Memory is mem_used_percent/CWAgent/Average/70/GreaterThanThreshold |
| `AlarmConfigs.CleanupPrefixIsolated` | lambda/alarmConfigs.js:4-26 | the prefixes of two different types differ, and one type's `prefix + "-"` never starts another type's alarm name, whatever the deployment id |
| `CloudWatchModel.CloudWatch.constructor` | lambda/updateAlarmHandler.js:4 | a backend starts with the given alarms, failure oracles and an empty call log |
| `CloudWatchModel.CloudWatch.DescribeAlarms` | lambda/updateAlarmHandler.js:8 | one call returns the reply for its page of the prefix's chain (failure past the end), records the call and changes no alarm |
| `CloudWatchModel.CloudWatch.DeleteAlarms` | lambda/updateAlarmHandler.js:79-81 | if accepted, removes exactly the named alarms (absent names are ignored); if rejected, removes nothing; the call is recorded |
| `CloudWatchModel.CloudWatch.PutMetricAlarm` | lambda/updateAlarmHandler.js:49 | if accepted, stores the alarm under its name, overwriting any alarm of that name and leaving all others; if rejected, changes nothing |
| `AlarmListing.GetAllAlarms` | lambda/updateAlarmHandler.js:7-22 | the recursive listing returns `Collect` of the prefix's chain, makes exactly the `ListingCalls` describe calls and changes no alarm |
| `AlarmListing.NextPage` | lambda/updateAlarmHandler.js:10-18 | a page with a next token makes the listing's result that of the next page, after this page's alarms, and its calls this page's describe followed by the next page's calls |
| `AlarmListing.ListingConcatenatesPages` | lambda/updateAlarmHandler.js:10-21 | a chain that ends at page k yields the accumulator followed by every page's alarms up to k, in arrival order; a page without alarms adds nothing |
| `AlarmListing.ListingStopsAtLastPage` | lambda/updateAlarmHandler.js:14-21 | a chain that ends at page k is read with exactly k + 1 calls, for pages 0..k in order; no page after k is requested |
| `AlarmListing.ListingSucceedsIffChainEnds` | lambda/updateAlarmHandler.js:7-22 | the listing succeeds iff some page without a next token is reached, every call up to it being answered; otherwise it fails with RemoteListError |
| `AlarmListing.StaleNames` | lambda/updateAlarmHandler.js:69-76 | a name is stale iff a listed alarm has that name, the name starts with the prefix, and the alarm has an AutoScalingGroupName dimension; no more names than listed alarms |
| `AlarmListing.AsgDimensionIsKey` | lambda/updateAlarmHandler.js:72-74 | the dimension test asks only whether AutoScalingGroupName is among the alarm's dimension keys |
| `AlarmListing.StaleIgnoresDimensionValues` | lambda/updateAlarmHandler.js:69-76 | two listings with the same names and dimension keys give the same stale names: dimension values play no role |
| `AlarmSwap.AlarmRequest` | lambda/updateAlarmHandler.js:32-47 | the request is named `prefix + "-" + deploymentId`, copies every other template field unchanged, has the one dimension (AutoScalingGroupName, group name) and the one fixed alarm action |
| `AlarmSwap.DeleteExistingAlarms` | lambda/updateAlarmHandler.js:53-87 | unknown type: UnknownMetricType, no call, no change; known type: returns normally and has exactly the effect `Cleanup` gives, whatever the listing or delete do |
| `AlarmSwap.CreateMetricAlarm` | lambda/updateAlarmHandler.js:25-50 | unknown type: UnknownMetricType, no call, no change; known type: puts `AlarmRequest` and fails with RemoteCreateError exactly when the put is rejected |
| `AlarmSwap.ListingCallsUnderPrefix` | lambda/updateAlarmHandler.js:62-67 | every call of a listing is a describe under that listing's prefix |
| `AlarmSwap.CleanupRemovesOnlyStale` | lambda/updateAlarmHandler.js:67-83 | the cleanup never changes a kept alarm and removes only stale names under its prefix; if the listing fails it removes nothing; if the delete is accepted it removes exactly the stale names |
| `AlarmSwap.CleanupCallsStayUnderPrefix` | lambda/updateAlarmHandler.js:78-83 | the cleanup's calls are describes under its prefix, plus at most one batch delete, last, never empty, of names under the prefix |
| `AlarmSwap.SwapOutcome` | lambda/updateAlarmHandler.js:25-87 | a known type's swap fails iff its put is rejected, and only with RemoteCreateError; on success the store holds the request under its name; alarms neither of that name nor under the prefix are untouched; the calls are the cleanup's followed by the put |
| `AlarmSwap.UnknownTypeFailsFast` | lambda/updateAlarmHandler.js:54-56 | an unknown type fails with UnknownMetricType before any remote call and leaves the store unchanged |
| `AlarmSwap.SwapTwiceIsIdempotent` | lambda/updateAlarmHandler.js:25-87 | on one backend whose listing chains stay as they were for the first swap, swapping again with the same arguments leaves the store exactly as the first swap left it; if the second put is accepted, the store holds the request under its alarm name |
| `AlarmSwap.SwapRetryOnAnyBackend` | lambda/updateAlarmHandler.js:25-87 | a retry on any backend, with its own listings and oracles, fails iff its own put is rejected; on success the store holds the request under its alarm name; together the two swaps leave every alarm neither of that name nor under the prefix as it was before the first |
| `AlarmSwap.CleanupTwice` | lambda/updateAlarmHandler.js:67-83 | a second cleanup under the same prefix, with the same listing chain and oracles, on the store the first one left, changes no alarm |
| `AlarmSwap.SwapFailsOnlyAtPut` | lambda/updateAlarmHandler.js:49-86 | a known type's swap fails iff its put is rejected, and then with RemoteCreateError; listing and delete errors never reach the result |
| `AlarmSwap.SwapSparesOtherType` | lambda/updateAlarmHandler.js:59-83 | one type's swap leaves another type's alarm for the same deployment id as it was, whether present or absent |
| `AlarmSwap.AlarmNamesDistinct` | lambda/updateAlarmHandler.js:33 | two alarm names are equal iff they come from the same type and the same deployment id |
| `AlarmHandler.AutoScalingGroupName` | lambda/updateAlarmHandler.js:102 | the group name is "CodeDeploy_", then the deployment group name, then "_", then the deployment id |
| `AlarmHandler.FailureIsFinal` | lambda/updateAlarmHandler.js:110-122 | once the run over a prefix of the types has failed, the run over the whole list equals it: later types make no call and change nothing |
| `AlarmHandler.ResultsStep` | lambda/updateAlarmHandler.js:118-121 | recording a known type adds its (alarm name, "created") entry to the results map |
| `AlarmHandler.SwapEach` | lambda/updateAlarmHandler.js:107-122 | the loop leaves the store and call log that `SwapAll` gives, and returns the results map on success or the first error |
| `AlarmHandler.Handler` | lambda/updateAlarmHandler.js:89-137 | the handler runs `SwapAll` over CPU, StatusCheck, Memory with the composed group name; it returns the group name and results on success and rethrows the first error |
| `AlarmHandler.SwapAllSucceedsIffEveryPutAccepted` | lambda/updateAlarmHandler.js:110-122 | over known types, the run succeeds iff every type's put is accepted; a failed run fails with RemoteCreateError, so cleanup errors never surface |
| `AlarmHandler.SwapAllInstallsEach` | lambda/updateAlarmHandler.js:110-122 | after a successful run over known, distinct types, every type's alarm name holds that type's request: a later cleanup never removes an earlier new alarm |
| `AlarmHandler.FirstFailureKeepsEarlierSwaps` | lambda/updateAlarmHandler.js:110-136 | at the first rejected put, at index i, the run equals the run over types[..i+1], fails with RemoteCreateError, and keeps every earlier type's new alarm |
| `AlarmHandler.SwapPutsItsRequest` | lambda/updateAlarmHandler.js:112-115 | a known type's swap makes exactly one put, of its own request |
| `AlarmHandler.SwapAllPutsInOrder` | lambda/updateAlarmHandler.js:110-115 | when no type before the last failed, the run's puts are exactly one request per type, in list order |
| `AlarmHandler.SwapAllNeverDeletesEmpty` | lambda/updateAlarmHandler.js:78-83 | no run ever issues a batch delete with an empty list |
| `AlarmHandler.MetricTypesKnownAndDistinct` | lambda/updateAlarmHandler.js:105 | the three processed types are all in the registry and pairwise different |
| `AlarmHandler.MetricTypesResults` | lambda/updateAlarmHandler.js:118-121 | the success results map holds exactly CPU, StatusCheck and Memory, each with `prefix-deploymentId` and "created" |
| `AlarmHandler.HandlerOutcome` | lambda/updateAlarmHandler.js:102-122 | the handler's run succeeds iff the CPU, StatusCheck and Memory puts are all accepted, and then all three new alarms are stored |

## Left out

- The SNS envelope and `JSON.parse` (lambda/updateAlarmHandler.js:94-99): the handler takes an already parsed record of three strings. `applicationName` is read but unused, as in the code.
- The HTTP-style response (`statusCode`, the `message` text, `JSON.stringify`; lambda/updateAlarmHandler.js:124-131): only the group name and the results map are modelled.
- Logging (`console.log`, `console.warn`, `console.error`): it has no effect on state.
- The asynchronous Promise machinery, and races between concurrent invocations: each invocation is one sequential run.
- The AWS SDK client and its region (lambda/updateAlarmHandler.js:1, 4): replaced by the `CloudWatch` class.
- Listing request parameters: `MaxRecords: 100` (line 64) is not modelled. Page contents and sizes are whatever the backend's chain holds.
- Backend consistency: a listing chain does not reflect deletes or puts made earlier in the same invocation. The types' prefixes never overlap, so no one type's listing is affected by another type's calls.
- JavaScript property lookup: `ALARM_CONFIGS[metricType]` also finds inherited object properties such as `constructor`. The model looks up own keys only, and the handler only passes the three fixed tags.
- Numbers: thresholds, periods and evaluation periods are integers. Every template uses integral values, and the tuning of floating-point thresholds is not part of the code.
- Malformed alarm records in a listing: a missing `AlarmName` or `Dimensions` would throw inside the swallowed block. Listed alarms here always have both fields.
- SwapTwiceIsIdempotent: the store equality holds only for a retry that re-reads the first swap's listing chain, so the retry never lists the new alarm, and a failed first listing fails again (the same goes for CleanupTwice). A retry whose listing reflects the first swap lists the new alarm and any alarm the first delete left, and can delete them in a different batch: it may end with fewer alarms under the prefix than one swap leaves. For such a retry SwapRetryOnAnyBackend promises only the stored request and the alarms outside the prefix. Neither lemma states that the second swap fails exactly when the first did: with deterministic oracles that follows from the oracle on the put, not from the code.
- Backend oracles: whether a delete or put is accepted depends only on its request, so a transient put failure that a repeated identical put would overcome is not modelled. The code makes no retries. Partial success of one batch delete is not modelled.
- Unending pagination: if the backend kept returning a next token, the code would keep recursing until the invocation's deadline and never reach the create. The model's chains are finite: a call past the end of a chain fails, which the cleanup swallows before the put is attempted.
- `lib/auto_scaling-stack.ts` is not part of this model: it is infrastructure declaration and packaging I/O.

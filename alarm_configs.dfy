/** The alarm template registry (ALARM_CONFIGS): a closed, constant map from a metric type
    tag to the template every alarm of that type is created from. */
module AlarmConfigs {
  import opened Outcomes

  /** One alarm template. Thresholds are integral in every template, so they are `int` here. */
  datatype AlarmConfig = AlarmConfig(
    prefix: string,
    description: string,
    metricName: string,
    namespace: string,
    statistic: string,
    period: int,
    threshold: int,
    comparisonOperator: string,
    evaluationPeriods: int)

  const Cpu := AlarmConfig(
    "ASG-HighCPUUtilization", "Alarm when CPU exceeds 70%",
    "CPUUtilization", "AWS/EC2", "Average", 300, 70, "GreaterThanThreshold", 2)

  const StatusCheck := AlarmConfig(
    "ASG-StatusCheckFailed", "Monitor status checks for the AutoScalingGroup",
    "StatusCheckFailed", "AWS/EC2", "Maximum", 300, 1, "GreaterThanOrEqualToThreshold", 2)

  const Memory := AlarmConfig(
    "ASG-HighMemoryUtilization", "アラーム：メモリ使用率が70%を超えた場合",
    "mem_used_percent", "CWAgent", "Average", 300, 70, "GreaterThanThreshold", 2)

  const Configs: map<string, AlarmConfig> := map["CPU" := Cpu, "StatusCheck" := StatusCheck, "Memory" := Memory]

  /** The registry lookup: the template of a type tag, or None for a tag outside the closed set. */
  function Lookup(metricType: string): (r: Option<AlarmConfig>)
    ensures r.Some? <==> metricType in {"CPU", "StatusCheck", "Memory"}
    ensures r.Some? ==> r.value.period == 300 && r.value.evaluationPeriods == 2
  {
    if metricType in Configs then Some(Configs[metricType]) else None
  }

  /** The metric, statistic, threshold and comparison of each template. */
  lemma TemplateConstants()
    ensures Lookup("CPU").Some? && Lookup("StatusCheck").Some? && Lookup("Memory").Some?
    ensures var c := Lookup("CPU").value;
      c.metricName == "CPUUtilization" && c.namespace == "AWS/EC2" && c.statistic == "Average"
      && c.threshold == 70 && c.comparisonOperator == "GreaterThanThreshold"
    ensures var c := Lookup("StatusCheck").value;
      c.metricName == "StatusCheckFailed" && c.namespace == "AWS/EC2" && c.statistic == "Maximum"
      && c.threshold == 1 && c.comparisonOperator == "GreaterThanOrEqualToThreshold"
    ensures var c := Lookup("Memory").value;
      c.metricName == "mem_used_percent" && c.namespace == "CWAgent" && c.statistic == "Average"
      && c.threshold == 70 && c.comparisonOperator == "GreaterThanThreshold"
  {
  }

  /** Two sequences that differ at a position both have are not prefix-related. */
  lemma DifferAt(a: string, b: string, i: nat)
    requires i < |a| && i < |b| && a[i] != b[i]
    ensures !(a <= b)
  {
  }

  /** No type's cleanup prefix `prefix + "-"` starts an alarm name of another type, whatever the
      deployment id: one type's cleanup never matches another type's alarms.
      The three prefixes share "ASG-"; StatusCheck differs from the others at position 4, and
      CPU and Memory share "ASG-High" and differ at position 8. */
  lemma {:induction false} CleanupPrefixIsolated(t1: string, t2: string, deploymentId: string)
    requires t1 in Configs && t2 in Configs && t1 != t2
    ensures !(Configs[t1].prefix + "-" <= Configs[t2].prefix + "-" + deploymentId)
    ensures Configs[t1].prefix != Configs[t2].prefix
  {
    var p := Configs[t1].prefix + "-";
    var n := Configs[t2].prefix + "-" + deploymentId;
    if t1 == "StatusCheck" || t2 == "StatusCheck" {
      DifferAt(p, n, 4);
    } else {
      DifferAt(p, n, 8);
    }
  }
}

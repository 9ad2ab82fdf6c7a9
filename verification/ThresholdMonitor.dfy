/** Consecutive-violation alerts: ThresholdMonitor of backend/architecture/scalability_monitor.py. */
module ThresholdMonitor {
  import opened Options
  import Division

  datatype MetricType = CpuUsage | MemoryUsage | DatabaseConnections | ApiResponseTime | ErrorRate | QueueDepth
                      | CacheHitRate | UserGrowth | StorageUsage

  datatype Severity = Warning | Critical | Emergency

  datatype Threshold = Threshold(warning: real, critical: real, emergency: real, consecutiveViolations: int)

  datatype Sample = Sample(metric: MetricType, value: real, source: string)

  datatype Alert = Alert(metric: MetricType, severity: Severity, value: real, threshold: real, source: string)

  type Thresholds = map<MetricType, Threshold>
  type Counts = map<string, int>

  /** Storage usage has no threshold. */
  const DEFAULTS: Thresholds := map[
    CpuUsage := Threshold(70.0, 85.0, 95.0, 3),
    MemoryUsage := Threshold(75.0, 90.0, 95.0, 3),
    DatabaseConnections := Threshold(60.0, 80.0, 95.0, 3),
    ApiResponseTime := Threshold(200.0, 500.0, 1000.0, 3),
    ErrorRate := Threshold(0.01, 0.05, 0.1, 3),
    QueueDepth := Threshold(1000.0, 5000.0, 10000.0, 3),
    CacheHitRate := Threshold(0.7, 0.5, 0.3, 3),
    UserGrowth := Threshold(0.2, 0.5, 1.0, 3)
  ]

  function MetricName(t: MetricType): string {
    match t
    case CpuUsage => "cpu_usage"
    case MemoryUsage => "memory_usage"
    case DatabaseConnections => "database_connections"
    case ApiResponseTime => "api_response_time"
    case ErrorRate => "error_rate"
    case QueueDepth => "queue_depth"
    case CacheHitRate => "cache_hit_rate"
    case UserGrowth => "user_growth"
    case StorageUsage => "storage_usage"
  }

  function ViolationKey(t: MetricType, source: string): string {
    MetricName(t) + "_" + source
  }

  /** Different metrics or sources never share a counter. */
  lemma ViolationKeyInjective(t: MetricType, source: string, t': MetricType, source': string)
    requires ViolationKey(t, source) == ViolationKey(t', source')
    ensures t == t' && source == source'
  {
    var key, key' := ViolationKey(t, source), ViolationKey(t', source');
    assert key[0] == MetricName(t)[0] && key[1] == MetricName(t)[1];
    assert key'[0] == MetricName(t')[0] && key'[1] == MetricName(t')[1];
    assert t == t';
    var n := |MetricName(t)| + 1;
    assert key[n..] == source && key'[n..] == source';
  }

  // ----- One sample -----

  predicate Violates(th: Threshold, value: real) {
    value >= th.emergency || value >= th.critical || value >= th.warning
  }

  function Severe(th: Threshold, value: real): (Severity, real) {
    if value >= th.emergency then (Emergency, th.emergency)
    else if value >= th.critical then (Critical, th.critical)
    else (Warning, th.warning)
  }

  function CountOf(counts: Counts, t: MetricType, source: string): int {
    if ViolationKey(t, source) in counts then counts[ViolationKey(t, source)] else 0
  }

  /** The counters after a sample, and the alert it raises. */
  function Step(ths: Thresholds, counts: Counts, s: Sample): (Counts, Option<Alert>) {
    if s.metric !in ths then (counts, None)
    else
      var th, key := ths[s.metric], ViolationKey(s.metric, s.source);
      var count := CountOf(counts, s.metric, s.source) + 1;
      if !Violates(th, s.value) then (counts[key := 0], None)
      else if count < th.consecutiveViolations then (counts[key := count], None)
      else (counts[key := 0], Some(Alert(s.metric, Severe(th, s.value).0, s.value, Severe(th, s.value).1, s.source)))
  }

  predicate Rising(th: Threshold) {
    th.warning <= th.critical <= th.emergency
  }

  /** The alert tells of this sample, and of the first threshold it reaches, in the order emergency, critical,
      warning. */
  predicate Reports(alert: Alert, th: Threshold, s: Sample) {
    && alert.metric == s.metric && alert.value == s.value && alert.source == s.source
    && match alert.severity
       case Emergency => alert.threshold == th.emergency && s.value >= th.emergency
       case Critical => alert.threshold == th.critical && s.value >= th.critical && s.value < th.emergency
       case Warning =>
         alert.threshold == th.warning && s.value >= th.warning && s.value < th.critical && s.value < th.emergency
  }

  class Monitor {
    var thresholds: Thresholds
    var violationCounts: Counts

    constructor ()
      ensures thresholds == DEFAULTS && violationCounts == map[]
    {
      thresholds, violationCounts := DEFAULTS, map[];
    }

    method CheckThresholds(s: Sample) returns (alert: Option<Alert>)
      modifies this`violationCounts
      ensures (violationCounts, alert) == Step(thresholds, old(violationCounts), s)
      ensures alert.Some? ==> s.metric in thresholds && Reports(alert.value, thresholds[s.metric], s)
      ensures s.metric in thresholds && Rising(thresholds[s.metric]) ==>
        var key, th := ViolationKey(s.metric, s.source), thresholds[s.metric];
        var count := CountOf(old(violationCounts), s.metric, s.source) + 1;
        && key in violationCounts
        && (alert.Some? <==> s.value >= th.warning && count >= th.consecutiveViolations)
        && violationCounts[key] == if s.value < th.warning || alert.Some? then 0 else count
    {
      if s.metric !in thresholds {
        return None;
      }
      var threshold := thresholds[s.metric];
      var key := ViolationKey(s.metric, s.source);
      var severity: Option<Severity> := None;
      var thresholdValue := 0.0;
      if s.value >= threshold.emergency {
        severity, thresholdValue := Some(Emergency), threshold.emergency;
      } else if s.value >= threshold.critical {
        severity, thresholdValue := Some(Critical), threshold.critical;
      } else if s.value >= threshold.warning {
        severity, thresholdValue := Some(Warning), threshold.warning;
      }
      if severity.Some? {
        violationCounts := violationCounts[key := (if key in violationCounts then violationCounts[key] else 0) + 1];
        if violationCounts[key] >= threshold.consecutiveViolations {
          violationCounts := violationCounts[key := 0];
          assert violationCounts == old(violationCounts)[key := 0];
          return Some(Alert(s.metric, severity.value, s.value, thresholdValue, s.source));
        }
      } else {
        violationCounts := violationCounts[key := 0];
      }
      return None;
    }
  }

  // ----- Sequences of samples -----

  /** Whether each sample of one metric and source violates, in order. */
  function Flags(th: Threshold, samples: seq<Sample>, t: MetricType, source: string): seq<bool>
    decreases |samples|
  {
    if samples == [] then []
    else (if samples[0].metric == t && samples[0].source == source then [Violates(th, samples[0].value)] else [])
         + Flags(th, samples[1..], t, source)
  }

  predicate Concerns(alert: Option<Alert>, t: MetricType, source: string) {
    alert.Some? && alert.value.metric == t && alert.value.source == source
  }

  /** The counters after all the samples, and how many alerts went to one metric and source. */
  function Run(ths: Thresholds, counts: Counts, samples: seq<Sample>, t: MetricType, source: string): (Counts, nat)
    decreases |samples|
  {
    if samples == [] then (counts, 0)
    else
      var (next, alert) := Step(ths, counts, samples[0]);
      var (last, n) := Run(ths, next, samples[1..], t, source);
      (last, n + if Concerns(alert, t, source) then 1 else 0)
  }

  /** The length of the run of violations at the front. */
  function LeadingRun(flags: seq<bool>): (k: nat)
    ensures k <= |flags| && (forall i :: 0 <= i < k ==> flags[i]) && (k < |flags| ==> !flags[k])
    decreases |flags|
  {
    if flags == [] || !flags[0] then 0 else 1 + LeadingRun(flags[1..])
  }

  /** The lengths of the maximal runs of violations, in order; the last one reaches the end of the samples. */
  function Runs(flags: seq<bool>): (lengths: seq<nat>)
    ensures |lengths| >= 1
    decreases |flags|
  {
    var k := LeadingRun(flags);
    if k == |flags| then [k] else [k] + Runs(flags[k + 1..])
  }

  function FullGroups(length: nat, n: int): nat
    requires n >= 1
  {
    length / n
  }

  function LeftOver(length: nat, n: int): nat
    requires n >= 1
  {
    length % n
  }

  /** One alert for each full group of consecutive violations of a run. */
  function AlertsOwed(lengths: seq<nat>, n: int): (owed: nat)
    requires n >= 1
    decreases |lengths|
  {
    if lengths == [] then 0 else FullGroups(lengths[0], n) + AlertsOwed(lengths[1..], n)
  }

  // ----- One counter alone -----

  /** One counter fed with flags: its last value and the alerts raised. */
  function Counter(count: int, flags: seq<bool>, n: int): (int, nat)
    decreases |flags|
  {
    if flags == [] then (count, 0)
    else if !flags[0] then Counter(0, flags[1..], n)
    else if count + 1 < n then Counter(count + 1, flags[1..], n)
    else var (last, alerts) := Counter(0, flags[1..], n); (last, alerts + 1)
  }

  lemma {:induction false} CounterSplits(count: int, a: seq<bool>, b: seq<bool>, n: int)
    ensures Counter(count, a + b, n) == (Counter(Counter(count, a, n).0, b, n).0,
                                         Counter(count, a, n).1 + Counter(Counter(count, a, n).0, b, n).1)
    decreases |a|
  {
    if a == [] {
      assert a + b == b;
    } else {
      assert (a + b)[0] == a[0] && (a + b)[1..] == a[1..] + b;
      CounterSplits(if a[0] && count + 1 < n then count + 1 else 0, a[1..], b, n);
    }
  }

  /** Along one run every violation is either in the counter or part of an alert. */
  lemma {:induction false} CounterAccounts(count: nat, flags: seq<bool>, n: int)
    requires 0 <= count < n && forall i :: 0 <= i < |flags| ==> flags[i]
    ensures 0 <= Counter(count, flags, n).0 < n
    ensures Counter(count, flags, n).1 * n + Counter(count, flags, n).0 == count + |flags|
    decreases |flags|
  {
    if flags != [] {
      CounterAccounts(if count + 1 < n then count + 1 else 0, flags[1..], n);
    }
  }

  lemma RunSettles(flags: seq<bool>, n: int)
    requires n >= 1 && forall i :: 0 <= i < |flags| ==> flags[i]
    ensures Counter(0, flags, n) == (LeftOver(|flags|, n), FullGroups(|flags|, n))
  {
    CounterAccounts(0, flags, n);
    Division.QuotientIsUnique(|flags|, Counter(0, flags, n).1, Counter(0, flags, n).0, n);
  }

  lemma CounterPastEnd(count: int, flags: seq<bool>, n: int)
    requires flags != [] && !flags[0]
    ensures Counter(count, flags, n) == Counter(0, flags[1..], n)
  {
  }

  lemma OwedStep(k: nat, lengths: seq<nat>, n: int)
    requires n >= 1
    ensures AlertsOwed([k] + lengths, n) == FullGroups(k, n) + AlertsOwed(lengths, n)
  {
    hide FullGroups;
    assert ([k] + lengths)[1..] == lengths;
  }

  /** A run and the sample that ends it raise the run's alerts and clear the counter. */
  lemma CounterAfterRun(flags: seq<bool>, k: nat, n: int)
    requires n >= 1 && k < |flags| && !flags[k] && forall i :: 0 <= i < k ==> flags[i]
    ensures Counter(0, flags, n) ==
      (Counter(0, flags[k + 1..], n).0, FullGroups(k, n) + Counter(0, flags[k + 1..], n).1)
  {
    hide FullGroups, LeftOver, Counter;
    RunSettles(flags[..k], n);
    assert flags == flags[..k] + flags[k..];
    CounterSplits(0, flags[..k], flags[k..], n);
    CounterPastEnd(LeftOver(k, n), flags[k..], n);
    assert flags[k..][1..] == flags[k + 1..];
  }

  lemma {:induction false} CounterOverRuns(flags: seq<bool>, n: int)
    requires n >= 1
    ensures Counter(0, flags, n) == (LeftOver(Runs(flags)[|Runs(flags)| - 1], n), AlertsOwed(Runs(flags), n))
    decreases |flags|
  {
    hide LeadingRun, FullGroups, LeftOver, AlertsOwed, Counter;
    var k := LeadingRun(flags);
    if k == |flags| {
      RunSettles(flags, n);
      OwedStep(k, [], n);
      assert [k] + [] == [k];
      NoneOwed(n);
    } else {
      CounterAfterRun(flags, k, n);
      CounterOverRuns(flags[k + 1..], n);
      OwedStep(k, Runs(flags[k + 1..]), n);
    }
  }

  lemma NoneOwed(n: int)
    requires n >= 1
    ensures AlertsOwed([], n) == 0
  {
  }

  // ----- The monitor -----

  /** A sample moves the counter of its own metric and source, and no other. */
  lemma StepIsLocal(ths: Thresholds, counts: Counts, s: Sample, t: MetricType, source: string)
    requires s.metric != t || s.source != source
    ensures CountOf(Step(ths, counts, s).0, t, source) == CountOf(counts, t, source)
    ensures !Concerns(Step(ths, counts, s).1, t, source)
  {
    if ViolationKey(s.metric, s.source) == ViolationKey(t, source) {
      ViolationKeyInjective(s.metric, s.source, t, source);
    }
  }

  /** A sample's own counter takes one step of Counter. */
  lemma StepCounts(ths: Thresholds, counts: Counts, s: Sample, rest: seq<bool>)
    requires s.metric in ths
    ensures var (next, alert) := Step(ths, counts, s);
      var th, count := ths[s.metric], CountOf(counts, s.metric, s.source);
      var (last, alerts) := Counter(CountOf(next, s.metric, s.source), rest, th.consecutiveViolations);
      Counter(count, [Violates(th, s.value)] + rest, th.consecutiveViolations) ==
      (last, alerts + if Concerns(alert, s.metric, s.source) then 1 else 0)
  {
    hide ViolationKey, Violates, Severe;
    assert ([Violates(ths[s.metric], s.value)] + rest)[1..] == rest;
  }

  lemma {:induction false} RunProjects(ths: Thresholds, counts: Counts, samples: seq<Sample>, t: MetricType,
                                       source: string)
    requires t in ths
    ensures (CountOf(Run(ths, counts, samples, t, source).0, t, source), Run(ths, counts, samples, t, source).1) ==
      Counter(CountOf(counts, t, source), Flags(ths[t], samples, t, source), ths[t].consecutiveViolations)
    decreases |samples|
  {
    hide ViolationKey, Violates, Severe, CountOf, Step;
    if samples == [] {
      assert Flags(ths[t], samples, t, source) == [];
    } else {
      var s := samples[0];
      var rest := Flags(ths[t], samples[1..], t, source);
      RunProjects(ths, Step(ths, counts, s).0, samples[1..], t, source);
      hide Counter;
      if s.metric == t && s.source == source {
        StepCounts(ths, counts, s, rest);
        assert Flags(ths[t], samples, t, source) == [Violates(ths[t], s.value)] + rest;
      } else {
        StepIsLocal(ths, counts, s, t, source);
        assert Flags(ths[t], samples, t, source) == rest;
      }
    }
  }

  lemma NothingCounted(t: MetricType, source: string)
    ensures CountOf(map[], t, source) == 0
  {
  }

  /** For every mix of samples, the alerts of one metric and source are those its own maximal runs of violations owe,
      and its counter is what the current run leaves over. */
  lemma AlertsMatchRuns(ths: Thresholds, samples: seq<Sample>, t: MetricType, source: string)
    requires t in ths && ths[t].consecutiveViolations >= 1
    ensures var runs, n := Runs(Flags(ths[t], samples, t, source)), ths[t].consecutiveViolations;
      && Run(ths, map[], samples, t, source).1 == AlertsOwed(runs, n)
      && CountOf(Run(ths, map[], samples, t, source).0, t, source) == LeftOver(runs[|runs| - 1], n)
  {
    hide *;
    RunProjects(ths, map[], samples, t, source);
    CounterOverRuns(Flags(ths[t], samples, t, source), ths[t].consecutiveViolations);
    NothingCounted(t, source);
  }

  /** With thresholds in rising order the severity is that of the highest threshold reached. */
  lemma SeverityIsTheHighestReached(th: Threshold, value: real)
    requires Rising(th) && Violates(th, value)
    ensures Severe(th, value).1 <= value
    ensures Severe(th, value).0.Warning? <==> value < th.critical
    ensures Severe(th, value).0.Emergency? <==> value >= th.emergency
  {
  }

  /** The default cache hit rate thresholds fall instead of rising: a rate violates exactly from 0.3 upwards, always as
      an emergency, so a good rate raises alerts and a bad one none. */
  lemma CacheHitRateAlertsOnGoodRates(counts: Counts, rate: real, source: string)
    ensures var th := DEFAULTS[CacheHitRate];
      && (Violates(th, rate) <==> rate >= 0.3)
      && (Violates(th, rate) ==> Severe(th, rate) == (Emergency, 0.3))
    ensures var (_, alert) := Step(DEFAULTS, counts, Sample(CacheHitRate, rate, source));
      alert.Some? <==> rate >= 0.3 && CountOf(counts, CacheHitRate, source) >= 2
  {
  }
}

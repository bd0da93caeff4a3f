/** The loops of ShowEc2List, ShowElbList, ShowEC2CloudwatchMetricsList and
    ShowELBCloudwatchMetricsList that build one Data entry per item. */
module Records {
  import opened Wrappers
  import opened Aws
  import opened Names
  import opened Lld

  const INSTANCE_IDENTITY := "InstanceId"
  const ELB_IDENTITY := "LoadBalancerName"

  /** The entry of an instance: name, type, id and private address, nothing else. */
  function InstanceEntry(instance: Instance): Data
  {
    EMPTY_DATA.(instanceName := InstanceName(instance), instanceType := instance.instanceType,
                instanceId := instance.instanceId, instancePrivateAddr := instance.privateIpAddress.GetOr(""))
  }

  function InstanceEntries(instances: seq<Instance>): seq<Data>
  {
    seq(|instances|, i requires 0 <= i < |instances| => InstanceEntry(instances[i]))
  }

  /** The entry of a load balancer: its name and DNS name, nothing else. */
  function LoadBalancerEntry(lb: LoadBalancer): Data
  {
    EMPTY_DATA.(elbName := lb.loadBalancerName, elbDnsName := lb.dnsName)
  }

  function LoadBalancerEntries(lbs: seq<LoadBalancer>): seq<Data>
  {
    seq(|lbs|, i requires 0 <= i < |lbs| => LoadBalancerEntry(lbs[i]))
  }

  /** The datapoints the tool fetches for one metric of the monitored object. */
  function Points(api: Api, identityName: string, targetId: string, metric: Metric): seq<StatPoint>
  {
    MetricStats(api, identityName, targetId, metric.metricName, metric.namespace)
  }

  /** The name a metric is listed under: its display name when `zoned`, its
      own name otherwise. */
  function ListedName(metric: Metric, zoned: bool): string
  {
    if zoned then DisplayName(metric) else metric.metricName
  }

  /** The entry of a metric: the name it is listed under, its namespace, and
      the unit of its first datapoint (empty without datapoints), nothing else. */
  function MetricEntry(api: Api, identityName: string, targetId: string, metric: Metric, zoned: bool): Data
  {
    var points := Points(api, identityName, targetId, metric);
    EMPTY_DATA.(metricName := ListedName(metric, zoned), metricNamespace := metric.namespace,
                metricUnit := if |points| > 0 then points[0].unit else "")
  }

  /** The entries of the metrics of the monitored object, in catalog order. */
  function MetricEntries(api: Api, identityName: string, targetId: string, zoned: bool): seq<Data>
  {
    var metrics := MetricList(api, identityName, targetId);
    seq(|metrics|, i requires 0 <= i < |metrics| => MetricEntry(api, identityName, targetId, metrics[i], zoned))
  }

  /** The error lines of the GetMetricStatistics calls for `metrics`, in order. */
  function StatsLogs(api: Api, identityName: string, targetId: string, metrics: seq<Metric>): seq<string>
    decreases |metrics|
  {
    if metrics == [] then []
    else
      var last := metrics[|metrics| - 1];
      StatsLogs(api, identityName, targetId, metrics[..|metrics| - 1])
        + MetricStatsLog(api, identityName, targetId, last.metricName, last.namespace)
  }

  /** One more metric adds the error line of its own statistics call. */
  lemma StatsLogsStep(api: Api, identityName: string, targetId: string, metrics: seq<Metric>, i: int)
    requires 0 <= i < |metrics|
    ensures StatsLogs(api, identityName, targetId, metrics[..i + 1]) == StatsLogs(api, identityName, targetId, metrics[..i])
      + MetricStatsLog(api, identityName, targetId, metrics[i].metricName, metrics[i].namespace)
  {
    assert metrics[..i + 1][..i] == metrics[..i];
  }

  ghost predicate StatsFailed(api: Api, identityName: string, targetId: string, metric: Metric)
  {
    api.getMetricStatistics(StatsRequestFor(identityName, targetId, metric.metricName, metric.namespace)).Failure?
  }

  /** One error line per failed GetMetricStatistics call: no more lines than
      metrics, and none exactly when every call succeeded. */
  lemma {:induction false} StatsLogsCount(api: Api, identityName: string, targetId: string, metrics: seq<Metric>)
    ensures |StatsLogs(api, identityName, targetId, metrics)| <= |metrics|
    ensures StatsLogs(api, identityName, targetId, metrics) == [] <==>
      forall i :: 0 <= i < |metrics| ==> !StatsFailed(api, identityName, targetId, metrics[i])
    decreases |metrics|
  {
    if metrics != [] {
      var n := |metrics| - 1;
      var front := metrics[..n];
      StatsLogsCount(api, identityName, targetId, front);
      assert forall i :: 0 <= i < n ==> front[i] == metrics[i];
    }
  }

  /** The loop of ShowEc2List: one entry per instance, in order. */
  method InstanceRecords(instances: seq<Instance>) returns (list: seq<Data>)
    ensures |list| == |instances|
    ensures forall i :: 0 <= i < |instances| ==> list[i] == InstanceEntry(instances[i])
  {
    list := [];
    for i := 0 to |instances|
      invariant |list| == i
      invariant forall k :: 0 <= k < i ==> list[k] == InstanceEntry(instances[k])
    {
      var instance := instances[i];
      var data := EMPTY_DATA.(instanceType := instance.instanceType, instanceId := instance.instanceId);
      if instance.privateIpAddress.Some? {
        data := data.(instancePrivateAddr := instance.privateIpAddress.value);
      }
      var tagged := NameTagValue(instance.tags);
      data := data.(instanceName := tagged);
      if data.instanceName == "" {
        data := data.(instanceName := instance.instanceId);
      }
      list := list + [data];
    }
  }

  /** The loop of ShowElbList: one entry per load balancer, in order. */
  method LoadBalancerRecords(lbs: seq<LoadBalancer>) returns (list: seq<Data>)
    ensures |list| == |lbs|
    ensures forall i :: 0 <= i < |lbs| ==> list[i] == LoadBalancerEntry(lbs[i])
  {
    list := [];
    for i := 0 to |lbs|
      invariant |list| == i
      invariant forall k :: 0 <= k < i ==> list[k] == LoadBalancerEntry(lbs[k])
    {
      var data := EMPTY_DATA.(elbName := lbs[i].loadBalancerName, elbDnsName := lbs[i].dnsName);
      list := list + [data];
    }
  }

  /** The loop of ShowEC2CloudwatchMetricsList: one entry per metric of the
      instance, under the metric's own name, after the error lines of the
      calls that failed. */
  method Ec2MetricRecords(api: Api, targetId: string) returns (list: seq<Data>, log: seq<string>)
    ensures var metrics := MetricList(api, INSTANCE_IDENTITY, targetId);
      && |list| == |metrics|
      && forall i :: 0 <= i < |metrics| ==> list[i] == MetricEntry(api, INSTANCE_IDENTITY, targetId, metrics[i], false)
    ensures log == MetricListLog(api, INSTANCE_IDENTITY, targetId)
      + StatsLogs(api, INSTANCE_IDENTITY, targetId, MetricList(api, INSTANCE_IDENTITY, targetId))
  {
    var metrics, listLog := GetMetricList(api, INSTANCE_IDENTITY, targetId);
    list, log := [], listLog;
    for i := 0 to |metrics|
      invariant |list| == i
      invariant forall k :: 0 <= k < i ==> list[k] == MetricEntry(api, INSTANCE_IDENTITY, targetId, metrics[k], false)
      invariant log == listLog + StatsLogs(api, INSTANCE_IDENTITY, targetId, metrics[..i])
    {
      var metric := metrics[i];
      var points, statsLog := GetMetricStats(api, INSTANCE_IDENTITY, targetId, metric.metricName, metric.namespace);
      var data := EMPTY_DATA.(metricName := metric.metricName, metricNamespace := metric.namespace);
      if |points| > 0 {
        data := data.(metricUnit := points[0].unit);
      }
      list := list + [data];
      StatsLogsStep(api, INSTANCE_IDENTITY, targetId, metrics, i);
      log := log + statsLog;
    }
    assert metrics[..|metrics|] == metrics;
  }

  /** The loop of ShowELBCloudwatchMetricsList: one entry per metric of the
      load balancer, under its zone-qualified display name, after the error
      lines of the calls that failed. */
  method ElbMetricRecords(api: Api, targetId: string) returns (list: seq<Data>, log: seq<string>)
    ensures var metrics := MetricList(api, ELB_IDENTITY, targetId);
      && |list| == |metrics|
      && forall i :: 0 <= i < |metrics| ==> list[i] == MetricEntry(api, ELB_IDENTITY, targetId, metrics[i], true)
    ensures log == MetricListLog(api, ELB_IDENTITY, targetId)
      + StatsLogs(api, ELB_IDENTITY, targetId, MetricList(api, ELB_IDENTITY, targetId))
  {
    var metrics, listLog := GetMetricList(api, ELB_IDENTITY, targetId);
    list, log := [], listLog;
    for i := 0 to |metrics|
      invariant |list| == i
      invariant forall k :: 0 <= k < i ==> list[k] == MetricEntry(api, ELB_IDENTITY, targetId, metrics[k], true)
      invariant log == listLog + StatsLogs(api, ELB_IDENTITY, targetId, metrics[..i])
    {
      var metric := metrics[i];
      var points, statsLog := GetMetricStats(api, ELB_IDENTITY, targetId, metric.metricName, metric.namespace);
      var name := Disambiguate(metric);
      var data := EMPTY_DATA.(metricName := name, metricNamespace := metric.namespace);
      if |points| > 0 {
        data := data.(metricUnit := points[0].unit);
      }
      list := list + [data];
      StatsLogsStep(api, ELB_IDENTITY, targetId, metrics, i);
      log := log + statsLog;
    }
    assert metrics[..|metrics|] == metrics;
  }
}

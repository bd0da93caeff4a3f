/** What the AWS APIs return to the tool, and the thin functions around those
    calls in zaws.go. Every API call is replaced by the result it would give;
    `Failure` stands for a call that failed, with the text of its error. */
module Aws {
  import opened Wrappers

  datatype Tag = Tag(key: string, value: string)

  /** An EC2 instance; only the private address may be missing. */
  datatype Instance = Instance(
    instanceId: string,
    instanceType: string,
    privateIpAddress: Option<string>,
    tags: seq<Tag>)

  datatype Reservation = Reservation(instances: seq<Instance>)

  datatype LoadBalancer = LoadBalancer(loadBalancerName: string, dnsName: string)

  datatype Dimension = Dimension(name: string, value: string)

  datatype Metric = Metric(metricName: string, namespace: string, dimensions: seq<Dimension>)

  /** One CloudWatch datapoint; `timestamp` is in Unix seconds. */
  datatype Datapoint = Datapoint(timestamp: int, unit: string, average: Option<real>, sum: Option<real>)
  {
    predicate HasValue() {
      average.Some? || sum.Some?
    }
  }

  /** CloudWatch answers with the statistic it was asked for, so every
      datapoint it returns carries an Average or a Sum. */
  type StatPoint = p: Datapoint | p.HasValue() witness Datapoint(0, "", None, Some(0.0))

  datatype Statistic = Sum | Average

  /** A GetMetricStatistics request: one statistic of one metric of one
      monitored object, in periods of `periodSeconds` over the last
      `windowMinutes` minutes. */
  datatype StatsRequest = StatsRequest(
    namespace: string,
    metricName: string,
    statistic: Statistic,
    dimension: Dimension,
    periodSeconds: int,
    windowMinutes: int)

  /** The answers of the four AWS calls the tool makes. */
  datatype Api = Api(
    describeInstances: Result<seq<Reservation>>,
    describeLoadBalancers: Result<seq<LoadBalancer>>,
    listMetrics: Dimension -> Result<seq<Metric>>,
    getMetricStatistics: StatsRequest -> Result<seq<StatPoint>>)

  const PERIOD_SECONDS := 300
  const WINDOW_MINUTES := 10
  const ELB_NAMESPACE := "AWS/ELB"

  /** The ELB metrics that are counts and must be summed, as listed in the
      source (HTTPCode_ELB_5XX appears twice there). */
  const SUM_METRIC_LIST: seq<string> := [
    "RequestCount",
    "HTTPCode_Backend_2XX",
    "HTTPCode_Backend_3XX",
    "HTTPCode_Backend_4XX",
    "HTTPCode_Backend_5XX",
    "HTTPCode_ELB_4XX",
    "HTTPCode_ELB_5XX",
    "HTTPCode_ELB_5XX"
  ]

  /** The scan of the list with an early return on the first match. */
  function Listed(list: seq<string>, name: string): (found: bool)
    ensures found <==> name in list
  {
    |list| > 0 && (list[0] == name || Listed(list[1..], name))
  }

  /** get_metric_statistics: the statistic to request for a metric. */
  function MetricStatistic(metricName: string, metricNamespace: string): (statistic: Statistic)
    ensures statistic == Sum <==>
      metricNamespace == "AWS/ELB" &&
      metricName in {"RequestCount", "HTTPCode_Backend_2XX", "HTTPCode_Backend_3XX", "HTTPCode_Backend_4XX",
                     "HTTPCode_Backend_5XX", "HTTPCode_ELB_4XX", "HTTPCode_ELB_5XX"}
  {
    if metricNamespace == ELB_NAMESPACE && Listed(SUM_METRIC_LIST, metricName) then Sum else Average
  }

  /** The line printed on standard output when an API call fails; the run
      goes on unless the call is DescribeInstances. */
  function FailureLine(call: string, error: string): string
  {
    "[ERROR] Fail " + call + " API call: " + error + " \n"
  }

  /** The lines a call prints: one error line when it failed, none otherwise. */
  function CallLog<T>(call: string, answer: Result<T>): seq<string>
  {
    match answer
    case Failure(error) => [FailureLine(call, error)]
    case Success(_) => []
  }

  /** The metrics whose dimension `identityName` has the value `targetId`; a
      failed call gives no metrics. */
  function MetricList(api: Api, identityName: string, targetId: string): seq<Metric>
  {
    api.listMetrics(Dimension(identityName, targetId)).GetOr([])
  }

  function MetricListLog(api: Api, identityName: string, targetId: string): seq<string>
  {
    CallLog("ListMetrics", api.listMetrics(Dimension(identityName, targetId)))
  }

  /** get_metric_list. */
  method GetMetricList(api: Api, identityName: string, targetId: string) returns (metrics: seq<Metric>, log: seq<string>)
    ensures var answer := api.listMetrics(Dimension(identityName, targetId));
      && (answer.Failure? ==> metrics == [] && log == [FailureLine("ListMetrics", answer.error)])
      && (answer.Success? ==> metrics == answer.value && log == [])
    ensures metrics == MetricList(api, identityName, targetId) && log == MetricListLog(api, identityName, targetId)
  {
    var answer := api.listMetrics(Dimension(identityName, targetId));
    if answer.Failure? {
      return [], [FailureLine("ListMetrics", answer.error)];
    }
    return answer.value, [];
  }

  /** The request get_metric_stats sends for one metric. */
  function StatsRequestFor(identityName: string, targetId: string, metricName: string, metricNamespace: string)
    : StatsRequest
  {
    StatsRequest(metricNamespace, metricName, MetricStatistic(metricName, metricNamespace),
                 Dimension(identityName, targetId), PERIOD_SECONDS, WINDOW_MINUTES)
  }

  /** The request asks for the metric in its namespace, filtered on the
      monitored object's dimension, in 300-second periods over the last ten
      minutes, with Sum exactly for the seven ELB count metrics and Average
      for every other metric. */
  lemma StatsRequestShape(identityName: string, targetId: string, metricName: string, metricNamespace: string)
    ensures var request := StatsRequestFor(identityName, targetId, metricName, metricNamespace);
      && request.namespace == metricNamespace && request.metricName == metricName
      && request.dimension == Dimension(identityName, targetId)
      && request.periodSeconds == 300 && request.windowMinutes == 10
      && (request.statistic == Sum <==>
            metricNamespace == "AWS/ELB" &&
            metricName in {"RequestCount", "HTTPCode_Backend_2XX", "HTTPCode_Backend_3XX", "HTTPCode_Backend_4XX",
                           "HTTPCode_Backend_5XX", "HTTPCode_ELB_4XX", "HTTPCode_ELB_5XX"})
  {
  }

  /** The datapoints of one metric; a failed call gives none. */
  function MetricStats(api: Api, identityName: string, targetId: string, metricName: string, metricNamespace: string)
    : seq<StatPoint>
  {
    api.getMetricStatistics(StatsRequestFor(identityName, targetId, metricName, metricNamespace)).GetOr([])
  }

  function MetricStatsLog(api: Api, identityName: string, targetId: string, metricName: string, metricNamespace: string)
    : seq<string>
  {
    CallLog("GetMetricStatistics", api.getMetricStatistics(StatsRequestFor(identityName, targetId, metricName, metricNamespace)))
  }

  /** get_metric_stats. */
  method GetMetricStats(api: Api, identityName: string, targetId: string, metricName: string, metricNamespace: string)
    returns (points: seq<StatPoint>, log: seq<string>)
    ensures var answer := api.getMetricStatistics(StatsRequestFor(identityName, targetId, metricName, metricNamespace));
      && (answer.Failure? ==> points == [] && log == [FailureLine("GetMetricStatistics", answer.error)])
      && (answer.Success? ==> points == answer.value && log == [])
    ensures points == MetricStats(api, identityName, targetId, metricName, metricNamespace)
    ensures log == MetricStatsLog(api, identityName, targetId, metricName, metricNamespace)
  {
    var answer := api.getMetricStatistics(StatsRequestFor(identityName, targetId, metricName, metricNamespace));
    if answer.Failure? {
      return [], [FailureLine("GetMetricStatistics", answer.error)];
    }
    return answer.value, [];
  }

  /** The load balancers; a failed call gives none. */
  function LoadBalancers(api: Api): seq<LoadBalancer>
  {
    api.describeLoadBalancers.GetOr([])
  }

  /** get_elb_list. */
  method GetElbList(api: Api) returns (lbs: seq<LoadBalancer>, log: seq<string>)
    ensures api.describeLoadBalancers.Failure? ==>
      lbs == [] && log == [FailureLine("DescribeLoadBalancers", api.describeLoadBalancers.error)]
    ensures api.describeLoadBalancers.Success? ==> lbs == api.describeLoadBalancers.value && log == []
    ensures lbs == LoadBalancers(api) && log == CallLog("DescribeLoadBalancers", api.describeLoadBalancers)
  {
    if api.describeLoadBalancers.Failure? {
      return [], [FailureLine("DescribeLoadBalancers", api.describeLoadBalancers.error)];
    }
    return api.describeLoadBalancers.value, [];
  }

  /** The instances of the reservations, reservation after reservation. */
  function Flatten(reservations: seq<Reservation>): seq<Instance>
  {
    if reservations == [] then []
    else Flatten(reservations[..|reservations| - 1]) + reservations[|reservations| - 1].instances
  }

  lemma {:induction false} FlattenAppend(a: seq<Reservation>, b: seq<Reservation>)
    ensures Flatten(a + b) == Flatten(a) + Flatten(b)
    decreases |b|
  {
    if b == [] {
      assert a + b == a;
    } else {
      var b' := b[..|b| - 1];
      assert (a + b)[..|a + b| - 1] == a + b';
      FlattenAppend(a, b');
    }
  }

  lemma {:induction false} FlattenMembership(reservations: seq<Reservation>, instance: Instance)
    ensures instance in Flatten(reservations) <==>
      exists i :: 0 <= i < |reservations| && instance in reservations[i].instances
    decreases |reservations|
  {
    if reservations != [] {
      var n := |reservations| - 1;
      FlattenMembership(reservations[..n], instance);
      if instance in reservations[n].instances {
        assert instance in Flatten(reservations);
      }
    }
  }

  /** get_ec2_list: the instances of all reservations in order, or the
      error text when DescribeInstances fails (the tool then prints its
      error line and exits with status 1). */
  method Ec2Instances(api: Api) returns (instances: Result<seq<Instance>>)
    ensures api.describeInstances.Failure? ==> instances == Failure(api.describeInstances.error)
    ensures api.describeInstances.Success? ==> instances == Success(Flatten(api.describeInstances.value))
  {
    if api.describeInstances.Failure? {
      return Failure(api.describeInstances.error);
    }
    var reservations := api.describeInstances.value;
    var all: seq<Instance> := [];
    for i := 0 to |reservations|
      invariant all == Flatten(reservations[..i])
    {
      assert reservations[..i + 1][..i] == reservations[..i];
      all := all + reservations[i].instances;
    }
    assert reservations[..|reservations|] == reservations;
    instances := Success(all);
  }
}

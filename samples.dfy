/** The batch of Zabbix items SendMetricStats builds before sending it. */
module Samples {
  import opened Wrappers
  import opened Aws
  import opened Names
  import opened Records

  /** One Zabbix sender item. The value is the number itself; its decimal
      text with four fractional digits is not part of this model. */
  datatype Sample = Sample(hostname: string, key: string, value: real, clock: int)

  /** The value read from a datapoint: Average when present, Sum otherwise. */
  function PointValue(point: StatPoint): real
  {
    if point.average.None? then point.sum.value else point.average.value
  }

  function SampleFor(targetId: string, name: string, point: StatPoint): Sample
  {
    Sample(targetId, "cloudwatch.metric[" + name + "]", PointValue(point), point.timestamp)
  }

  ghost predicate HasData(api: Api, identityName: string, targetId: string, metric: Metric)
  {
    |Points(api, identityName, targetId, metric)| > 0
  }

  /** The item sent for one metric: none when it has no datapoints,
      otherwise one built from its first datapoint. */
  function Items(api: Api, identityName: string, targetId: string, metric: Metric): seq<Sample>
  {
    var points := Points(api, identityName, targetId, metric);
    if |points| > 0 then [SampleFor(targetId, DisplayName(metric), points[0])] else []
  }

  /** The items for `metrics`: one per metric with datapoints, in order. */
  function Batch(api: Api, identityName: string, targetId: string, metrics: seq<Metric>): seq<Sample>
    decreases |metrics|
  {
    if metrics == [] then []
    else
      Batch(api, identityName, targetId, metrics[..|metrics| - 1])
        + Items(api, identityName, targetId, metrics[|metrics| - 1])
  }

  /** One more metric adds its own items. */
  lemma BatchStep(api: Api, identityName: string, targetId: string, metrics: seq<Metric>, i: int)
    requires 0 <= i < |metrics|
    ensures Batch(api, identityName, targetId, metrics[..i + 1]) ==
      Batch(api, identityName, targetId, metrics[..i]) + Items(api, identityName, targetId, metrics[i])
  {
    assert metrics[..i + 1][..i] == metrics[..i];
  }

  /** A metric gives at most one item, one exactly when it has data, and that
      item is the one described by ItemOf. */
  lemma ItemsOfMetric(api: Api, identityName: string, targetId: string, metric: Metric)
    ensures |Items(api, identityName, targetId, metric)| == if HasData(api, identityName, targetId, metric) then 1 else 0
    ensures forall s :: s in Items(api, identityName, targetId, metric) ==> ItemOf(api, identityName, targetId, metric, s)
  {
  }

  /** Metrics without data are dropped, so the batch is never longer than the
      metric list, and as long exactly when every metric had data. */
  lemma {:induction false} BatchLength(api: Api, identityName: string, targetId: string, metrics: seq<Metric>)
    ensures |Batch(api, identityName, targetId, metrics)| <= |metrics|
    ensures |Batch(api, identityName, targetId, metrics)| == |metrics| <==>
      forall i :: 0 <= i < |metrics| ==> HasData(api, identityName, targetId, metrics[i])
    decreases |metrics|
  {
    if metrics != [] {
      var n := |metrics| - 1;
      var front := metrics[..n];
      BatchLength(api, identityName, targetId, front);
      ItemsOfMetric(api, identityName, targetId, metrics[n]);
      if HasData(api, identityName, targetId, metrics[n]) {
        assert forall i :: 0 <= i < n ==> front[i] == metrics[i];
      } else {
        assert |Batch(api, identityName, targetId, metrics)| < |metrics|;
      }
    }
  }

  /** The batch of a concatenation is the concatenation of the batches: items
      follow metric order and none is merged or removed. */
  lemma {:induction false} BatchAppend(api: Api, identityName: string, targetId: string, a: seq<Metric>, b: seq<Metric>)
    ensures Batch(api, identityName, targetId, a + b) ==
      Batch(api, identityName, targetId, a) + Batch(api, identityName, targetId, b)
    decreases |b|
  {
    if b == [] {
      assert a + b == a;
    } else {
      var b' := b[..|b| - 1];
      assert (a + b)[..|a + b| - 1] == a + b';
      assert (a + b)[|a + b| - 1] == b[|b| - 1];
      BatchAppend(api, identityName, targetId, a, b');
    }
  }

  /** Every item belongs to a metric with data: it is sent for the target,
      under the key cloudwatch.metric[display name], with the first
      datapoint's Average (or its Sum when Average is absent) and timestamp. */
  lemma {:induction false} BatchItemsSound(api: Api, identityName: string, targetId: string, metrics: seq<Metric>)
    ensures forall s :: s in Batch(api, identityName, targetId, metrics) ==>
      exists i :: 0 <= i < |metrics| && ItemOf(api, identityName, targetId, metrics[i], s)
    decreases |metrics|
  {
    if metrics != [] {
      var n := |metrics| - 1;
      var front := metrics[..n];
      BatchItemsSound(api, identityName, targetId, front);
      ItemsOfMetric(api, identityName, targetId, metrics[n]);
      var frontBatch := Batch(api, identityName, targetId, front);
      forall s | s in Batch(api, identityName, targetId, metrics)
        ensures exists i :: 0 <= i < |metrics| && ItemOf(api, identityName, targetId, metrics[i], s)
      {
        if s in frontBatch {
          var i :| 0 <= i < n && ItemOf(api, identityName, targetId, front[i], s);
          assert metrics[i] == front[i];
        } else {
          assert ItemOf(api, identityName, targetId, metrics[n], s);
        }
      }
    }
  }

  /** Every metric with data has its item in the batch. */
  lemma {:induction false} BatchItemsComplete(api: Api, identityName: string, targetId: string, metrics: seq<Metric>)
    ensures forall i :: 0 <= i < |metrics| && HasData(api, identityName, targetId, metrics[i]) ==>
      exists s :: s in Batch(api, identityName, targetId, metrics) && ItemOf(api, identityName, targetId, metrics[i], s)
    decreases |metrics|
  {
    if metrics != [] {
      var n := |metrics| - 1;
      var front := metrics[..n];
      BatchItemsComplete(api, identityName, targetId, front);
      ItemsOfMetric(api, identityName, targetId, metrics[n]);
      var batch := Batch(api, identityName, targetId, metrics);
      var frontBatch := Batch(api, identityName, targetId, front);
      forall i | 0 <= i < |metrics| && HasData(api, identityName, targetId, metrics[i])
        ensures exists s :: s in batch && ItemOf(api, identityName, targetId, metrics[i], s)
      {
        if i < n {
          assert front[i] == metrics[i];
          var s :| s in frontBatch && ItemOf(api, identityName, targetId, front[i], s);
          assert s in batch;
        } else {
          var last := Items(api, identityName, targetId, metrics[n]);
          assert last[0] in batch;
        }
      }
    }
  }

  /** `s` is the item sent for `metric`. */
  ghost predicate ItemOf(api: Api, identityName: string, targetId: string, metric: Metric, s: Sample)
  {
    var points := Points(api, identityName, targetId, metric);
    && |points| > 0
    && s.hostname == targetId
    && s.key == "cloudwatch.metric[" + DisplayName(metric) + "]"
    && s.value == PointValue(points[0])
    && s.clock == points[0].timestamp
  }

  /** The loop of SendMetricStats that fills send_data, with the error lines
      of the calls that failed. */
  method CollectSamples(api: Api, identityName: string, targetId: string) returns (batch: seq<Sample>, log: seq<string>)
    ensures batch == Batch(api, identityName, targetId, MetricList(api, identityName, targetId))
    ensures log == MetricListLog(api, identityName, targetId)
      + StatsLogs(api, identityName, targetId, MetricList(api, identityName, targetId))
  {
    var metrics, listLog := GetMetricList(api, identityName, targetId);
    batch, log := [], listLog;
    for i := 0 to |metrics|
      invariant batch == Batch(api, identityName, targetId, metrics[..i])
      invariant log == listLog + StatsLogs(api, identityName, targetId, metrics[..i])
    {
      var metric := metrics[i];
      var points, statsLog := GetMetricStats(api, identityName, targetId, metric.metricName, metric.namespace);
      var name := Disambiguate(metric);
      BatchStep(api, identityName, targetId, metrics, i);
      StatsLogsStep(api, identityName, targetId, metrics, i);
      if |points| > 0 {
        var point := points[0];
        batch := batch + [Sample(targetId, "cloudwatch.metric[" + name + "]", PointValue(point), point.timestamp)];
      }
      log := log + statsLog;
    }
    assert metrics[..|metrics|] == metrics;
  }
}

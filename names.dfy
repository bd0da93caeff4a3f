/** The two names the tool derives: a metric's display name, made unique per
    availability zone, and an instance's name, taken from its Name tag. */
module Names {
  import opened Wrappers
  import opened Aws

  const ZONE_DIMENSION := "AvailabilityZone"
  const NAME_TAG_KEY := "Name"

  /** `k` is the index of the first AvailabilityZone dimension. */
  ghost predicate FirstZoneAt(dimensions: seq<Dimension>, k: int)
  {
    && 0 <= k < |dimensions|
    && dimensions[k].name == ZONE_DIMENSION
    && forall j :: 0 <= j < k ==> dimensions[j].name != ZONE_DIMENSION
  }

  /** The value of the first AvailabilityZone dimension, if there is one. */
  function FirstZone(dimensions: seq<Dimension>): Option<string>
  {
    if dimensions == [] then None
    else if dimensions[0].name == ZONE_DIMENSION then Some(dimensions[0].value)
    else FirstZone(dimensions[1..])
  }

  /** There is no zone exactly when no dimension is an AvailabilityZone, and
      the zone found is the value of the first one. */
  lemma {:induction false} FirstZoneCases(dimensions: seq<Dimension>)
    ensures FirstZone(dimensions).None? <==> forall i :: 0 <= i < |dimensions| ==> dimensions[i].name != ZONE_DIMENSION
    ensures forall k :: FirstZoneAt(dimensions, k) ==> FirstZone(dimensions) == Some(dimensions[k].value)
  {
    if dimensions != [] && dimensions[0].name != ZONE_DIMENSION {
      FirstZoneCases(dimensions[1..]);
      assert forall k :: FirstZoneAt(dimensions, k) ==> FirstZoneAt(dimensions[1..], k - 1);
      assert forall i :: 0 < i < |dimensions| ==> dimensions[i] == dimensions[1..][i - 1];
    }
  }

  /** The name a metric is listed and sent under: its own name, followed by
      "." and the zone when it has an AvailabilityZone dimension. */
  function DisplayName(metric: Metric): string
  {
    match FirstZone(metric.dimensions)
    case None => metric.metricName
    case Some(zone) => metric.metricName + "." + zone
  }

  /** Without an AvailabilityZone dimension the name is unchanged; otherwise
      the value of the first such dimension is appended after a dot. */
  lemma DisplayNameCases(metric: Metric)
    ensures (forall i :: 0 <= i < |metric.dimensions| ==> metric.dimensions[i].name != ZONE_DIMENSION) ==>
      DisplayName(metric) == metric.metricName
    ensures forall k :: FirstZoneAt(metric.dimensions, k) ==>
      DisplayName(metric) == metric.metricName + "." + metric.dimensions[k].value
  {
    FirstZoneCases(metric.dimensions);
  }

  /** The dimension scan that ShowELBCloudwatchMetricsList and SendMetricStats
      run for every metric, stopping at the first AvailabilityZone. */
  method Disambiguate(metric: Metric) returns (name: string)
    ensures name == DisplayName(metric)
  {
    DisplayNameCases(metric);
    name := metric.metricName;
    var i := 0;
    while i < |metric.dimensions|
      invariant 0 <= i <= |metric.dimensions|
      invariant forall j :: 0 <= j < i ==> metric.dimensions[j].name != ZONE_DIMENSION
      invariant name == metric.metricName
    {
      var dimension := metric.dimensions[i];
      if dimension.name == ZONE_DIMENSION {
        assert FirstZoneAt(metric.dimensions, i);
        name := metric.metricName + "." + dimension.value;
        break;
      }
      i := i + 1;
    }
  }

  /** `k` is the index of the last tag whose key is Name. */
  ghost predicate LastNameTagAt(tags: seq<Tag>, k: int)
  {
    && 0 <= k < |tags|
    && tags[k].key == NAME_TAG_KEY
    && forall j :: k < j < |tags| ==> tags[j].key != NAME_TAG_KEY
  }

  /** The value of the last Name tag, if there is one. */
  function LastNameTag(tags: seq<Tag>): Option<string>
    decreases |tags|
  {
    if tags == [] then None
    else if tags[|tags| - 1].key == NAME_TAG_KEY then Some(tags[|tags| - 1].value)
    else LastNameTag(tags[..|tags| - 1])
  }

  /** There is no value exactly when no tag is a Name tag, and the value
      found is that of the last one. */
  lemma {:induction false} LastNameTagCases(tags: seq<Tag>)
    ensures LastNameTag(tags).None? <==> forall i :: 0 <= i < |tags| ==> tags[i].key != NAME_TAG_KEY
    ensures forall k :: LastNameTagAt(tags, k) ==> LastNameTag(tags) == Some(tags[k].value)
    decreases |tags|
  {
    if tags != [] && tags[|tags| - 1].key != NAME_TAG_KEY {
      var front := tags[..|tags| - 1];
      LastNameTagCases(front);
      assert forall k :: LastNameTagAt(tags, k) ==> LastNameTagAt(front, k);
      assert forall i :: 0 <= i < |front| ==> front[i] == tags[i];
    }
  }

  /** The tag scan of ShowEc2List: every Name tag overwrites the name found so
      far, which starts empty. */
  method NameTagValue(tags: seq<Tag>) returns (name: string)
    ensures name == LastNameTag(tags).GetOr("")
  {
    name := "";
    for i := 0 to |tags|
      invariant name == LastNameTag(tags[..i]).GetOr("")
    {
      assert tags[..i + 1][..i] == tags[..i];
      if tags[i].key == NAME_TAG_KEY {
        name := tags[i].value;
      }
    }
    assert tags[..|tags|] == tags;
  }

  /** The name an instance is listed under: the value of its last Name tag,
      or its id when there is no such tag or that tag's value is empty. */
  function InstanceName(instance: Instance): string
  {
    var tagged := LastNameTag(instance.tags).GetOr("");
    if tagged == "" then instance.instanceId else tagged
  }

  /** Without a Name tag an instance is listed under its id; otherwise under
      the value of its last Name tag, or its id when that value is empty. */
  lemma InstanceNameCases(instance: Instance)
    ensures (forall i :: 0 <= i < |instance.tags| ==> instance.tags[i].key != NAME_TAG_KEY) ==>
      InstanceName(instance) == instance.instanceId
    ensures forall k :: LastNameTagAt(instance.tags, k) ==>
      InstanceName(instance) == if instance.tags[k].value == "" then instance.instanceId else instance.tags[k].value
  {
    LastNameTagCases(instance.tags);
  }
}

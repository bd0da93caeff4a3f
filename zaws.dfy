/** The commands of the tool: the options, what each mode prints or sends,
    and the choice of mode from the argument vector (zaws.go, `main` and the
    methods of Zaws). */
module Zaws {
  import opened Wrappers
  import opened Aws
  import opened Lld
  import opened Records
  import opened Samples

  /** The Zaws struct after SetOption: the parsed command-line options. */
  datatype Options = Options(
    region: string,
    accessKeyId: string,
    secretKeyId: string,
    targetId: string,
    metricName: string,
    zabbixHost: string,
    zabbixPort: string)

  /** The option defaults; the keys default to the AWS_ACCESS_KEY_ID and
      AWS_SECRET_ACCESS_KEY environment variables. */
  function DefaultOptions(envAccessKeyId: string, envSecretKeyId: string): Options
  {
    Options("ap-northeast-1", envAccessKeyId, envSecretKeyId, "", "", "localhost", "10051")
  }

  /** SetOption prints usage and exits when either key is empty. */
  predicate KeysMissing(options: Options)
  {
    options.accessKeyId == "" || options.secretKeyId == ""
  }

  /** The address the batch is sent to. */
  function Address(options: Options): string
  {
    options.zabbixHost + ":" + options.zabbixPort
  }

  /** Without flags the tool works in ap-northeast-1 and sends to
      localhost:10051, and it stops for missing keys exactly when one of the
      two environment variables is empty. */
  lemma DefaultOptionsCases(envAccessKeyId: string, envSecretKeyId: string)
    ensures var options := DefaultOptions(envAccessKeyId, envSecretKeyId);
      && options.region == "ap-northeast-1"
      && Address(options) == "localhost:10051"
      && (KeysMissing(options) <==> envAccessKeyId == "" || envSecretKeyId == "")
  {
  }

  /** The lines `usage` prints, after the key error line when the keys are missing. */
  const USAGE_LINE := "Usage: zaws service method [target] [-region|-r] [-key|-k] [-secret|-s] [-id|-i] [-metric|-m] [-host|h] [-port|p]\n"
  const KEY_ERROR_LINE := "[ERROR]: Please set key information\n"

  /** The Zabbix daemon's answer to a batch sent to "host:port": true when
      the send succeeds. */
  type Daemon = (string, seq<Sample>) -> bool

  /** How a run of the tool ends. `log` holds the error lines of the API
      calls that failed, printed on standard output before the rest. */
  datatype Outcome =
    | Usage(lines: seq<string>)                  // these lines printed, exit status 1
    | DescribeFailed(line: string)               // this line printed, exit status 1
    | Printed(log: seq<string>, document: Json)  // log, then Render(document), exit status 0
    | Sent(log: seq<string>, address: string, batch: seq<Sample>)        // batch accepted, exit status 0
    | SendFailed(log: seq<string>, address: string, batch: seq<Sample>)  // send error, exit status 1
    | Idle                                       // nothing printed, exit status 0

  /** `doc` is a discovery document whose entries describe `instances`, one by one. */
  ghost predicate ListsInstances(doc: Json, instances: seq<Instance>)
  {
    && DecodeDocument(doc).Some?
    && var list := DecodeDocument(doc).value;
    && |list| == |instances|
    && forall i :: 0 <= i < |list| ==> list[i] == InstanceEntry(instances[i])
  }

  ghost predicate ListsLoadBalancers(doc: Json, lbs: seq<LoadBalancer>)
  {
    && DecodeDocument(doc).Some?
    && var list := DecodeDocument(doc).value;
    && |list| == |lbs|
    && forall i :: 0 <= i < |list| ==> list[i] == LoadBalancerEntry(lbs[i])
  }

  /** `doc` describes the metrics of `targetId`, under their display names
      when `zoned` and under their own names otherwise. */
  ghost predicate ListsMetrics(doc: Json, api: Api, identityName: string, targetId: string, zoned: bool)
  {
    && DecodeDocument(doc).Some?
    && var list := DecodeDocument(doc).value;
    && var metrics := MetricList(api, identityName, targetId);
    && |list| == |metrics|
    && forall i :: 0 <= i < |list| ==> list[i] == MetricEntry(api, identityName, targetId, metrics[i], zoned)
  }

  /** ShowEc2List: the document of the instances' entries, or the error line
      of a failed DescribeInstances. */
  method ShowEc2List(api: Api) returns (outcome: Outcome)
    ensures api.describeInstances.Failure? ==>
      outcome == DescribeFailed(FailureLine("DescribeInstances", api.describeInstances.error))
    ensures api.describeInstances.Success? ==>
      && outcome == Printed([], EncodeDocument(InstanceEntries(Flatten(api.describeInstances.value))))
      && ListsInstances(outcome.document, Flatten(api.describeInstances.value))
  {
    var instances := Ec2Instances(api);
    if instances.Failure? {
      return DescribeFailed(FailureLine("DescribeInstances", instances.error));
    }
    var list := InstanceRecords(instances.value);
    assert list == InstanceEntries(instances.value);
    DocumentRoundTrip(list);
    outcome := Printed([], EncodeDocument(list));
  }

  /** ShowElbList; a failed DescribeLoadBalancers prints its error line and
      then the empty document. */
  method ShowElbList(api: Api) returns (outcome: Outcome)
    ensures outcome == Printed(CallLog("DescribeLoadBalancers", api.describeLoadBalancers),
                               EncodeDocument(LoadBalancerEntries(LoadBalancers(api))))
    ensures ListsLoadBalancers(outcome.document, LoadBalancers(api))
    ensures api.describeLoadBalancers.Failure? ==> DecodeDocument(outcome.document) == Some([])
  {
    var lbs, log := GetElbList(api);
    var list := LoadBalancerRecords(lbs);
    assert list == LoadBalancerEntries(lbs);
    DocumentRoundTrip(list);
    outcome := Printed(log, EncodeDocument(list));
  }

  /** ShowEC2CloudwatchMetricsList. */
  method ShowEc2MetricsList(api: Api, options: Options) returns (outcome: Outcome)
    ensures outcome == Printed(
      MetricListLog(api, INSTANCE_IDENTITY, options.targetId)
        + StatsLogs(api, INSTANCE_IDENTITY, options.targetId, MetricList(api, INSTANCE_IDENTITY, options.targetId)),
      EncodeDocument(MetricEntries(api, INSTANCE_IDENTITY, options.targetId, false)))
    ensures ListsMetrics(outcome.document, api, INSTANCE_IDENTITY, options.targetId, false)
  {
    var list, log := Ec2MetricRecords(api, options.targetId);
    assert list == MetricEntries(api, INSTANCE_IDENTITY, options.targetId, false);
    DocumentRoundTrip(list);
    outcome := Printed(log, EncodeDocument(list));
  }

  /** ShowELBCloudwatchMetricsList. */
  method ShowElbMetricsList(api: Api, options: Options) returns (outcome: Outcome)
    ensures outcome == Printed(
      MetricListLog(api, ELB_IDENTITY, options.targetId)
        + StatsLogs(api, ELB_IDENTITY, options.targetId, MetricList(api, ELB_IDENTITY, options.targetId)),
      EncodeDocument(MetricEntries(api, ELB_IDENTITY, options.targetId, true)))
    ensures ListsMetrics(outcome.document, api, ELB_IDENTITY, options.targetId, true)
  {
    var list, log := ElbMetricRecords(api, options.targetId);
    assert list == MetricEntries(api, ELB_IDENTITY, options.targetId, true);
    DocumentRoundTrip(list);
    outcome := Printed(log, EncodeDocument(list));
  }

  /** SendMetricStats: one send of the whole batch to host:port; the run
      fails when the send fails. */
  method SendMetricStats(api: Api, daemon: Daemon, options: Options, identityName: string) returns (outcome: Outcome)
    ensures Delivered(api, daemon, options, identityName, outcome)
  {
    var batch, log := CollectSamples(api, identityName, options.targetId);
    var address := Address(options);
    if daemon(address, batch) {
      outcome := Sent(log, address, batch);
    } else {
      outcome := SendFailed(log, address, batch);
    }
  }

  datatype Mode = ListEc2 | ListElb | ListEc2Metrics | ListElbMetrics | SendEc2Stats | SendElbStats

  datatype Command = RunMode(mode: Mode) | DoNothing | ShowUsage

  /** The switch of `main` over os.Args (whose first element is the program). */
  function Dispatch(args: seq<string>): (command: Command)
    ensures |args| < 3 ==> command == ShowUsage
    ensures command == RunMode(ListEc2) <==> |args| >= 3 && args[1] == "ec2" && args[2] == "list"
    ensures command == RunMode(ListElb) <==> |args| >= 3 && args[1] == "elb" && args[2] == "list"
    ensures command == RunMode(ListEc2Metrics) <==>
      |args| >= 4 && args[1] == "cloudwatch" && args[2] == "list" && args[3] == "ec2"
    ensures command == RunMode(ListElbMetrics) <==>
      |args| >= 4 && args[1] == "cloudwatch" && args[2] == "list" && args[3] == "elb"
    ensures command == RunMode(SendEc2Stats) <==>
      |args| >= 4 && args[1] == "cloudwatch" && args[2] == "stats" && args[3] == "ec2"
    ensures command == RunMode(SendElbStats) <==>
      |args| >= 4 && args[1] == "cloudwatch" && args[2] == "stats" && args[3] == "elb"
    ensures command == DoNothing <==>
      |args| >= 4 && args[1] == "cloudwatch" && args[2] == "list" && args[3] == "rds"
  {
    if |args| < 3 then ShowUsage
    else if args[1] == "ec2" then
      if args[2] == "list" then RunMode(ListEc2) else ShowUsage
    else if args[1] == "elb" then
      if args[2] == "list" then RunMode(ListElb) else ShowUsage
    else if args[1] == "cloudwatch" then
      if args[2] == "list" then
        if |args| < 4 then ShowUsage
        else if args[3] == "ec2" then RunMode(ListEc2Metrics)
        else if args[3] == "rds" then DoNothing
        else if args[3] == "elb" then RunMode(ListElbMetrics)
        else ShowUsage
      else if args[2] == "stats" then
        if |args| < 4 then ShowUsage
        else if args[3] == "ec2" then RunMode(SendEc2Stats)
        else if args[3] == "elb" then RunMode(SendElbStats)
        else ShowUsage
      else ShowUsage
    else ShowUsage
  }

  /** What running `mode` with the keys present ends in. */
  ghost predicate Performed(mode: Mode, api: Api, daemon: Daemon, options: Options, outcome: Outcome)
  {
    match mode
    case ListEc2 =>
      (match api.describeInstances
       case Failure(error) => outcome == DescribeFailed(FailureLine("DescribeInstances", error))
       case Success(reservations) => outcome == Printed([], EncodeDocument(InstanceEntries(Flatten(reservations)))))
    case ListElb =>
      outcome == Printed(CallLog("DescribeLoadBalancers", api.describeLoadBalancers),
                         EncodeDocument(LoadBalancerEntries(LoadBalancers(api))))
    case ListEc2Metrics => ListedMetrics(api, options, INSTANCE_IDENTITY, false, outcome)
    case ListElbMetrics => ListedMetrics(api, options, ELB_IDENTITY, true, outcome)
    case SendEc2Stats => Delivered(api, daemon, options, INSTANCE_IDENTITY, outcome)
    case SendElbStats => Delivered(api, daemon, options, ELB_IDENTITY, outcome)
  }

  ghost predicate ListedMetrics(api: Api, options: Options, identityName: string, zoned: bool, outcome: Outcome)
  {
    var metrics := MetricList(api, identityName, options.targetId);
    outcome == Printed(MetricListLog(api, identityName, options.targetId) + StatsLogs(api, identityName, options.targetId, metrics),
                       EncodeDocument(MetricEntries(api, identityName, options.targetId, zoned)))
  }

  /** The whole batch, after the error lines of the calls that failed, goes
      in one send to host:port. */
  ghost predicate Delivered(api: Api, daemon: Daemon, options: Options, identityName: string, outcome: Outcome)
  {
    var metrics := MetricList(api, identityName, options.targetId);
    var log := MetricListLog(api, identityName, options.targetId) + StatsLogs(api, identityName, options.targetId, metrics);
    var batch := Batch(api, identityName, options.targetId, metrics);
    outcome == if daemon(Address(options), batch) then Sent(log, Address(options), batch)
               else SendFailed(log, Address(options), batch)
  }

  /** `main`: choose the mode, check the keys (only when a mode runs, as
      NewZaws does), run it. */
  method Run(args: seq<string>, options: Options, api: Api, daemon: Daemon) returns (outcome: Outcome)
    ensures Dispatch(args) == ShowUsage ==> outcome == Usage([USAGE_LINE])
    ensures Dispatch(args) == DoNothing ==> outcome == Idle
    ensures Dispatch(args).RunMode? && KeysMissing(options) ==> outcome == Usage([KEY_ERROR_LINE, USAGE_LINE])
    ensures Dispatch(args).RunMode? && !KeysMissing(options) ==>
      Performed(Dispatch(args).mode, api, daemon, options, outcome)
  {
    var command := Dispatch(args);
    match command
    case ShowUsage => outcome := Usage([USAGE_LINE]);
    case DoNothing => outcome := Idle;
    case RunMode(mode) =>
      if KeysMissing(options) {
        outcome := Usage([KEY_ERROR_LINE, USAGE_LINE]);
      } else {
        match mode
        case ListEc2 => outcome := ShowEc2List(api);
        case ListElb => outcome := ShowElbList(api);
        case ListEc2Metrics => outcome := ShowEc2MetricsList(api, options);
        case ListElbMetrics => outcome := ShowElbMetricsList(api, options);
        case SendEc2Stats => outcome := SendMetricStats(api, daemon, options, INSTANCE_IDENTITY);
        case SendElbStats => outcome := SendMetricStats(api, daemon, options, ELB_IDENTITY);
      }
  }
}

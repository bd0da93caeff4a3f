# zaws, modelled in Dafny

zaws is a command-line bridge between AWS and Zabbix. Its modes are:

- `zaws ec2 list` prints a Zabbix low-level-discovery (LLD) document of the EC2 instances.
- `zaws elb list` does the same for the load balancers.
- `zaws cloudwatch list ec2|elb` prints one entry per CloudWatch metric of a monitored object, with the unit of the first datapoint GetMetricStatistics returns for the last ten minutes.
- `zaws cloudwatch stats ec2|elb` reads the first datapoint GetMetricStatistics returns for the last ten minutes for every metric of a monitored object and sends the values to a Zabbix server in one batch.

The tool has one source file, `zaws.go`. This project models its logic: the options, the three AWS wrappers and the EC2 instance listing, the four listing modes, the sending mode and the argument switch. The AWS SDK and the Zabbix sender are not modelled; what they return is a parameter.

The modules:

- `Aws` holds the answers of the four AWS calls, passed in as data (`Api`). Each answer is a `Result`: `Failure` carries the error text of a failed call. It also holds:
  - `get_metric_statistics`, which picks the statistic per metric, and the request `get_metric_stats` sends;
  - the wrappers around the calls, with the "[ERROR] Fail ..." line each prints when its call fails;
  - `get_ec2_list`, the loop that flattens the reservations into instances.
- `Names` holds the two derived names:
  - a metric's display name, which gets ".<zone>" appended when the metric has an AvailabilityZone dimension;
  - an instance's name, which is its last Name tag, or its id.
- `Lld` holds the `Data` record and the `encoding/json` encoding of the LLD document, with its `omitempty` fields. It also has a reference decoder for that encoding, and the text of the document with `json.Marshal`'s string escaping.
- `Records` holds the four loops that build one `Data` entry per instance, load balancer or metric, and the error lines of the statistics calls they make.
- `Samples` holds the loop of `SendMetricStats` that builds the batch of Zabbix items.
- `Zaws` holds the options, each mode as a method returning an `Outcome`, and the argument switch of `main`. An `Outcome` holds the lines a run prints and how it ends.
- `Printing` models `fmt.Printf` given a format string and no operands. Every listing mode prints its document that way (see Findings).

## Model

| member | source | states |
|---|---|---|
| Aws.Listed | zaws.go:122-128 | the scan of sum_metric_list finds a name exactly when the name is in the list |
| Aws.MetricStatistic | zaws.go:111-130 | Sum is requested exactly when the namespace is "AWS/ELB" and the metric is one of the seven count metrics; every other metric gets Average |
| Aws.GetMetricList | zaws.go:94-110 | a failed ListMetrics prints "[ERROR] Fail ListMetrics API call: <error> \n" and gives no metrics; otherwise the metrics are the answer for the dimension identity = target, and nothing is printed |
| Aws.StatsRequestShape | zaws.go:132-149 | the request names the metric and its namespace, filters on the dimension identity = target, and asks for 300-second periods over the last 10 minutes, with Sum exactly for the seven ELB count metrics in namespace "AWS/ELB" and Average otherwise |
| Aws.GetMetricStats | zaws.go:150-156 | a failed GetMetricStatistics prints its "[ERROR] Fail ..." line and gives no datapoints; otherwise the datapoints are the answer to that request, and nothing is printed |
| Aws.GetElbList | zaws.go:173-185 | a failed DescribeLoadBalancers prints its "[ERROR] Fail ..." line and gives no load balancers; otherwise the answer's load balancers, and nothing is printed |
| Aws.FlattenAppend | zaws.go:167-169 | the instances of two runs of reservations are the instances of the first run followed by those of the second |
| Aws.FlattenMembership | zaws.go:167-169 | an instance is listed exactly when some reservation holds it |
| Aws.Ec2Instances | zaws.go:158-171 | a failed DescribeInstances gives its error and no list (the tool prints the error line and exits); otherwise the instances of all reservations, in order |
| Names.FirstZoneCases | zaws.go:240-245 | no zone is found exactly when no dimension is an AvailabilityZone; otherwise the zone is the value of the first such dimension |
| Names.DisplayNameCases | zaws.go:239-245 | the display name is the metric name when there is no AvailabilityZone dimension; otherwise it is the name, ".", and the first zone |
| Names.Disambiguate | zaws.go:269-275 | the dimension scan with its early break yields exactly the display name |
| Names.LastNameTagCases | zaws.go:196-200 | no value is found exactly when no tag has key Name; otherwise the value is that of the last Name tag |
| Names.NameTagValue | zaws.go:196-200 | the tag loop, in which every Name tag overwrites the name, ends with the value of the last Name tag, or "" |
| Names.InstanceNameCases | zaws.go:196-203 | an instance without a Name tag is named by its id; otherwise it is named by the value of its last Name tag, or by its id when that value is empty |
| Lld.FieldKeysDistinct | zaws.go:68-78 | the nine JSON keys of Data are pairwise distinct |
| Lld.OmitEmptyAppend | zaws.go:68-78 | encoding two groups of fields in turn gives the members of the first group followed by those of the second |
| Lld.OmitEmptyNoValues | zaws.go:68-78 | fields that are all empty encode to no members |
| Lld.LookupOmitEmpty | zaws.go:68-78 | under distinct keys, a field's key is present in the encoding exactly when its value is non-empty, and it then carries that value |
| Lld.LookupAbsent | zaws.go:68-78 | a key that is not a field key never appears in the encoding |
| Lld.OmitEmptyOrder | zaws.go:68-78 | the encoded members follow the declaration order of the fields and hold only non-empty strings |
| Lld.EncodedFields | zaws.go:68-78 | each element of the data array holds each non-empty field under its tag, and only those |
| Lld.DataRoundTrip | zaws.go:68-78 | decoding an encoded Data gives the same record back, so omitempty loses nothing |
| Lld.DocumentRoundTrip | zaws.go:87-91 | decoding the LLD document gives back every entry, in order |
| Lld.EscapeAppend | zaws.go:89 | json.Marshal escapes a string character by character: the escaped text of a concatenation is the concatenation of the escaped texts |
| Lld.EscapePercent | zaws.go:89 | escaping never adds or removes a '%': the escaped text holds one exactly when the text does |
| Lld.EscapePlain | zaws.go:89 | a text of printable characters other than '"', '\\', '<', '>', '&', U+2028 and U+2029 is written unchanged |
| Lld.EmptyDocumentText | zaws.go:87-91 | an empty listing, built with make([]Data, 0), prints as {"data":[]} and never as null |
| Records.InstanceRecords | zaws.go:191-205 | one entry per instance, in order: its name, type, id and private address (empty when absent), and nothing else |
| Records.LoadBalancerRecords | zaws.go:212-215 | one entry per load balancer, in order: its name and DNS name, and nothing else |
| Records.Ec2MetricRecords | zaws.go:221-229 | one entry per metric of the instance, in order: its own name, its namespace, and the unit of its first datapoint (empty when it has none); the lines printed are ListMetrics' error line, if any, then one per failed GetMetricStatistics, in metric order |
| Records.ElbMetricRecords | zaws.go:236-251 | the same for a load balancer, with each metric under its display name |
| Records.StatsLogsCount | zaws.go:222-223 | the statistics calls of a loop print at most one error line per metric, and none exactly when every call succeeds |
| Samples.ItemsOfMetric | zaws.go:277-286 | a metric yields one item exactly when it has datapoints. That item is keyed cloudwatch.metric[display name], with the first datapoint's Average (or its Sum when Average is absent) and timestamp |
| Samples.BatchLength | zaws.go:267-287 | the batch is never longer than the metric list, and is exactly as long when every metric has data |
| Samples.BatchAppend | zaws.go:267-287 | the batch of a concatenation of metric lists is the concatenation of their batches, so items follow metric order |
| Samples.BatchItemsSound | zaws.go:267-287 | every item in the batch is the item of some metric with data |
| Samples.BatchItemsComplete | zaws.go:267-287 | every metric with data has its item in the batch |
| Samples.CollectSamples | zaws.go:264-287 | the loop that fills send_data builds exactly the batch of the metric list, and prints the error lines of the calls that failed, in call order |
| Zaws.DefaultOptionsCases | zaws.go:41-60 | without flags the region is ap-northeast-1 and the batch goes to localhost:10051; the keys count as missing exactly when either key environment variable is empty |
| Zaws.ShowEc2List | zaws.go:188-207 | a failed DescribeInstances ends the run with its error line. Otherwise nothing else is printed before the document of the instances' entries, in order, which decodes to exactly those entries |
| Zaws.ShowElbList | zaws.go:209-217 | the error line of a failed call, if any, then the document of the load balancers' entries, in order; a failed call lists none |
| Zaws.ShowEc2MetricsList | zaws.go:219-232 | the error lines of the failed calls, in call order, then the document of one entry per metric of the InstanceId target, under the metric's own name |
| Zaws.ShowElbMetricsList | zaws.go:234-254 | the same for the LoadBalancerName target, each metric under its display name |
| Zaws.SendMetricStats | zaws.go:263-295 | after the error lines of the failed calls, the whole batch goes in one send to host:port. The run succeeds when the daemon accepts the batch and fails otherwise |
| Zaws.Dispatch | zaws.go:297-361 | fewer than two words after the program name print usage. Each mode runs for exactly its own words; "cloudwatch list rds" does nothing; any other words print usage |
| Zaws.Run | zaws.go:297-363 | usage, or nothing, as dispatched. A mode with a missing key prints the key error line and then usage (SetOption, zaws.go:57-60). Otherwise the run ends as that mode's method states |
| Printing.PrintfWithoutPercent | zaws.go:206 | Printf reproduces a format without '%' unchanged |
| Printing.PrintfPrefix | zaws.go:206 | a '%'-free prefix is printed unchanged in front of the rest |
| Printing.PrintfVerb | zaws.go:206 | a verb with no operand is printed as %!verb(MISSING), followed by the rest |
| Printing.NamedInstanceEntry | zaws.go:191-203 | an instance without a private address whose last Name tag holds a non-empty name has the entry with that name, its type and its id, whatever its other tags |
| Printing.NamedEntryMembers | zaws.go:68-78 | with a non-empty id, type and name, such an entry encodes to exactly three members, in order: name, type, id |
| Printing.NamedDocumentText | zaws.go:87-91 | with a non-empty, '%'-free id and type, the text of the document listing that entry, with "%o" in a name that has no other '%', is a '%'-free prefix, then "%o", then a '%'-free tail |
| Printing.PercentVerbMangled | zaws.go:206 | Printf does not reproduce a text whose only '%' starts "%o" |
| Printing.PercentInNameIsMangled | zaws.go:206 | as written, ShowEc2List prints a changed document when it lists one instance without a private address whose last Name tag holds a name containing "%o", whose id and type are non-empty, and where no other text of the document holds a '%' |

## Left out

- The AWS SDK (sessions, credentials, the four API calls) is outside the model. Their answers are the `Api` parameter; `Failure` stands for a call that failed and carries its error text.
- Zabbix sending (`net.ResolveTCPAddr`, `zabbix_sender.Send`) is outside the model. The daemon's answer is the `Daemon` parameter, true when the send succeeds. An address that does not resolve is not distinguished from a failed send.
- SendMetricStats: the lines printed after the send are not modelled. On failure the tool prints "[ERROR]: zabbix sender error!: " with the sender's error, on success an "[INFO]" line with the daemon's response; the model records only `Sent` or `SendFailed`, because the daemon's answer is a bool here.
- The clock is left out. The request carries only the fixed 300-second period and 10-minute window, not the absolute start and end times of `time.Now()`.
- Flag parsing and the environment (`flag.StringVar`, `os.Getenv`) are left out. Their result is the `Options` value; `DefaultOptions` records the defaults. `Options` holds the seven option fields of the `Zaws` struct. Its `AwsSession` field, assigned in `NewZaws` right after `SetOption` (zaws.go:34), is replaced by the `Api` parameter.
- The slicing of `os.Args` before `NewZaws` only feeds the flag library, so it is left out with it.
- Standard output and exit statuses are modelled as the `Outcome` of a run: the usage and key error lines, the API error lines in the order they are printed, the document, and whether the run ends with status 0 or 1.
- `strconv.FormatFloat(val, 'f', 4, 64)` is left out: a sample's value is kept as the number itself.
- Go's nil-pointer dereferences are not modelled. A missing instance type, id, unit or timestamp would panic. The model makes those fields required, and a `StatPoint` always carries an Average or a Sum.
- Lld.EscapeChar follows `json.Marshal` with HTML escaping as in Go releases before 1.22, where backspace and form feed are written \u0008 and \u000c; newer releases write them \b and \f. Invalid UTF-8 is not modelled, since a Dafny string holds characters.
- Printing.PrintfNoOperands requires every '%' to be followed by a verb or by '%'. Flags, widths, precisions and argument indexes are not modelled.
- PercentInNameIsMangled is proved for a one-instance listing of an instance without a private address, with a non-empty id and type, whose only '%' is the one in the name. Listings with several entries, an address, an empty id or type, or more '%' signs are not covered by the lemma.
- The model follows the code in these details:
  - the sum statistic applies to namespace "AWS/ELB" only;
  - the value read falls back from Average to Sum instead of failing;
  - `sum_metric_list` lists HTTPCode_ELB_5XX twice;
  - a failed ListMetrics, GetMetricStatistics or DescribeLoadBalancers call prints its error line and counts as an empty answer, while a failed DescribeInstances ends the run.

## Findings

| source | as written | input that shows it | evidently intended | confidence | as-written member | corrected member |
|---|---|---|---|---|---|---|
| zaws.go:206 | `fmt.Printf(convert_to_lldjson_string(list))` uses the JSON document as a format string, as do lines 216, 231 and 253 | an instance named "50%off" prints "50%!o(MISSING)ff" in its document | print the document verbatim, e.g. `fmt.Print`, so that the printed text decodes to the entries | high, not executed | Printing.PercentInNameIsMangled | Zaws.ShowEc2List |

The model of every listing mode prints `Render(document)` verbatim. Its contract is proved through Lld.DocumentRoundTrip: the printed document decodes to exactly the entries built.

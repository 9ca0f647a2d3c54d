/** How one "collector crawled" event is written for each backend: the
    argument record of CloudWatch's put_metric_data, and the key of a
    StatsD counter increment. Each encoder has a decoder beside it that
    recovers exactly what the encoder was given. */
module Encoding {
  import opened Wrappers

  /** The two backends a metric client can talk to. */
  datatype Backend = Aws | StatsD

  /** A naive wall-clock reading, as datetime.now() returns it. It is only
      carried into the payload, so no calendar arithmetic is modelled. */
  datatype DateTime = DateTime(year: int, month: int, day: int,
                               hour: int, minute: int, second: int, microsecond: int)

  /** One {'Name': ..., 'Value': ...} entry of a datum's Dimensions list. */
  datatype Dimension = Dimension(name: string, value: string)

  /** One entry of the MetricData list of put_metric_data. */
  datatype Datum = Datum(metricName: string, dimensions: seq<Dimension>,
                         timestamp: DateTime, value: int, unit: string)

  /** One outbound call on a backend handle. */
  datatype Call =
    | PutMetricData(namespace: string, metricData: seq<Datum>)
    | Incr(stat: string)

  /** What a CloudWatch call carries about the event. */
  datatype AwsEvent = AwsEvent(collector: string, env: string, at: DateTime)

  const Namespace: string := "Collector-Metrics"
  const MetricName: string := "collector_crawl"
  const CountUnit: string := "Count"
  const CollectorDimension: string := "collector_name"
  const EnvironmentDimension: string := "environment"
  /** The fixed head of every StatsD counter key. */
  const StatsPrefix: string := "collector_crawl."
  /** The environment a send uses when the caller names none. */
  const DefaultEnv: string := "dev"

  /** Recovers the event from a put_metric_data call, provided the call has
      exactly the shape the AWS client sends: the fixed namespace, one datum
      named collector_crawl with value 1 and unit Count, and the dimensions
      collector_name and environment in that order. */
  function DecodeAws(c: Call): Option<AwsEvent>
  {
    match c
    case Incr(_) => None
    case PutMetricData(ns, data) =>
      if ns == Namespace && |data| == 1
         && data[0].metricName == MetricName && data[0].value == 1 && data[0].unit == CountUnit
         && |data[0].dimensions| == 2
         && data[0].dimensions[0].name == CollectorDimension
         && data[0].dimensions[1].name == EnvironmentDimension
      then Some(AwsEvent(data[0].dimensions[0].value, data[0].dimensions[1].value, data[0].timestamp))
      else None
  }

  /** The put_metric_data call the AWS client makes for one crawl. */
  function AwsPayload(collector: string, env: string, now: DateTime): (c: Call)
    ensures c.PutMetricData? && c.namespace == Namespace && |c.metricData| == 1
    ensures c.metricData[0].metricName == MetricName
    ensures c.metricData[0].value == 1 && c.metricData[0].unit == CountUnit
    ensures c.metricData[0].dimensions
            == [Dimension(CollectorDimension, collector), Dimension(EnvironmentDimension, env)]
    ensures c.metricData[0].timestamp == now
    ensures DecodeAws(c) == Some(AwsEvent(collector, env, now))
  {
    PutMetricData(Namespace, [
      Datum(MetricName,
            [Dimension(CollectorDimension, collector), Dimension(EnvironmentDimension, env)],
            now, 1, CountUnit)
    ])
  }

  /** Every call DecodeAws accepts is the payload of the event it decodes to:
      the decoder accepts nothing but AWS payloads. */
  lemma DecodeAwsOnlyPayloads(c: Call, e: AwsEvent)
    requires DecodeAws(c) == Some(e)
    ensures c == AwsPayload(e.collector, e.env, e.at)
  {
    var data := c.metricData;
    var dims := data[0].dimensions;
    assert dims == [dims[0], dims[1]];
    assert data == [data[0]];
  }

  /** Two AWS payloads are equal exactly when collector, environment and
      timestamp all are: the environment reaches CloudWatch as a dimension. */
  lemma AwsPayloadInjective(c1: string, e1: string, t1: DateTime,
                            c2: string, e2: string, t2: DateTime)
    ensures AwsPayload(c1, e1, t1) == AwsPayload(c2, e2, t2)
            <==> c1 == c2 && e1 == e2 && t1 == t2
  {
  }

  /** Recovers the collector name from a StatsD counter key that starts with
      the fixed prefix. */
  function ParseStatsKey(key: string): Option<string>
  {
    if |StatsPrefix| <= |key| && key[..|StatsPrefix|] == StatsPrefix
    then Some(key[|StatsPrefix|..])
    else None
  }

  /** The StatsD counter key for a crawl of `collector`. */
  function StatsKey(collector: string): (key: string)
    ensures |key| == |StatsPrefix| + |collector|
    ensures key[..|StatsPrefix|] == StatsPrefix && key[|StatsPrefix|..] == collector
    ensures ParseStatsKey(key) == Some(collector)
  {
    StatsPrefix + collector
  }

  /** Every key ParseStatsKey accepts is the StatsD key of what it parses to. */
  lemma ParseStatsKeyOnlyKeys(key: string, collector: string)
    requires ParseStatsKey(key) == Some(collector)
    ensures StatsKey(collector) == key
  {
  }

  /** Different collectors count on different StatsD keys. */
  lemma StatsKeyInjective(c1: string, c2: string)
    ensures StatsKey(c1) == StatsKey(c2) <==> c1 == c2
  {
  }

  /** The one outbound call a client of backend `b` makes for a crawl of
      `collector` in `env` at time `now`. */
  function CallFor(b: Backend, collector: string, env: string, now: DateTime): (c: Call)
    ensures b == Aws ==> c.PutMetricData? && DecodeAws(c) == Some(AwsEvent(collector, env, now))
    ensures b == StatsD ==> c.Incr? && ParseStatsKey(c.stat) == Some(collector)
  {
    match b
    case Aws => AwsPayload(collector, env, now)
    case StatsD => Incr(StatsKey(collector))
  }

  /** A call is a well-formed crawl call of backend `b`. */
  predicate IsCrawlCall(b: Backend, c: Call)
  {
    match b
    case Aws => DecodeAws(c).Some?
    case StatsD => c.Incr? && ParseStatsKey(c.stat).Some?
  }

  /** The StatsD call drops the environment and the clock: two sends that
      differ only in those produce the same call. */
  lemma StatsCallIgnoresEnvironment(collector: string, e1: string, e2: string,
                                    t1: DateTime, t2: DateTime)
    ensures CallFor(StatsD, collector, e1, t1) == CallFor(StatsD, collector, e2, t2)
    ensures CallFor(StatsD, collector, e1, t1) == Incr(StatsKey(collector))
  {
  }

  /** The calls of the two backends never coincide, and the calls of one
      backend are well formed for that backend only. */
  lemma CallForIdentifiesBackend(b: Backend, collector: string, env: string, now: DateTime)
    ensures IsCrawlCall(b, CallFor(b, collector, env, now))
    ensures b == Aws ==> !IsCrawlCall(StatsD, CallFor(b, collector, env, now))
    ensures b == StatsD ==> !IsCrawlCall(Aws, CallFor(b, collector, env, now))
  {
  }

  /** The record the AWS client sends for collector "gitlab_crawl" with the
      default environment and the clock fixed at 2022-03-15T18:28:42.809605. */
  lemma AwsPayloadExample()
    ensures AwsPayload("gitlab_crawl", DefaultEnv, DateTime(2022, 3, 15, 18, 28, 42, 809605))
            == PutMetricData("Collector-Metrics", [
                 Datum("collector_crawl",
                       [Dimension("collector_name", "gitlab_crawl"),
                        Dimension("environment", "dev")],
                       DateTime(2022, 3, 15, 18, 28, 42, 809605), 1, "Count")])
  {
  }

  /** The StatsD key for collector "gitlab_crawl". */
  lemma StatsKeyExample()
    ensures StatsKey("gitlab_crawl") == "collector_crawl.gitlab_crawl"
  {
  }
}

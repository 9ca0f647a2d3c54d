# Collector-crawl metrics factory, modelled in Dafny

The system emits a single kind of operational metric, "collector X crawled
in environment E". It can send it through one of two backends: AWS
CloudWatch or a StatsD daemon. A *creator* (`AwsCreator`, `StatsDCreator`)
builds the matching *metric client*. The client creates its backend
connection handle lazily, on the first read of its `client` property, and
reuses it afterwards. Each emission becomes exactly one outbound call on
that handle:
- a `put_metric_data` record for CloudWatch;
- an `incr` of the key `collector_crawl.<collector>` for StatsD.

The project has three modules:

- `Wrappers` (`wrappers.dfy`): `Option`, `Result` and `Outcome` values. They stand for an
  attribute that is not yet set and for calls that raise.
- `Encoding` (`encoding.dfy`, pure): the outbound call records, with
  - the CloudWatch payload `AwsPayload` and the StatsD key `StatsKey`;
  - `CallFor`, which picks between them by backend;
  - the decoders `DecodeAws` and `ParseStatsKey`, which are the inverses of
    the two encoders. The round trips are proved in both directions.
- `MetricsFactory` (`metrics_factory.dfy`, mixed):
  - one client's state as a value (`ClientState`), its invariant `Inv`, and
    the transitions `Access` (the `client` property) and `Emit`
    (`send_collector_metric`);
  - `Run`, which applies a sequence of operations, with induction lemmas
    showing that the handle is never constructed twice and that, once the
    handle exists, the log grows by exactly each send's own call, in order;
  - the mutable class `MetricClient`. Its field `handle` is the lazily set
    `_client` attribute, and `log` records the outbound calls. Its methods
    are specified by `Access` and `Emit`;
  - the creators, with `FactoryClient` and `SendCollectorCrawlMetric`.

The two Python client classes become one class, `MetricClient`, with a
`backend` field of the closed datatype `Backend = Aws | StatsD`. The two
creator classes become the datatype `Creator`. Python's
`try: return self._client except AttributeError:` becomes a match on an
`Option` field.

The environment's answers are parameters of the operations:
- the clock (`datetime.now()`) is the parameter `now`;
- the foreign handle constructor (`boto3.client('cloudwatch')`, `StatsClient()`)
  is `connect`: a fresh handle identity, or the error it raises;
- the backend's answer to the outbound call is `reply`.

A construction failure surfaces as `ConnectionError` and a backend failure
as `BackendError`, both unmodified. The environment name defaults to
`"dev"` (`DefaultEnv`) on both `SendCollectorCrawlMetric` and
`MetricClient.SendCollectorMetric`, as in the source.

Further details of the model:
- The unit is the string `"Count"`, as `metrics/metrics_factory.py:119` writes it.
- No operation requires a non-empty collector name; the code never checks it.
- The construction counter `constructions` is a ghost field. The source keeps
  no such counter; it exists only to state that the handle is built once.

## Model

| member | source | states |
|---|---|---|
| `Encoding.AwsPayload` | metrics/metrics_factory.py:102-122 | The CloudWatch call has namespace `Collector-Metrics` and exactly one datum. The datum has metric name `collector_crawl`, dimensions `[collector_name = collector, environment = env]` in that order, timestamp equal to the clock value passed in, value 1 and unit `Count`. `DecodeAws` recovers (collector, env, timestamp) from it. |
| `Encoding.DecodeAwsOnlyPayloads` | metrics/metrics_factory.py:103-121 | Converse of the round trip: every call `DecodeAws` accepts equals `AwsPayload` of what it decodes to. |
| `Encoding.AwsPayloadInjective` | metrics/metrics_factory.py:107-117 | Two AWS payloads are equal exactly when collector, environment and timestamp are all equal. The environment is carried as a dimension. |
| `Encoding.StatsKey` | metrics/metrics_factory.py:141 | The StatsD key is `collector_crawl.` followed by the collector name, character for character. `ParseStatsKey` gives back the collector name. |
| `Encoding.ParseStatsKeyOnlyKeys` | metrics/metrics_factory.py:141 | Converse of the round trip: every key `ParseStatsKey` accepts is the `StatsKey` of what it parses to. |
| `Encoding.StatsKeyInjective` | metrics/metrics_factory.py:141 | Two collectors get the same StatsD key exactly when they are the same collector. |
| `Encoding.CallFor` | metrics/metrics_factory.py:98-141 | The AWS backend's call is a `put_metric_data` that decodes to (collector, env, now). The StatsD backend's call is an `incr` whose key parses back to the collector. |
| `Encoding.StatsCallIgnoresEnvironment` | metrics/metrics_factory.py:137-141 | Two StatsD sends that differ only in environment or clock produce the identical `incr(StatsKey(collector))` call. |
| `Encoding.CallForIdentifiesBackend` | metrics/metrics_factory.py:98-141 | A backend's call is a well-formed crawl call of that backend and never of the other one. |
| `Encoding.AwsPayloadExample` | tests/test_metrics.py:36-69 | For `gitlab_crawl`, the default environment and the clock at 2022-03-15T18:28:42.809605, the payload is exactly the record the test expects. |
| `Encoding.StatsKeyExample` | tests/test_metrics.py:71-82 | `gitlab_crawl` gives the key `collector_crawl.gitlab_crawl`. |
| `MetricsFactory.NewHandle` | metrics/metrics_factory.py:90-135 | The AWS client constructs a CloudWatch handle and the StatsD client a StatsClient handle. The handle's identity is the one the constructor gave. |
| `MetricsFactory.Initial` | metrics/metrics_factory.py:46-59 | A newly built client has no handle, no constructions and no calls, and satisfies the client invariant. |
| `MetricsFactory.Access` | metrics/metrics_factory.py:90-135 | Reading `client` keeps the invariant and sends nothing. With a handle: returns it and changes nothing. Without one: calls the constructor; on success keeps and returns the new handle and counts one construction; when the constructor raises, returns `ConnectionError` and keeps nothing. |
| `MetricsFactory.Answer` | metrics/metrics_factory.py:102-122 | A backend refusal reaches the caller as `BackendError` with the backend's reason; an accepted call reaches it as `Pass`. |
| `MetricsFactory.Emit` | metrics/metrics_factory.py:98-141 | If the handle cannot be constructed, the state is unchanged and `ConnectionError` is raised. Otherwise exactly one `CallFor(backend, collector, env, now)` is appended and the backend's reply is surfaced. Once a handle exists, only the log changes. The invariant is preserved. |
| `MetricsFactory.AccessTwiceSameHandle` | metrics/metrics_factory.py:90-135 | After a successful read of `client`, a second read returns the identical handle and constructs nothing, whatever the constructor would do. |
| `MetricsFactory.Step` | metrics/metrics_factory.py:90-141 | One read or send keeps the invariant and the backend, and only extends the log: a read never adds a call, a send adds at most one. With a handle already present, it keeps the handle, and a send adds exactly its own `CallFor`. Every added call is a crawl call of the client's backend. |
| `MetricsFactory.RunKeepsInv` | metrics/metrics_factory.py:90-135 | Any sequence of reads and sends keeps the invariant and the backend, so a client never constructs more than one handle. |
| `MetricsFactory.RunKeepsHandle` | metrics/metrics_factory.py:90-135 | Once a handle exists, no sequence of operations replaces it or constructs another. |
| `MetricsFactory.Calls` | metrics/metrics_factory.py:98-141 | The calls a run's sends produce, one `CallFor` per send in order and none per read; there are exactly as many as there are sends. |
| `MetricsFactory.RunLog` | metrics/metrics_factory.py:98-141 | A run only appends to the log, at most one call per send (never batching). Once a handle exists, the log grows by exactly `Calls` of the run: each send's own call, in order (never deduplicating). Every appended call is a crawl call of the client's backend. |
| `MetricsFactory.MetricClient.constructor` | metrics/metrics_factory.py:87-88 | A new client of the given backend has no `_client` handle yet and an empty log. |
| `MetricsFactory.MetricClient.Client` | metrics/metrics_factory.py:129-135 | The `client` property updates the object exactly as `Access` says, and keeps the invariant. An existing handle is returned unchanged with no new construction. A returned handle is the stored one and talks to the client's backend. |
| `MetricsFactory.MetricClient.SendCollectorMetric` | metrics/metrics_factory.py:98-141 | Reads the handle first. If that fails, nothing is logged and `ConnectionError` is returned. Otherwise the log grows by exactly `CallFor(backend, collector, env, now)` and the reply is surfaced. The environment defaults to `"dev"`. |
| `MetricsFactory.FactoryClient` | metrics/metrics_factory.py:46-59 | `AwsCreator` yields a new client of backend `Aws`, and `StatsDCreator` a new client of backend `StatsD`, with no handle and nothing sent. |
| `MetricsFactory.SendCollectorCrawlMetric` | metrics/metrics_factory.py:24-43 | Builds one new client and forwards the collector and environment unchanged; the environment defaults to `"dev"`. Since the client is new, the handle is always constructed. If that fails, nothing is sent. Otherwise exactly the one call `CallFor(creator's backend, collector, env, now)` is sent. |

## Left out

- The internals of `boto3` and `statsd.StatsClient` are not modelled: region,
  credential and host/port resolution, the network, and the wire formats.
  They are foreign libraries doing I/O. A handle is an identity, the
  constructor's effect is the parameter `connect`, and the backend's answer
  is the parameter `reply`.
- `datetime.now()` is a wall-clock read, so it is the parameter `now`. The
  source reads the clock after it reads the handle; the model does not
  record that order.
- `StatsClient.incr` also takes a count and a sample rate. The source leaves
  both at their defaults (1 and 1), so `Incr` records only the key.
- The response dictionary that `put_metric_data` returns is dropped, as the
  source drops it.
- Python's `ABC`/`abstractmethod` machinery is not modelled: the client and
  creator variants form closed datatypes (`Backend`, `Creator`). The abstract
  base methods at `metrics/metrics_factory.py:19-22` and `67-83` have no
  body of their own.
- Thread-safety of the lazy initialisation is not modelled. The source
  provides none, and concurrency is out of scope.
- Only successful handle constructions are counted. A constructor that
  raises leaves no handle, so the next read tries again, as in the source.

/** The metric clients and their creators. A client owns one backend handle,
    created on first use and reused afterwards, and turns each crawl event
    into one outbound call on it. The outbound calls are recorded in a log
    that stands in for the backend. What the foreign constructor of the
    handle (boto3.client, statsd.StatsClient) and the backend answer is
    passed in as a parameter. */
module MetricsFactory {
  import opened Wrappers
  import opened Encoding

  /** Identity of a handle object handed out by the foreign library. */
  type HandleId = nat

  /** A backend connection handle: a boto3 CloudWatch client or a StatsD
      StatsClient. */
  datatype Handle = CloudWatchClient(id: HandleId) | StatsClient(id: HandleId)
  {
    /** The backend this handle talks to. */
    function Kind(): Backend
    {
      if CloudWatchClient? then Aws else StatsD
    }
  }

  /** The errors that reach the caller unmodified. */
  datatype Error =
    | ConnectionError(reason: string)  // the handle could not be constructed
    | BackendError(reason: string)     // the backend refused the call

  /** What the foreign handle constructor does when called: it hands back a
      new handle identity, or raises. */
  type Connect = Result<HandleId, string>

  /** What the backend answers to an outbound call. */
  type Reply = Outcome<string>

  /** The handle that the client of backend `b` constructs. */
  function NewHandle(b: Backend, id: HandleId): (h: Handle)
    ensures h.Kind() == b && h.id == id
  {
    match b
    case Aws => CloudWatchClient(id)
    case StatsD => StatsClient(id)
  }

  /** The state of one client, as a value: its backend, its memoised handle
      (absent until first access), the number of handles it has constructed,
      and the calls it has made. */
  datatype ClientState = ClientState(backend: Backend, handle: Option<Handle>,
                                     constructions: nat, log: seq<Call>)

  /** The client invariant: a handle talks to the client's own backend, and
      exactly one handle has been constructed once a handle exists, none
      before. */
  predicate Inv(s: ClientState)
  {
    && (s.handle.Some? ==> s.handle.value.Kind() == s.backend)
    && s.constructions == (if s.handle.Some? then 1 else 0)
  }

  /** A client just built by a creator. */
  function Initial(b: Backend): (s: ClientState)
    ensures Inv(s) && s.backend == b
    ensures s.handle == None && s.constructions == 0 && s.log == []
  {
    ClientState(b, None, 0, [])
  }

  /** Reading the `client` property: the memoised handle if there is one,
      otherwise the result of constructing one, which is kept on success. */
  function Access(s: ClientState, connect: Connect): (r: (ClientState, Result<Handle, Error>))
    ensures Inv(s) ==> Inv(r.0)
    ensures r.0.backend == s.backend && r.0.log == s.log
    // an existing handle is returned as it is and nothing is constructed
    ensures s.handle.Some? ==> r.0 == s && r.1 == Success(s.handle.value)
    // otherwise the constructor is called once; on success its handle is kept
    ensures s.handle.None? && connect.Success? ==>
              r.1 == Success(NewHandle(s.backend, connect.value))
              && r.0.handle == Some(r.1.value) && r.0.constructions == s.constructions + 1
    // and when it raises, the error reaches the caller and nothing is kept
    ensures s.handle.None? && connect.Failure? ==>
              r.0 == s && r.1 == Failure(ConnectionError(connect.error))
  {
    match s.handle
    case Some(h) => (s, Success(h))
    case None =>
      match connect
      case Success(id) =>
        var h := NewHandle(s.backend, id);
        (s.(handle := Some(h), constructions := s.constructions + 1), Success(h))
      case Failure(m) => (s, Failure(ConnectionError(m)))
  }

  /** The caller-visible outcome of a call the backend answered with `reply`. */
  function Answer(reply: Reply): (o: Outcome<Error>)
    ensures reply.Pass? <==> o.Pass?
    ensures reply.Fail? ==> o == Fail(BackendError(reply.error))
  {
    match reply
    case Pass => Pass
    case Fail(m) => Fail(BackendError(m))
  }

  /** send_collector_metric: read the handle first; if that raises, nothing
      is sent; otherwise make exactly one call on it. */
  function Emit(s: ClientState, connect: Connect, collector: string, env: string,
                now: DateTime, reply: Reply): (r: (ClientState, Outcome<Error>))
    ensures Inv(s) ==> Inv(r.0)
    ensures r.0.backend == s.backend
    ensures r.0.handle == Access(s, connect).0.handle
    ensures r.0.constructions == Access(s, connect).0.constructions
    // the handle could not be constructed: no call, the connection error is raised
    ensures s.handle.None? && connect.Failure? ==>
              r.0 == s && r.1 == Fail(ConnectionError(connect.error))
    // a handle exists or was just built: one call appended, the reply surfaced
    ensures s.handle.Some? || connect.Success? ==>
              r.0.log == s.log + [CallFor(s.backend, collector, env, now)]
              && r.1 == Answer(reply)
    // once a handle exists, a send changes nothing but the log
    ensures s.handle.Some? ==>
              r.0 == s.(log := s.log + [CallFor(s.backend, collector, env, now)])
  {
    var (s1, h) := Access(s, connect);
    match h
    case Failure(e) => (s1, Fail(e))
    case Success(_) =>
      (s1.(log := s1.log + [CallFor(s1.backend, collector, env, now)]), Answer(reply))
  }

  /** Reading the handle twice: the second read returns what the first did and
      constructs nothing, whatever the constructor would have done. */
  lemma AccessTwiceSameHandle(s: ClientState, c1: Connect, c2: Connect)
    requires Access(s, c1).1.Success?
    ensures Access(Access(s, c1).0, c2) == Access(s, c1)
  {
  }

  /** One thing a caller does with one client. */
  datatype Op =
    | ReadClient(connect: Connect)
    | SendMetric(connect: Connect, collector: string, env: string, now: DateTime, reply: Reply)

  /** The state of a client after one operation. */
  function Step(s: ClientState, op: Op): (s': ClientState)
    ensures Inv(s) ==> Inv(s')
    ensures s'.backend == s.backend && s.log <= s'.log
    ensures op.ReadClient? ==> s'.log == s.log
    ensures op.SendMetric? ==> |s'.log| <= |s.log| + 1
    ensures s.handle.Some? ==> s'.handle == s.handle && s'.constructions == s.constructions
    ensures s.handle.Some? && op.SendMetric? ==>
              s'.log == s.log + [CallFor(s.backend, op.collector, op.env, op.now)]
    ensures forall i :: |s.log| <= i < |s'.log| ==> IsCrawlCall(s.backend, s'.log[i])
  {
    match op
    case ReadClient(c) => Access(s, c).0
    case SendMetric(c, coll, env, now, reply) =>
      CallForIdentifiesBackend(s.backend, coll, env, now);
      Emit(s, c, coll, env, now, reply).0
  }

  /** The state of a client after the operations `ops`, in order. */
  function Run(s: ClientState, ops: seq<Op>): ClientState
    decreases |ops|
  {
    if ops == [] then s else Run(Step(s, ops[0]), ops[1..])
  }

  /** The number of sends among `ops`. */
  function Sends(ops: seq<Op>): nat
    decreases |ops|
  {
    if ops == [] then 0 else (if ops[0].SendMetric? then 1 else 0) + Sends(ops[1..])
  }

  /** The calls a client of backend `b` makes for the sends among `ops`, in
      order, once its handle exists: one `CallFor` per send, none per read. */
  function Calls(b: Backend, ops: seq<Op>): (calls: seq<Call>)
    ensures |calls| == Sends(ops)
    decreases |ops|
  {
    if ops == [] then []
    else
      var head := match ops[0]
        case ReadClient(_) => []
        case SendMetric(_, coll, env, now, _) => [CallFor(b, coll, env, now)];
      head + Calls(b, ops[1..])
  }

  /** Any run keeps the client invariant; in particular a client never
      constructs more than one handle, and it never changes backend. */
  lemma {:induction false} RunKeepsInv(s: ClientState, ops: seq<Op>)
    requires Inv(s)
    ensures Inv(Run(s, ops)) && Run(s, ops).constructions <= 1
    ensures Run(s, ops).backend == s.backend
    decreases |ops|
  {
    if ops != [] {
      var s1 := Step(s, ops[0]);
      RunKeepsInv(s1, ops[1..]);
    }
  }

  /** Once a handle exists, no run replaces it or constructs another. */
  lemma {:induction false} RunKeepsHandle(s: ClientState, ops: seq<Op>)
    requires s.handle.Some?
    ensures Run(s, ops).handle == s.handle
    ensures Run(s, ops).constructions == s.constructions
    decreases |ops|
  {
    if ops != [] {
      var s1 := Step(s, ops[0]);
      RunKeepsHandle(s1, ops[1..]);
    }
  }

  /** A run only appends to the log, at most one call per send and nothing
      for a read. Once a handle exists, it appends exactly the calls of its
      sends, in order. Every appended call is a crawl call of the client's
      backend. */
  lemma {:induction false} RunLog(s: ClientState, ops: seq<Op>)
    ensures s.log <= Run(s, ops).log
    ensures |Run(s, ops).log| <= |s.log| + Sends(ops)
    ensures s.handle.Some? ==> Run(s, ops).log == s.log + Calls(s.backend, ops)
    ensures forall i :: |s.log| <= i < |Run(s, ops).log| ==> IsCrawlCall(s.backend, Run(s, ops).log[i])
    decreases |ops|
  {
    if ops != [] {
      var s1 := Step(s, ops[0]);
      RunLog(s1, ops[1..]);
      if s.handle.Some? {
        assert s1.log == s.log + Calls(s.backend, ops[..1]);
        assert Calls(s.backend, ops) == Calls(s.backend, ops[..1]) + Calls(s.backend, ops[1..]);
      }
    }
  }

  /** A metric client: AwsMetricClient or StatsDMetricClient, told apart by
      `backend`. `handle` is the lazily created `_client` attribute. */
  class MetricClient {
    const backend: Backend
    var handle: Option<Handle>
    ghost var constructions: nat
    var log: seq<Call>

    /** The client's state as a value. */
    ghost function State(): ClientState
      reads this
    {
      ClientState(backend, handle, constructions, log)
    }

    ghost predicate Valid()
      reads this
    {
      Inv(State())
    }

    /** A client with no handle yet and nothing sent. */
    constructor (b: Backend)
      ensures Valid() && State() == Initial(b)
    {
      backend := b;
      handle := None;
      constructions := 0;
      log := [];
    }

    /** The `client` property: returns the memoised handle, constructing it
        through `connect` only when there is none. */
    method Client(connect: Connect) returns (r: Result<Handle, Error>)
      requires Valid()
      modifies this
      ensures Valid()
      ensures (State(), r) == Access(old(State()), connect)
      ensures old(handle).Some? ==>
                r == Success(old(handle).value) && handle == old(handle)
                && constructions == old(constructions)
      ensures r.Success? ==> handle == Some(r.value) && r.value.Kind() == backend
      ensures constructions <= 1 && log == old(log)
    {
      match handle {
        case Some(h) =>
          r := Success(h);
        case None =>
          match connect {
            case Success(id) =>
              var h := NewHandle(backend, id);
              handle := Some(h);
              constructions := constructions + 1;
              r := Success(h);
            case Failure(m) =>
              r := Failure(ConnectionError(m));
          }
      }
    }

    /** send_collector_metric: gets the handle, then makes one call on it.
        `now` is the clock reading, `connect` what the handle constructor
        does if it is called, `reply` what the backend answers. */
    method SendCollectorMetric(collector: string, env: string := DefaultEnv,
                               now: DateTime, connect: Connect, reply: Reply)
      returns (outcome: Outcome<Error>)
      requires Valid()
      modifies this
      ensures Valid()
      ensures (State(), outcome) == Emit(old(State()), connect, collector, env, now, reply)
      ensures old(handle).None? && connect.Failure? ==>
                log == old(log) && outcome == Fail(ConnectionError(connect.error))
      ensures old(handle).Some? || connect.Success? ==>
                log == old(log) + [CallFor(backend, collector, env, now)]
                && outcome == Answer(reply)
      ensures old(handle).Some? ==> handle == old(handle) && constructions == old(constructions)
    {
      var h := Client(connect);
      if h.Failure? {
        outcome := Fail(h.error);
        return;
      }
      log := log + [CallFor(backend, collector, env, now)];
      outcome := Answer(reply);
    }
  }

  /** The two creators, AwsCreator and StatsDCreator. */
  datatype Creator = AwsCreator | StatsDCreator

  /** The backend of the clients a creator builds. */
  function CreatorBackend(c: Creator): Backend
  {
    match c
    case AwsCreator => Aws
    case StatsDCreator => StatsD
  }

  /** factory_client: a new client of the creator's backend. */
  method FactoryClient(creator: Creator) returns (client: MetricClient)
    ensures fresh(client) && client.Valid()
    ensures client.State() == Initial(CreatorBackend(creator))
    ensures creator == AwsCreator ==> client.backend == Aws
    ensures creator == StatsDCreator ==> client.backend == StatsD
  {
    client := new MetricClient(CreatorBackend(creator));
  }

  /** send_collector_crawl_metric: builds one new client and forwards the
      collector name and environment to it unchanged. `sent` is what that
      client sent. Because the client is new, its handle is always
      constructed, so `connect` decides whether anything is sent. */
  method SendCollectorCrawlMetric(creator: Creator, collector: string, env: string := DefaultEnv,
                                  now: DateTime, connect: Connect, reply: Reply)
    returns (outcome: Outcome<Error>, sent: seq<Call>)
    ensures (sent, outcome) == (Emit(Initial(CreatorBackend(creator)), connect, collector, env, now, reply).0.log,
                                Emit(Initial(CreatorBackend(creator)), connect, collector, env, now, reply).1)
    ensures connect.Failure? ==> sent == [] && outcome == Fail(ConnectionError(connect.error))
    ensures connect.Success? ==>
              sent == [CallFor(CreatorBackend(creator), collector, env, now)] && outcome == Answer(reply)
  {
    var client := FactoryClient(creator);
    outcome := client.SendCollectorMetric(collector, env, now, connect, reply);
    sent := client.log;
  }
}

/**
 * The metrics service of the docker monitor: per-container CPU and memory
 * percentages derived from the runtime's statistics snapshot, the result
 * dictionary for one container, the fan-out over all running containers and
 * the translation of runtime errors into HTTP status codes.
 *
 * Calls into the Docker client are not modelled; what they return (a value or
 * the exception they raise) is an input, the `DockerClient` record.
 */
module Metrics {
  import opened Options

  /** Upper bound on the worker pool of the bulk query. */
  const MaxThreadPoolSize: nat := 25

  /** The status string for which usage statistics are fetched. */
  const Running: string := "running"

  // ---------------------------------------------------------------------------
  // Statistics snapshot and the two derived percentages

  /** One CPU sample: cumulative container CPU time, per-core cumulative times, cumulative system time. */
  datatype CpuSample = CpuSample(totalUsage: int, perCpuUsage: seq<int>, systemCpuUsage: int)

  /**
   * The statistics the runtime returns for one container: the current CPU
   * sample, the previous one, and the memory usage and limit in bytes.
   */
  datatype StatSnapshot = StatSnapshot(cpuStats: CpuSample, precpuStats: CpuSample, memUsage: int, memLimit: int)

  /** CPU time the container consumed between the two samples. */
  function CpuDelta(data: StatSnapshot): int {
    data.cpuStats.totalUsage - data.precpuStats.totalUsage
  }

  /** System CPU time that elapsed between the two samples. */
  function SystemDelta(data: StatSnapshot): int {
    data.cpuStats.systemCpuUsage - data.precpuStats.systemCpuUsage
  }

  /** Number of cores: the length of the current sample's per-core list. */
  function CpuCount(data: StatSnapshot): nat {
    |data.cpuStats.perCpuUsage|
  }

  /**
   * CPU usage in percent, scaled by the number of cores. Zero when no system
   * time elapsed; otherwise the share of system time the container used,
   * times 100 and times the core count. A decreasing CPU counter is not
   * clamped: it gives a negative percentage.
   */
  function CpuPercent(data: StatSnapshot): (r: real)
    ensures SystemDelta(data) <= 0 ==> r == 0.0
    ensures SystemDelta(data) > 0 ==>
      r * SystemDelta(data) as real == CpuDelta(data) as real * 100.0 * CpuCount(data) as real
    ensures CpuDelta(data) >= 0 ==> r >= 0.0
    ensures SystemDelta(data) > 0 && CpuDelta(data) < 0 && CpuCount(data) > 0 ==> r < 0.0
  {
    var cpuCount := CpuCount(data) as real;
    var cpuDelta := CpuDelta(data) as real;
    var systemDelta := SystemDelta(data) as real;
    if systemDelta > 0.0 then
      ScaledShareSign(cpuDelta, systemDelta, cpuCount);
      cpuDelta / systemDelta * 100.0 * cpuCount
    else
      0.0
  }

  /** Sign and cross-multiplied form of `part / whole * 100 * scale`. */
  lemma ScaledShareSign(part: real, whole: real, scale: real)
    requires whole > 0.0 && scale >= 0.0
    ensures (part / whole * 100.0 * scale) * whole == part * 100.0 * scale
    ensures part >= 0.0 ==> part / whole * 100.0 * scale >= 0.0
    ensures part < 0.0 && scale > 0.0 ==> part / whole * 100.0 * scale < 0.0
  {
    var q := part / whole;
    assert q * whole == part;
    assert part >= 0.0 ==> q >= 0.0;
    assert part < 0.0 ==> q < 0.0;
  }

  /**
   * Memory usage in percent of the limit; zero when the limit is not
   * positive. Within the limit it lies between 0 and 100.
   */
  function MemPercent(data: StatSnapshot): (r: real)
    ensures data.memLimit <= 0 ==> r == 0.0
    ensures data.memLimit > 0 ==> r * data.memLimit as real == data.memUsage as real * 100.0
    ensures 0 <= data.memUsage <= data.memLimit ==> 0.0 <= r <= 100.0
  {
    var memUsage := data.memUsage as real;
    var memLimit := data.memLimit as real;
    if memLimit > 0.0 then
      ScaledShareSign(memUsage, memLimit, 1.0);
      assert memUsage <= memLimit ==> memUsage / memLimit <= 1.0;
      memUsage / memLimit * 100.0
    else
      0.0
  }

  /** The two worked figures: 100/100 of two cores is 200 percent; 512 MB of 1024 MB is 50 percent. */
  lemma WorkedFigures()
    ensures CpuPercent(StatSnapshot(CpuSample(200, [0, 0], 1100), CpuSample(100, [], 1000), 0, 0)) == 200.0
    ensures MemPercent(StatSnapshot(CpuSample(0, [], 0), CpuSample(0, [], 0), 512000000, 1024000000)) == 50.0
  {
  }

  // ---------------------------------------------------------------------------
  // Exceptions and the except clauses that catch them

  /**
   * What a Docker client call can raise: `NotFound` (a subclass of the
   * client's `APIError`), any other `APIError`, the HTTP library's
   * `ReadTimeout`, or an exception none of the handlers name.
   */
  datatype ClientError = NotFound | OtherApiError | ReadTimeout | Unexpected

  /** The exception classes named in except clauses. */
  datatype ExceptionClass = NotFoundClass | ApiErrorClass | ReadTimeoutClass

  /** Whether an exception is an instance of a class (NotFound is also an APIError). */
  predicate IsInstance(e: ClientError, cls: ExceptionClass) {
    match cls
    case NotFoundClass => e == NotFound
    case ApiErrorClass => e == NotFound || e == OtherApiError
    case ReadTimeoutClass => e == ReadTimeout
  }

  /** An except clause that answers with an HTTP abort code. */
  datatype Clause = Clause(catches: ExceptionClass, code: int)

  /**
   * The code of the first clause, in order, that catches `e`; none when no
   * clause does, in which case the exception propagates.
   */
  function Dispatch(clauses: seq<Clause>, e: ClientError): (r: Option<int>)
    ensures r.None? <==> forall i :: 0 <= i < |clauses| ==> !IsInstance(e, clauses[i].catches)
    ensures r.Some? ==>
      exists i :: 0 <= i < |clauses| && IsInstance(e, clauses[i].catches) && r.value == clauses[i].code &&
        forall j :: 0 <= j < i ==> !IsInstance(e, clauses[j].catches)
  {
    if clauses == [] then None
    else if IsInstance(e, clauses[0].catches) then Some(clauses[0].code)
    else
      var r := Dispatch(clauses[1..], e);
      assert forall i :: 1 <= i < |clauses| ==> clauses[i] == clauses[1..][i - 1];
      r
  }

  /** The except clauses around one container's query, in source order. */
  const ContainerClauses: seq<Clause> :=
    [Clause(NotFoundClass, 404), Clause(ReadTimeoutClass, 408), Clause(ApiErrorClass, 500)]

  /** The except clauses around the container listing, in source order. */
  const ListingClauses: seq<Clause> :=
    [Clause(ReadTimeoutClass, 408), Clause(ApiErrorClass, 500)]

  /** What a handler gives back: its value, an HTTP abort, or an exception it let through. */
  datatype Outcome<+T> = Done(value: T) | Aborted(code: int) | Raised(error: ClientError)

  /** The outcome of an exception raised inside a try guarded by `clauses`. */
  function Handle<T>(clauses: seq<Clause>, e: ClientError): Outcome<T> {
    match Dispatch(clauses, e)
    case Some(code) => Aborted(code)
    case None => Raised(e)
  }

  /**
   * Error mapping for one container: NotFound gives 404 although it is also
   * an APIError, because its clause comes first; ReadTimeout 408; any other
   * APIError 500; anything else propagates.
   */
  lemma ContainerErrorCodes()
    ensures Handle<int>(ContainerClauses, NotFound) == Aborted(404)
    ensures Handle<int>(ContainerClauses, ReadTimeout) == Aborted(408)
    ensures Handle<int>(ContainerClauses, OtherApiError) == Aborted(500)
    ensures Handle<int>(ContainerClauses, Unexpected) == Raised(Unexpected)
  {
  }

  /**
   * Error mapping for the listing: ReadTimeout gives 408 and every APIError,
   * NotFound included, gives 500; anything else propagates.
   */
  lemma ListingErrorCodes()
    ensures Handle<int>(ListingClauses, ReadTimeout) == Aborted(408)
    ensures Handle<int>(ListingClauses, NotFound) == Aborted(500)
    ensures Handle<int>(ListingClauses, OtherApiError) == Aborted(500)
    ensures Handle<int>(ListingClauses, Unexpected) == Raised(Unexpected)
  {
  }

  // ---------------------------------------------------------------------------
  // The Docker client as seen by the handler

  /** A container as returned by the client: its name and its status string. */
  datatype Container = Container(name: string, status: string)

  /**
   * The answers of the Docker client: the running containers (or the error the
   * listing raises), the container a name resolves to, and a container's
   * statistics, each possibly an exception.
   */
  datatype DockerClient = DockerClient(
    listRunning: Result<seq<Container>, ClientError>,
    get: string -> Result<Container, ClientError>,
    stats: string -> Result<StatSnapshot, ClientError>)

  /** One entry of a container's metrics dictionary. */
  datatype Field = Status(status: string) | Percent(percent: real)

  /** A metrics dictionary: container name to its entries, keyed "status", "cpu" and "mem". */
  type MetricsDict = map<string, map<string, Field>>

  /**
   * The result of querying one container, as a function of what the client
   * answers: the dictionary keyed by the container's own name, or the outcome
   * of the first exception.
   */
  function Poll(client: DockerClient, name: string): Outcome<MetricsDict> {
    match client.get(name)
    case Err(e) => Handle(ContainerClauses, e)
    case Ok(c) =>
      if c.status == Running then
        match client.stats(c.name)
        case Err(e) => Handle(ContainerClauses, e)
        case Ok(data) =>
          Done(map[c.name := map["status" := Status(c.status), "cpu" := Percent(CpuPercent(data)),
                                 "mem" := Percent(MemPercent(data))]])
      else
        Done(map[c.name := map["status" := Status(c.status)]])
  }

  /**
   * Shape of a successful query: one key, the container's name; its entry
   * always holds the status, and holds cpu and mem exactly when the status is
   * running, with the derived percentages.
   */
  lemma PollShape(client: DockerClient, name: string)
    requires Poll(client, name).Done?
    ensures client.get(name).Ok?
    ensures var c := client.get(name).value;
      var m := Poll(client, name).value;
      m.Keys == {c.name} &&
      m[c.name]["status"] == Status(c.status) &&
      ("cpu" in m[c.name] <==> c.status == Running) &&
      ("mem" in m[c.name] <==> c.status == Running) &&
      m[c.name].Keys <= {"status", "cpu", "mem"} &&
      (c.status == Running ==>
        client.stats(c.name).Ok? &&
        m[c.name]["cpu"] == Percent(CpuPercent(client.stats(c.name).value)) &&
        m[c.name]["mem"] == Percent(MemPercent(client.stats(c.name).value)))
  {
  }

  /**
   * A query fails exactly when resolving the name raises, or the container
   * runs and fetching its statistics raises; either failure is that
   * exception passed through the container's except clauses.
   */
  lemma PollFailure(client: DockerClient, name: string)
    ensures !Poll(client, name).Done? <==>
      client.get(name).Err? ||
      (client.get(name).value.status == Running && client.stats(client.get(name).value.name).Err?)
    ensures client.get(name).Err? ==> Poll(client, name) == Handle(ContainerClauses, client.get(name).error)
    ensures (client.get(name).Ok? && client.get(name).value.status == Running &&
             client.stats(client.get(name).value.name).Err?) ==>
      Poll(client, name) == Handle(ContainerClauses, client.stats(client.get(name).value.name).error)
  {
  }

  /**
   * Queries one container, building its dictionary key by key as the handler
   * does: the entry, its status, then cpu and mem for a running container.
   */
  method GetMetricsByContainer(client: DockerClient, name: string) returns (r: Outcome<MetricsDict>)
    ensures r == Poll(client, name)
  {
    var metrics: MetricsDict := map[];
    var found := client.get(name);
    if found.Err? {
      return Handle(ContainerClauses, found.error);
    }
    var container := found.value;
    metrics := metrics[container.name := map[]];
    metrics := metrics[container.name := metrics[container.name]["status" := Status(container.status)]];
    if container.status == Running {
      var data := client.stats(container.name);
      if data.Err? {
        return Handle(ContainerClauses, data.error);
      }
      metrics := metrics[container.name := metrics[container.name]["cpu" := Percent(CpuPercent(data.value))]];
      metrics := metrics[container.name := metrics[container.name]["mem" := Percent(MemPercent(data.value))]];
      assert metrics[container.name] == map["status" := Status(container.status),
        "cpu" := Percent(CpuPercent(data.value)), "mem" := Percent(MemPercent(data.value))];
    } else {
      assert metrics[container.name] == map["status" := Status(container.status)];
    }
    assert metrics.Keys == {container.name};
    assert Poll(client, name).value[container.name] == metrics[container.name];
    assert Poll(client, name).value == metrics;
    return Done(metrics);
  }

  // ---------------------------------------------------------------------------
  // All running containers

  /** Size of the worker pool for `n` containers: never above 25 nor above `n`. */
  function PoolSize(n: nat): (p: nat)
    ensures p <= MaxThreadPoolSize && p <= n
    ensures p == MaxThreadPoolSize || p == n
  {
    if MaxThreadPoolSize < n then MaxThreadPoolSize else n
  }

  /** Names of the running containers, in listing order, or the listing's failure. */
  function ListNames(client: DockerClient): (r: Outcome<seq<string>>)
    ensures client.listRunning.Ok? ==>
      r.Done? && |r.value| == |client.listRunning.value| &&
      forall i :: 0 <= i < |r.value| ==> r.value[i] == client.listRunning.value[i].name
    ensures client.listRunning.Err? ==> r == Handle(ListingClauses, client.listRunning.error)
  {
    match client.listRunning
    case Err(e) => Handle(ListingClauses, e)
    case Ok(cs) => Done(seq(|cs|, i requires 0 <= i < |cs| => cs[i].name))
  }

  /**
   * The outcome of the bulk query. `NoWorkers` marks an empty listing, for
   * which a pool of size zero is requested; the model gives it no further
   * behaviour.
   */
  datatype BulkOutcome = Collected(items: seq<MetricsDict>) | BulkAborted(code: int) | BulkRaised(error: ClientError) | NoWorkers

  /**
   * What the bulk query promises for a non-failing listing `names`: one
   * dictionary per name, in listing order, when every query succeeds; and
   * otherwise no dictionaries at all, only the failure of some container.
   */
  predicate Gathered(client: DockerClient, names: seq<string>, r: BulkOutcome) {
    if names == [] then r == NoWorkers
    else
      !r.NoWorkers? &&
      (r.Collected? <==> forall i :: 0 <= i < |names| ==> Poll(client, names[i]).Done?) &&
      (r.Collected? ==>
        |r.items| == |names| && forall i :: 0 <= i < |names| ==> r.items[i] == Poll(client, names[i]).value) &&
      (r.BulkAborted? ==> exists i :: 0 <= i < |names| && Poll(client, names[i]) == Aborted(r.code)) &&
      (r.BulkRaised? ==> exists i :: 0 <= i < |names| && Poll(client, names[i]) == Raised(r.error))
  }

  /**
   * Metrics of every running container: a failed listing aborts with the
   * listing's code; otherwise each name is queried, and any single failure
   * fails the whole call.
   */
  method GetMetrics(client: DockerClient) returns (r: BulkOutcome)
    ensures ListNames(client).Aborted? ==> r == BulkAborted(ListNames(client).code)
    ensures ListNames(client).Raised? ==> r == BulkRaised(ListNames(client).error)
    ensures ListNames(client).Done? ==> Gathered(client, ListNames(client).value, r)
  {
    var listed := ListNames(client);
    if listed.Aborted? {
      return BulkAborted(listed.code);
    } else if listed.Raised? {
      return BulkRaised(listed.error);
    }
    var names := listed.value;
    var workers := PoolSize(|names|);
    if workers == 0 {
      return NoWorkers;
    }
    var items: seq<MetricsDict> := [];
    var i := 0;
    while i < |names|
      invariant 0 <= i <= |names|
      invariant |items| == i
      invariant forall k :: 0 <= k < i ==> Poll(client, names[k]).Done? && items[k] == Poll(client, names[k]).value
    {
      var one := GetMetricsByContainer(client, names[i]);
      if one.Aborted? {
        return BulkAborted(one.code);
      } else if one.Raised? {
        return BulkRaised(one.error);
      }
      items := items + [one.value];
      i := i + 1;
    }
    return Collected(items);
  }
}

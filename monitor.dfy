/**
 * main: the resource name selects one of six listers, and the refresh loop
 * runs one fetch-and-print tick, or, in watch mode, one tick after another
 * separated by a pause (clear screen, banner, sleep).
 *
 * The cluster is a parameter: each tick is given a Snapshot holding the
 * clock reading and the answer every list call would get at that moment.
 * The source's watch loop never ends by itself; here it ends when the
 * supplied ticks run out, which stands for the process being stopped from
 * outside.
 */
module Monitor {
  import opened Wrappers
  import opened Text
  import opened Errors
  import opened Table
  import opened Resources

  datatype Kind = Pods | Deployments | Services | ConfigMaps | Secrets | Nodes

  function Plural(kind: Kind): string {
    match kind
    case Pods => "pods"
    case Deployments => "deployments"
    case Services => "services"
    case ConfigMaps => "configmaps"
    case Secrets => "secrets"
    case Nodes => "nodes"
  }

  function Singular(kind: Kind): string {
    match kind
    case Pods => "pod"
    case Deployments => "deployment"
    case Services => "service"
    case ConfigMaps => "configmap"
    case Secrets => "secret"
    case Nodes => "node"
  }

  /** The switch on the resource name: six plurals and their singulars; anything else is unsupported. */
  function ParseKind(name: string): (kind: Option<Kind>)
    ensures kind.Some? ==> name == Plural(kind.value) || name == Singular(kind.value)
    ensures kind.None? ==> forall k: Kind :: name != Plural(k) && name != Singular(k)
  {
    if name == "pods" || name == "pod" then Some(Pods)
    else if name == "deployments" || name == "deployment" then Some(Deployments)
    else if name == "services" || name == "service" then Some(Services)
    else if name == "configmaps" || name == "configmap" then Some(ConfigMaps)
    else if name == "secrets" || name == "secret" then Some(Secrets)
    else if name == "nodes" || name == "node" then Some(Nodes)
    else None
  }

  /** A name selects a kind exactly when it is that kind's plural or singular. */
  lemma ParseKindAcceptsExactlyTheNames(name: string, kind: Kind)
    ensures ParseKind(name) == Some(kind) <==> name == Plural(kind) || name == Singular(kind)
  {
  }

  function SchemaOf(kind: Kind): (schema: Schema)
    ensures schema.plural == Plural(kind)
    ensures |schema.columns| > 0
  {
    match kind
    case Pods => PodSchema
    case Deployments => DeploymentSchema
    case Services => ServiceSchema
    case ConfigMaps => ConfigMapSchema
    case Secrets => SecretSchema
    case Nodes => NodeSchema
  }

  /** What the cluster answers to each list call at one tick, and the clock at that tick. */
  datatype Snapshot = Snapshot(
    now: int,
    pods: Result<seq<Pod>, FetchError>,
    deployments: Result<seq<Deployment>, FetchError>,
    services: Result<seq<Service>, FetchError>,
    configMaps: Result<seq<ConfigMap>, FetchError>,
    secrets: Result<seq<Secret>, FetchError>,
    nodes: Result<seq<Node>, FetchError>)

  /** Every fetched deployment carries spec.replicas, which the deployment lister dereferences. */
  predicate ReplicasSet(fetched: Result<seq<Deployment>, FetchError>) {
    fetched.Success? ==> forall d :: d in fetched.value ==> d.replicas.Some?
  }

  predicate TickDefined(kind: Kind, snapshot: Snapshot) {
    kind == Deployments ==> ReplicasSet(snapshot.deployments)
  }

  /** The error of the list call for the kind, if it failed. */
  function FetchFailure(kind: Kind, snapshot: Snapshot): Option<FetchError> {
    var failed := match kind
      case Pods => snapshot.pods.Failure?
      case Deployments => snapshot.deployments.Failure?
      case Services => snapshot.services.Failure?
      case ConfigMaps => snapshot.configMaps.Failure?
      case Secrets => snapshot.secrets.Failure?
      case Nodes => snapshot.nodes.Failure?;
    if !failed then None
    else match kind
      case Pods => Some(snapshot.pods.error)
      case Deployments => Some(snapshot.deployments.error)
      case Services => Some(snapshot.services.error)
      case ConfigMaps => Some(snapshot.configMaps.error)
      case Secrets => Some(snapshot.secrets.error)
      case Nodes => Some(snapshot.nodes.error)
  }

  /** The number of items the list call for the kind returned (0 when it failed). */
  function ItemCount(kind: Kind, snapshot: Snapshot): nat {
    match kind
    case Pods => if snapshot.pods.Success? then |snapshot.pods.value| else 0
    case Deployments => if snapshot.deployments.Success? then |snapshot.deployments.value| else 0
    case Services => if snapshot.services.Success? then |snapshot.services.value| else 0
    case ConfigMaps => if snapshot.configMaps.Success? then |snapshot.configMaps.value| else 0
    case Secrets => if snapshot.secrets.Success? then |snapshot.secrets.value| else 0
    case Nodes => if snapshot.nodes.Success? then |snapshot.nodes.value| else 0
  }

  /** The kind's list call answers the same in both snapshots. */
  predicate SameAnswer(kind: Kind, s1: Snapshot, s2: Snapshot) {
    match kind
    case Pods => s1.pods == s2.pods
    case Deployments => s1.deployments == s2.deployments
    case Services => s1.services == s2.services
    case ConfigMaps => s1.configMaps == s2.configMaps
    case Secrets => s1.secrets == s2.secrets
    case Nodes => s1.nodes == s2.nodes
  }

  function PodRows(items: seq<Pod>, now: int): (rows: seq<Row>)
    ensures |rows| == |items| && WellShaped(PodSchema, rows)
  {
    seq(|items|, i requires 0 <= i < |items| => ProjectPod(items[i], now))
  }

  function DeploymentRows(items: seq<Deployment>, now: int): (rows: seq<Row>)
    requires forall d :: d in items ==> d.replicas.Some?
    ensures |rows| == |items| && WellShaped(DeploymentSchema, rows)
  {
    seq(|items|, i requires 0 <= i < |items| => ProjectDeployment(items[i], now))
  }

  function ServiceRows(items: seq<Service>, now: int): (rows: seq<Row>)
    ensures |rows| == |items| && WellShaped(ServiceSchema, rows)
  {
    seq(|items|, i requires 0 <= i < |items| => ProjectService(items[i], now))
  }

  function ConfigMapRows(items: seq<ConfigMap>, now: int): (rows: seq<Row>)
    ensures |rows| == |items| && WellShaped(ConfigMapSchema, rows)
  {
    seq(|items|, i requires 0 <= i < |items| => ProjectConfigMap(items[i], now))
  }

  function SecretRows(items: seq<Secret>, now: int): (rows: seq<Row>)
    ensures |rows| == |items| && WellShaped(SecretSchema, rows)
  {
    seq(|items|, i requires 0 <= i < |items| => ProjectSecret(items[i], now))
  }

  function NodeRows(items: seq<Node>, now: int): (rows: seq<Row>)
    ensures |rows| == |items| && WellShaped(NodeSchema, rows)
  {
    seq(|items|, i requires 0 <= i < |items| => ProjectNode(items[i], now))
  }

  /** The rows the selected lister derives, item by item in fetch order, or the error of its fetch. */
  function Rows(kind: Kind, snapshot: Snapshot): (rows: Result<seq<Row>, FetchError>)
    requires TickDefined(kind, snapshot)
    ensures rows.Success? ==> WellShaped(SchemaOf(kind), rows.value)
  {
    var now := snapshot.now;
    match kind
    case Pods =>
      (match snapshot.pods
       case Failure(e) => Failure(e)
       case Success(items) => Success(PodRows(items, now)))
    case Deployments =>
      (match snapshot.deployments
       case Failure(e) => Failure(e)
       case Success(items) => Success(DeploymentRows(items, now)))
    case Services =>
      (match snapshot.services
       case Failure(e) => Failure(e)
       case Success(items) => Success(ServiceRows(items, now)))
    case ConfigMaps =>
      (match snapshot.configMaps
       case Failure(e) => Failure(e)
       case Success(items) => Success(ConfigMapRows(items, now)))
    case Secrets =>
      (match snapshot.secrets
       case Failure(e) => Failure(e)
       case Success(items) => Success(SecretRows(items, now)))
    case Nodes =>
      (match snapshot.nodes
       case Failure(e) => Failure(e)
       case Success(items) => Success(NodeRows(items, now)))
  }

  /** A lister fails exactly when its fetch fails, and otherwise derives one row per item. */
  lemma RowsFollowFetch(kind: Kind, snapshot: Snapshot)
    requires TickDefined(kind, snapshot)
    ensures var rows := Rows(kind, snapshot);
      && (rows.Failure? <==> FetchFailure(kind, snapshot).Some?)
      && (rows.Failure? ==> rows.error == FetchFailure(kind, snapshot).value)
      && (rows.Success? ==> |rows.value| == ItemCount(kind, snapshot))
  {
  }

  /** What one lister prints: the error line instead of a table, or the table. */
  function TickOutput(kind: Kind, snapshot: Snapshot): (lines: seq<string>)
    requires TickDefined(kind, snapshot)
    ensures FetchFailure(kind, snapshot).Some? ==> lines == [ErrorLine(FetchFailure(kind, snapshot).value)]
    ensures FetchFailure(kind, snapshot).None? ==> |lines| == ItemCount(kind, snapshot) + 4
  {
    RowsFollowFetch(kind, snapshot);
    match Rows(kind, snapshot)
    case Failure(e) => [ErrorLine(e)]
    case Success(rows) => TableLines(SchemaOf(kind), rows)
  }

  /** The table loop of listPods: each pod's fields are derived and printed in turn. */
  method ListPods(items: seq<Pod>, now: int) returns (lines: seq<string>)
    ensures lines == TableLines(PodSchema, PodRows(items, now))
  {
    ghost var rows := PodRows(items, now);
    lines := ["", HeaderLine(PodSchema)];
    assert lines == TablePrefix(PodSchema, rows, 0);
    for i := 0 to |items|
      invariant lines == TablePrefix(PodSchema, rows, i)
    {
      var row := PodRow(items[i], now);
      PrefixStep(PodSchema, rows, i);
      lines := lines + [RowLine(PodSchema, row)];
    }
    lines := lines + ["", TrailerLine(PodSchema.plural, |items|)];
  }

  /** The table loop of listNodes, with the status scan per node. */
  method ListNodes(items: seq<Node>, now: int) returns (lines: seq<string>)
    ensures lines == TableLines(NodeSchema, NodeRows(items, now))
  {
    ghost var rows := NodeRows(items, now);
    lines := ["", HeaderLine(NodeSchema)];
    assert lines == TablePrefix(NodeSchema, rows, 0);
    for i := 0 to |items|
      invariant lines == TablePrefix(NodeSchema, rows, i)
    {
      var row := NodeRow(items[i], now);
      PrefixStep(NodeSchema, rows, i);
      lines := lines + [RowLine(NodeSchema, row)];
    }
    lines := lines + ["", TrailerLine(NodeSchema.plural, |items|)];
  }

  /** listPods, listDeployments, ..., listNodes, selected by kind. */
  method ListResources(kind: Kind, snapshot: Snapshot) returns (lines: seq<string>)
    requires TickDefined(kind, snapshot)
    ensures lines == TickOutput(kind, snapshot)
  {
    var rows := Rows(kind, snapshot);
    match rows
    case Failure(e) =>
      lines := [ErrorLine(e)];
    case Success(projected) =>
      if kind == Pods {
        lines := ListPods(snapshot.pods.value, snapshot.now);
      } else if kind == Nodes {
        lines := ListNodes(snapshot.nodes.value, snapshot.now);
      } else {
        lines := EmitTable(SchemaOf(kind), projected);
      }
  }

  /**
   * A tick prints either one error line and no table, or a table whose
   * trailer counts the items fetched (zero included).
   */
  lemma TickReportsFetch(kind: Kind, snapshot: Snapshot)
    requires TickDefined(kind, snapshot)
    ensures var out := TickOutput(kind, snapshot);
      match FetchFailure(kind, snapshot)
      case Some(e) => out == [ErrorLine(e)]
      case None =>
        var n := ItemCount(kind, snapshot);
        var prefix := TotalPrefix + Plural(kind) + ": ";
        && |out| == n + 4
        && out[1] == HeaderLine(SchemaOf(kind))
        && out[n + 3][..|prefix|] == prefix
        && ParseInt(out[n + 3][|prefix|..]) == Some(n)
  {
    RowsFollowFetch(kind, snapshot);
    if FetchFailure(kind, snapshot).None? {
      TableLayout(SchemaOf(kind), Rows(kind, snapshot).value);
    }
  }

  /** A tick's output depends on the clock and on its own kind's answer only. */
  lemma TickReadsOnlyItsKind(kind: Kind, s1: Snapshot, s2: Snapshot)
    requires TickDefined(kind, s1) && TickDefined(kind, s2)
    requires s1.now == s2.now && SameAnswer(kind, s1, s2)
    ensures TickOutput(kind, s1) == TickOutput(kind, s2)
  {
    assert Rows(kind, s1) == Rows(kind, s2) by {
      match kind
      case Pods =>
      case Deployments =>
      case Services =>
      case ConfigMaps =>
      case Secrets =>
      case Nodes =>
    }
  }

  /** An empty list still prints the header and a trailer counting zero, e.g. "Total pods: 0". */
  lemma EmptyListCountsZero(kind: Kind, snapshot: Snapshot)
    requires TickDefined(kind, snapshot)
    requires FetchFailure(kind, snapshot).None? && ItemCount(kind, snapshot) == 0
    ensures var out := TickOutput(kind, snapshot);
      |out| == 4 && out[3] == "Total " + Plural(kind) + ": 0"
  {
    var schema := SchemaOf(kind);
    assert TickOutput(kind, snapshot) == TableLines(schema, []) by {
      RowsFollowFetch(kind, snapshot);
    }
    EmptyTableCountsZero(schema);
  }

  /** The command-line settings the loop reads. */
  datatype Config = Config(resource: string, namespace: string, watch: bool, interval: int)

  /**
   * What the loop does, in order. Pause stands for the screen clear, the
   * banner line it then prints and the sleep of the given seconds.
   */
  datatype Event =
    | ListCall(kind: Kind, namespace: Option<string>)
    | Line(text: string)
    | Pause(banner: string, seconds: int)

  datatype Outcome =
    | Exited(status: int)
    | Stopped  // still running when the supplied ticks ran out

  /** Nodes are cluster-wide: their list call takes no namespace. */
  function Scope(kind: Kind, namespace: string): Option<string> {
    if kind == Nodes then None else Some(namespace)
  }

  function Lines(texts: seq<string>): (events: seq<Event>)
    ensures |events| == |texts|
    ensures forall i :: 0 <= i < |texts| ==> events[i] == Line(texts[i])
  {
    seq(|texts|, i requires 0 <= i < |texts| => Line(texts[i]))
  }

  function UnsupportedLine(resource: string): string {
    "Unsupported resource type: " + resource
  }

  /** The banner printed after clearing the screen; it names the resource as given, not its kind. */
  function Banner(config: Config): (line: string)
    ensures var head := "Watching " + config.resource + " in namespace ";
      && |head| + |config.namespace| < |line|
      && line[..|head|] == head
      && line[|head|..|head| + |config.namespace|] == config.namespace
  {
    var head := "Watching " + config.resource + " in namespace ";
    var line := head + config.namespace + " (Ctrl+C to exit)...";
    assert line[..|head|] == head && line[|head|..|head| + |config.namespace|] == config.namespace;
    line
  }

  function PauseOf(config: Config): Event {
    Pause(Banner(config), config.interval)
  }

  predicate TicksDefined(kind: Kind, ticks: seq<Snapshot>) {
    forall t :: 0 <= t < |ticks| ==> TickDefined(kind, ticks[t])
  }

  /** One tick: the list call for the kind, then the lines its lister prints. */
  function TickEvents(config: Config, kind: Kind, printed: seq<string>): seq<Event> {
    [ListCall(kind, Scope(kind, config.namespace))] + Lines(printed)
  }

  /** The events of watch mode over the given ticks: each tick, then a pause. */
  function WatchTrace(config: Config, kind: Kind, ticks: seq<Snapshot>): seq<Event>
    requires TicksDefined(kind, ticks)
  {
    if |ticks| == 0 then []
    else WatchTrace(config, kind, ticks[..|ticks| - 1])
         + TickEvents(config, kind, TickOutput(kind, ticks[|ticks| - 1])) + [PauseOf(config)]
  }

  /** Running one more tick extends the watch trace by that tick and a pause. */
  lemma WatchTraceStep(config: Config, kind: Kind, ticks: seq<Snapshot>, i: nat)
    requires TicksDefined(kind, ticks) && i < |ticks|
    ensures WatchTrace(config, kind, ticks[..i + 1])
            == WatchTrace(config, kind, ticks[..i])
               + TickEvents(config, kind, TickOutput(kind, ticks[i])) + [PauseOf(config)]
  {
    assert ticks[..i + 1][..i] == ticks[..i] && ticks[..i + 1][i] == ticks[i];
  }

  /** The whole run: the events and how it ends. */
  function RunSpec(config: Config, ticks: seq<Snapshot>): (run: (seq<Event>, Outcome))
    requires ParseKind(config.resource).Some? ==> TicksDefined(ParseKind(config.resource).value, ticks)
    ensures ParseKind(config.resource).None? ==> run.1 == Exited(1)
    ensures ParseKind(config.resource).Some? && config.watch ==> run.1 == Stopped
    ensures ParseKind(config.resource).Some? && !config.watch && |ticks| > 0 ==> run.1 == Exited(0)
  {
    match ParseKind(config.resource)
    case None => ([Line(UnsupportedLine(config.resource))], Exited(1))
    case Some(kind) =>
      if config.watch then (WatchTrace(config, kind, ticks), Stopped)
      else if |ticks| == 0 then ([], Stopped)
      else (TickEvents(config, kind, TickOutput(kind, ticks[0])), Exited(0))
  }

  /** The for loop of main; ticks[i] is what the cluster and the clock give in iteration i. */
  method Run(config: Config, ticks: seq<Snapshot>) returns (events: seq<Event>, outcome: Outcome)
    requires ParseKind(config.resource).Some? ==> TicksDefined(ParseKind(config.resource).value, ticks)
    ensures (events, outcome) == RunSpec(config, ticks)
  {
    events := [];
    var i := 0;
    while true
      invariant 0 <= i <= |ticks|
      invariant i > 0 ==> config.watch && ParseKind(config.resource).Some?
      invariant i > 0 ==> events == WatchTrace(config, ParseKind(config.resource).value, ticks[..i])
      invariant i == 0 ==> events == []
      decreases |ticks| - i
    {
      var parsed := ParseKind(config.resource);
      if parsed.None? {
        assert i == 0;
        events := events + [Line(UnsupportedLine(config.resource))];
        assert events == [Line(UnsupportedLine(config.resource))];
        assert RunSpec(config, ticks).0 == events;
        outcome := Exited(1);
        return;
      }
      var kind := parsed.value;
      if i == |ticks| {
        assert ticks[..i] == ticks;
        outcome := Stopped;
        return;
      }
      var lines := ListResources(kind, ticks[i]);
      var tick := [ListCall(kind, Scope(kind, config.namespace))] + Lines(lines);
      assert tick == TickEvents(config, kind, TickOutput(kind, ticks[i]));
      if !config.watch {
        assert i == 0 && events == [];
        events := events + tick;
        assert events == tick;
        outcome := Exited(0);
        return;
      }
      WatchTraceStep(config, kind, ticks, i);
      events := events + tick + [PauseOf(config)];
      i := i + 1;
    }
  }

  /** The list calls made, in order, with their kind and namespace. */
  function CallsIn(events: seq<Event>): seq<(Kind, Option<string>)> {
    if events == [] then []
    else (if events[0].ListCall? then [(events[0].kind, events[0].namespace)] else [])
         + CallsIn(events[1..])
  }

  /** The number of pauses (clear, banner, sleep) among the events. */
  function PausesIn(events: seq<Event>): nat {
    if events == [] then 0
    else (if events[0].Pause? then 1 else 0) + PausesIn(events[1..])
  }

  lemma {:induction false} CallsDistribute(a: seq<Event>, b: seq<Event>)
    ensures CallsIn(a + b) == CallsIn(a) + CallsIn(b)
    decreases |a|
  {
    if a == [] {
      assert a + b == b;
    } else {
      assert (a + b)[0] == a[0] && (a + b)[1..] == a[1..] + b;
      CallsDistribute(a[1..], b);
    }
  }

  lemma {:induction false} PausesDistribute(a: seq<Event>, b: seq<Event>)
    ensures PausesIn(a + b) == PausesIn(a) + PausesIn(b)
    decreases |a|
  {
    if a == [] {
      assert a + b == b;
    } else {
      assert (a + b)[0] == a[0] && (a + b)[1..] == a[1..] + b;
      PausesDistribute(a[1..], b);
    }
  }

  lemma {:induction false} PrintingCallsNothing(texts: seq<string>)
    ensures CallsIn(Lines(texts)) == [] && PausesIn(Lines(texts)) == 0
    decreases |texts|
  {
    if texts != [] {
      assert Lines(texts)[1..] == Lines(texts[1..]);
      PrintingCallsNothing(texts[1..]);
    }
  }

  /** A tick makes exactly one list call, for its kind, and does not pause. */
  lemma TickCallsOnce(config: Config, kind: Kind, printed: seq<string>)
    ensures CallsIn(TickEvents(config, kind, printed)) == [(kind, Scope(kind, config.namespace))]
    ensures PausesIn(TickEvents(config, kind, printed)) == 0
  {
    var call := [ListCall(kind, Scope(kind, config.namespace))];
    CallsDistribute(call, Lines(printed));
    PausesDistribute(call, Lines(printed));
    PrintingCallsNothing(printed);
  }

  /** An unsupported name prints one line and exits with status 1, before any list call. */
  lemma UnsupportedExitsBeforeListing(config: Config, ticks: seq<Snapshot>)
    requires ParseKind(config.resource).None?
    ensures RunSpec(config, ticks).1 == Exited(1)
    ensures RunSpec(config, ticks).0 == [Line("Unsupported resource type: " + config.resource)]
    ensures CallsIn(RunSpec(config, ticks).0) == []
  {
  }

  /** Without watch mode, one tick runs: one list call, no pause, exit status 0. */
  lemma SingleShotRunsOneTick(config: Config, ticks: seq<Snapshot>)
    requires !config.watch && ParseKind(config.resource).Some? && |ticks| > 0
    requires TicksDefined(ParseKind(config.resource).value, ticks)
    ensures var kind := ParseKind(config.resource).value;
      && RunSpec(config, ticks).1 == Exited(0)
      && CallsIn(RunSpec(config, ticks).0) == [(kind, Scope(kind, config.namespace))]
      && PausesIn(RunSpec(config, ticks).0) == 0
  {
    var kind := ParseKind(config.resource).value;
    TickCallsOnce(config, kind, TickOutput(kind, ticks[0]));
  }

  /** n copies of x. */
  function Repeat<T>(x: T, n: nat): (r: seq<T>)
    ensures |r| == n
  {
    if n == 0 then [] else Repeat(x, n - 1) + [x]
  }

  /** In watch mode every tick makes one list call for the selected kind and is followed by one pause. */
  lemma {:induction false} WatchCallsOncePerTick(config: Config, kind: Kind, ticks: seq<Snapshot>)
    requires TicksDefined(kind, ticks)
    ensures CallsIn(WatchTrace(config, kind, ticks))
            == Repeat((kind, Scope(kind, config.namespace)), |ticks|)
    ensures PausesIn(WatchTrace(config, kind, ticks)) == |ticks|
    decreases |ticks|
  {
    if |ticks| > 0 {
      var n := |ticks| - 1;
      var call := (kind, Scope(kind, config.namespace));
      var before := WatchTrace(config, kind, ticks[..n]);
      var tick := TickEvents(config, kind, TickOutput(kind, ticks[n]));
      var pause := [PauseOf(config)];
      assert WatchTrace(config, kind, ticks) == before + tick + pause;
      assert CallsIn(before) == Repeat(call, n) && PausesIn(before) == n by {
        WatchCallsOncePerTick(config, kind, ticks[..n]);
      }
      assert CallsIn(tick) == [call] && PausesIn(tick) == 0 by {
        TickCallsOnce(config, kind, TickOutput(kind, ticks[n]));
      }
      assert CallsIn(pause) == [] && PausesIn(pause) == 1 by {
        assert pause[0].Pause? && pause[1..] == [];
      }
      CallsDistribute(before, tick);
      PausesDistribute(before, tick);
      CallsDistribute(before + tick, pause);
      PausesDistribute(before + tick, pause);
      assert Repeat(call, n + 1) == Repeat(call, n) + [call];
    }
  }

  /** In watch mode the loop never exits by itself: it runs every supplied tick. */
  lemma WatchRunsEveryTick(config: Config, ticks: seq<Snapshot>)
    requires config.watch && ParseKind(config.resource).Some?
    requires TicksDefined(ParseKind(config.resource).value, ticks)
    ensures var kind := ParseKind(config.resource).value;
      && RunSpec(config, ticks).1 == Stopped
      && |CallsIn(RunSpec(config, ticks).0)| == |ticks|
      && PausesIn(RunSpec(config, ticks).0) == |ticks|
  {
    WatchCallsOncePerTick(config, ParseKind(config.resource).value, ticks);
  }
}

/**
 * The six resource kinds the monitor lists, holding only the fields it
 * reads, with each kind's columns and the projection of one item onto a
 * row of display fields. Instants are nanoseconds, as in the Age module.
 */
module Resources {
  import opened Wrappers
  import opened GoTypes
  import opened Text
  import opened Age
  import opened Table
  import opened Containers
  import opened Nodes

  datatype Pod = Pod(
    name: string,
    phase: string,
    containers: seq<string>,  // the names of the containers in the pod's spec; only their number is read
    statuses: seq<ContainerStatus>,
    created: int)

  datatype Deployment = Deployment(
    name: string,
    replicas: Option<int32>,  // spec.replicas, a pointer in the API types
    readyReplicas: int32,
    updatedReplicas: int32,
    availableReplicas: int32,
    created: int)

  /** One load-balancer ingress point of a service. */
  datatype Ingress = Ingress(ip: string, hostname: string)

  datatype Service = Service(
    name: string,
    serviceType: string,
    clusterIP: string,
    ingress: seq<Ingress>,
    created: int)

  datatype ConfigMap = ConfigMap(name: string, data: map<string, string>, created: int)

  datatype Secret = Secret(name: string, secretType: string, data: map<string, seq<bv8>>, created: int)

  datatype Node = Node(
    name: string,
    conditions: seq<Condition>,
    labels: map<string, string>,
    kubeletVersion: string,
    created: int)

  const PodSchema: Schema := Schema("pods",
    [Column("NAME", 40), Column("STATUS", 20), Column("READY", 15), Column("RESTARTS", 10), Column("AGE", 10)])

  const DeploymentSchema: Schema := Schema("deployments",
    [Column("NAME", 40), Column("READY", 10), Column("UP-TO-DATE", 10), Column("AVAILABLE", 10), Column("AGE", 10)])

  const ServiceSchema: Schema := Schema("services",
    [Column("NAME", 40), Column("TYPE", 20), Column("CLUSTER-IP", 20), Column("EXTERNAL-IP", 15), Column("AGE", 10)])

  const ConfigMapSchema: Schema := Schema("configmaps",
    [Column("NAME", 40), Column("DATA", 15), Column("AGE", 10)])

  const SecretSchema: Schema := Schema("secrets",
    [Column("NAME", 40), Column("TYPE", 15), Column("DATA", 15), Column("AGE", 10)])

  const NodeSchema: Schema := Schema("nodes",
    [Column("NAME", 40), Column("STATUS", 15), Column("ROLES", 15), Column("VERSION", 20), Column("AGE", 10)])

  /** Every header title fits its column, so header and fitting rows line up (Table.ColumnsAlign). */
  lemma HeadersFit()
    ensures Fits(Widths(PodSchema.columns), Titles(PodSchema.columns))
    ensures Fits(Widths(DeploymentSchema.columns), Titles(DeploymentSchema.columns))
    ensures Fits(Widths(ServiceSchema.columns), Titles(ServiceSchema.columns))
    ensures Fits(Widths(ConfigMapSchema.columns), Titles(ConfigMapSchema.columns))
    ensures Fits(Widths(SecretSchema.columns), Titles(SecretSchema.columns))
    ensures Fits(Widths(NodeSchema.columns), Titles(NodeSchema.columns))
  {
  }

  /** A pod's row: READY is ready containers over containers in the spec, RESTARTS their sum. */
  function ProjectPod(pod: Pod, now: int): (row: Row)
    ensures |row| == |PodSchema.columns|
    ensures row[0] == pod.name && row[1] == pod.phase
    ensures IsFraction(row[2]) && ParseFraction(row[2]) == Some((CountReady(pod.statuses), |pod.containers|))
    ensures IsDecimal(row[3]) && ParseInt(row[3]) == Some(SumRestarts(pod.statuses))
    ensures row[4] == FormatAge(pod.created, now)
  {
    var ready := Fraction(CountReady(pod.statuses), |pod.containers|);
    var restarts := IntToString(SumRestarts(pod.statuses));
    var row := [pod.name, pod.phase, ready, restarts, FormatAge(pod.created, now)];
    assert row[2] == ready && row[3] == restarts;
    row
  }

  /** The per-item statements of the pod loop, calling the two helper loops. */
  method PodRow(pod: Pod, now: int) returns (row: Row)
    ensures row == ProjectPod(pod, now)
  {
    var ready := GetReadyContainers(pod.statuses);
    var containerReady := Fraction(ready, |pod.containers|);
    var age := FormatAge(pod.created, now);
    var restarts := GetTotalRestarts(pod.statuses);
    row := [pod.name, pod.phase, containerReady, IntToString(restarts), age];
  }

  /** A deployment's row; spec.replicas is dereferenced, so it must be set. */
  function ProjectDeployment(deployment: Deployment, now: int): (row: Row)
    requires deployment.replicas.Some?
    ensures |row| == |DeploymentSchema.columns|
    ensures row[0] == deployment.name
    ensures IsFraction(row[1])
    ensures ParseFraction(row[1])
            == Some((deployment.readyReplicas as int, deployment.replicas.value as int))
    ensures IsDecimal(row[2]) && ParseInt(row[2]) == Some(deployment.updatedReplicas as int)
    ensures IsDecimal(row[3]) && ParseInt(row[3]) == Some(deployment.availableReplicas as int)
    ensures row[4] == FormatAge(deployment.created, now)
  {
    var ready := Fraction(deployment.readyReplicas as int, deployment.replicas.value as int);
    var upToDate := IntToString(deployment.updatedReplicas as int);
    var available := IntToString(deployment.availableReplicas as int);
    var row := [deployment.name, ready, upToDate, available, FormatAge(deployment.created, now)];
    assert row[1] == ready && row[2] == upToDate && row[3] == available;
    row
  }

  /**
   * EXTERNAL-IP: "<none>" without ingress points; otherwise the first
   * point's IP, or its hostname when the IP is empty. When both are empty
   * the field is empty, not "<none>".
   */
  function ExternalIP(ingress: seq<Ingress>): (ip: string)
    ensures |ingress| == 0 ==> ip == "<none>"
    ensures |ingress| > 0 && ingress[0].ip != "" ==> ip == ingress[0].ip
    ensures |ingress| > 0 && ingress[0].ip == "" ==> ip == ingress[0].hostname
  {
    if |ingress| > 0 then
      var first := ingress[0];
      if first.ip == "" && first.hostname != "" then first.hostname else first.ip
    else "<none>"
  }

  /** Only the first ingress point is consulted. */
  lemma {:induction false} LaterIngressIgnored(first: Ingress, rest1: seq<Ingress>, rest2: seq<Ingress>)
    ensures ExternalIP([first] + rest1) == ExternalIP([first] + rest2)
  {
    assert ([first] + rest1)[0] == first && ([first] + rest2)[0] == first;
  }

  function ProjectService(service: Service, now: int): (row: Row)
    ensures |row| == |ServiceSchema.columns|
    ensures row[0] == service.name && row[1] == service.serviceType && row[2] == service.clusterIP
    ensures row[3] == ExternalIP(service.ingress)
    ensures row[4] == FormatAge(service.created, now)
  {
    [service.name, service.serviceType, service.clusterIP, ExternalIP(service.ingress), FormatAge(service.created, now)]
  }

  /** A config map's row: DATA is the number of keys in its data. */
  function ProjectConfigMap(configMap: ConfigMap, now: int): (row: Row)
    ensures |row| == |ConfigMapSchema.columns|
    ensures row[0] == configMap.name
    ensures IsDecimal(row[1]) && ParseInt(row[1]) == Some(|configMap.data|)
    ensures row[2] == FormatAge(configMap.created, now)
  {
    [configMap.name, IntToString(|configMap.data|), FormatAge(configMap.created, now)]
  }

  /** A secret's row: DATA is the number of keys in its data. */
  function ProjectSecret(secret: Secret, now: int): (row: Row)
    ensures |row| == |SecretSchema.columns|
    ensures row[0] == secret.name && row[1] == secret.secretType
    ensures IsDecimal(row[2]) && ParseInt(row[2]) == Some(|secret.data|)
    ensures row[3] == FormatAge(secret.created, now)
  {
    [secret.name, secret.secretType, IntToString(|secret.data|), FormatAge(secret.created, now)]
  }

  function ProjectNode(node: Node, now: int): (row: Row)
    ensures |row| == |NodeSchema.columns|
    ensures row[0] == node.name && row[3] == node.kubeletVersion
    ensures row[1] == NodeStatus(node.conditions)
    ensures row[2] == Roles(node.labels)
    ensures row[4] == FormatAge(node.created, now)
  {
    [node.name, NodeStatus(node.conditions), Roles(node.labels), node.kubeletVersion, FormatAge(node.created, now)]
  }

  /** The per-item statements of the node loop, with the status scan that breaks. */
  method NodeRow(node: Node, now: int) returns (row: Row)
    ensures row == ProjectNode(node, now)
  {
    var status := ScanNodeStatus(node.conditions);
    var roles := Roles(node.labels);
    var version := node.kubeletVersion;
    var age := FormatAge(node.created, now);
    row := [node.name, status, roles, version, age];
  }

  /** Two containers, one ready, restarted 2 and 3 times: READY is "1/2" and RESTARTS "5". */
  lemma PodExample(now: int)
    ensures var pod := Pod("web", "Running", ["app", "sidecar"],
                           [ContainerStatus(true, 2), ContainerStatus(false, 3)], now);
            var row := ProjectPod(pod, now);
            row[2] == "1/2" && row[3] == "5"
  {
    var statuses := [ContainerStatus(true, 2), ContainerStatus(false, 3)];
    assert CountReady(statuses) == 1 && SumRestarts(statuses) == 5;
  }

  lemma DeploymentExample(now: int)
    ensures ProjectDeployment(Deployment("api", Some(3), 2, 3, 2, now), now)[1] == "2/3"
  {
  }

  lemma ServiceExamples()
    ensures ExternalIP([Ingress("", "lb.example.com")]) == "lb.example.com"
    ensures ExternalIP([]) == "<none>"
    ensures ExternalIP([Ingress("", "")]) == ""
  {
  }
}

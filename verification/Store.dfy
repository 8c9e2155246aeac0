/** The Kubernetes objects the controllers read and patch, and the patch. */
module Store {
  import opened Names

  /** Points in time and durations, in milliseconds. */
  type Time = int

  const SECOND: Time := 1000
  const GRACE: Time := 30 * SECOND
  const MINUTE: Time := 60 * SECOND

  datatype CondType =
    | Paused | MachineCreated | MachineReady | MachineHealthy
    | NodeNetworkEnsured | DeploymentEnsured | ControlPlaneIPEnsured

  datatype Reason =
    | IsPaused | NotPaused | InternalError | Created | IsReady | NotReady | Healthy | NotHealthy | Ensured

  datatype Cond = Cond(status: bool, reason: Reason)
  type Conds = map<CondType, Cond>

  function SetPaused(conds: Conds, paused: bool, reasonIfNot: Reason): Conds {
    conds[Paused := Cond(paused, if paused then IsPaused else reasonIfNot)]
  }

  datatype Label = HostnameLabel | ZoneLabel | RackLabel | AsnLabel | ChassisLabel

  // ------------------------------------------------------------------ objects

  datatype Endpoint = Endpoint(host: string, port: int)

  /** MetalStackCluster. `deletion` is the deletion timestamp. */
  datatype Cluster = Cluster(
    project: string, partition: string, fwRef: Option<string>,
    netId: Option<string>, cpIp: Option<string>, endpoint: Endpoint,
    finalizer: bool, deletion: Option<Time>,
    ready: bool, provisioned: bool, conds: Conds)

  datatype AddressKind = HostName | InternalIP | ExternalIP
  datatype Address = Address(kind: AddressKind, address: string)

  datatype Failure = DeletedExternally

  /** MetalStackMachine, with what the controllers read of the Machine that
      owns it: its role and the name of its bootstrap secret. */
  datatype Machine = Machine(
    cluster: Key, name: Key, image: string, size: string, controlPlane: bool, secret: Option<string>,
    providerID: string, finalizer: bool, deletion: Option<Time>,
    ready: bool, provisioned: bool, failure: Option<Failure>,
    labels: map<Label, string>, addresses: seq<Address>, conds: Conds)

  /** MetalStackFirewallDeployment. `owner` is the controlling owner reference. */
  datatype Deployment = Deployment(
    template: string, owner: Option<Key>, clusterLabel: Option<string>, ref: Option<string>,
    finalizer: bool, deletion: Option<Time>, ready: bool, conds: Conds)

  datatype EgressRule = EgressRule(comment: string, ports: seq<int>, protocol: string, to: seq<string>)
  datatype IngressRule = IngressRule(comment: string, ports: seq<int>, protocol: string, from: seq<string>)
  datatype RuleSet = RuleSet(egress: seq<EgressRule>, ingress: seq<IngressRule>)

  /** MetalStackFirewallTemplate. */
  datatype Template = Template(
    networks: seq<string>, rules: Option<RuleSet>, image: string, size: string, owners: set<Key>)

  /** Everything stored in the cluster. Machine objects are keyed by uid. */
  datatype Kube = Kube(
    clusters: map<Key, Cluster>, machines: map<nat, Machine>,
    deployments: map<Key, Deployment>, templates: map<Key, Template>)

  function MachinesOf(k: Kube, c: Key): set<nat> {
    set u | u in k.machines && k.machines[u].cluster == c
  }

  // -------------------------------------------------------------------- patch

  /** A patch carries the fields in which `after` differs from the snapshot
      `before`; every other field keeps what is stored now. */
  function Pick<T(==)>(stored: T, before: T, after: T): T {
    if after != before then after else stored
  }

  function MergeCluster(stored: Cluster, before: Cluster, after: Cluster): Cluster {
    stored.(netId := Pick(stored.netId, before.netId, after.netId),
            cpIp := Pick(stored.cpIp, before.cpIp, after.cpIp),
            endpoint := Pick(stored.endpoint, before.endpoint, after.endpoint),
            finalizer := Pick(stored.finalizer, before.finalizer, after.finalizer),
            ready := Pick(stored.ready, before.ready, after.ready),
            provisioned := Pick(stored.provisioned, before.provisioned, after.provisioned),
            conds := Pick(stored.conds, before.conds, after.conds))
  }

  function MergeMachine(stored: Machine, before: Machine, after: Machine): Machine {
    stored.(providerID := Pick(stored.providerID, before.providerID, after.providerID),
            finalizer := Pick(stored.finalizer, before.finalizer, after.finalizer),
            ready := Pick(stored.ready, before.ready, after.ready),
            provisioned := Pick(stored.provisioned, before.provisioned, after.provisioned),
            failure := Pick(stored.failure, before.failure, after.failure),
            labels := Pick(stored.labels, before.labels, after.labels),
            addresses := Pick(stored.addresses, before.addresses, after.addresses),
            conds := Pick(stored.conds, before.conds, after.conds))
  }

  function MergeDeployment(stored: Deployment, before: Deployment, after: Deployment): Deployment {
    stored.(ref := Pick(stored.ref, before.ref, after.ref),
            finalizer := Pick(stored.finalizer, before.finalizer, after.finalizer),
            ready := Pick(stored.ready, before.ready, after.ready),
            conds := Pick(stored.conds, before.conds, after.conds))
  }
}

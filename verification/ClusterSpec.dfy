/** What one run of the cluster controller does. Deletion falls into two parts
    between which other controllers may act: the guard, which waits for machines
    and the firewall deployment, and the teardown of the provider's resources. */
module ClusterSpec {
  import opened Names
  import opened Store
  import opened Metal

  datatype Replies = Replies(
    net: Grant, getDeployment: bool, update: bool, findNets: bool, ip: Grant,
    list: bool, deleteDeployment: bool, findIP: bool, freeIP: Release, freeNet: Release)

  type Deployments = map<Key, Deployment>

  datatype Outcome = Outcome(obj: Cluster, deployments: Deployments, metal: Metal, failed: bool)

  const PORT := 443

  function DeploymentKey(k: Key, c: Cluster): Key
    requires c.fwRef.Some?
  {
    Key(k.ns, c.fwRef.value)
  }

  /** What no run changes. */
  predicate SameCluster(a: Cluster, b: Cluster) {
    a.project == b.project && a.partition == b.partition && a.fwRef == b.fwRef && a.deletion == b.deletion
  }

  /** A recorded network or endpoint is not replaced. */
  predicate KeepsPlace(c: Cluster, c': Cluster) {
    && (c.netId.Some? ==> c'.netId == c.netId)
    && (c.endpoint.host != "" ==> c'.endpoint == c.endpoint)
    && c'.cpIp == c.cpIp && c'.finalizer == c.finalizer
  }

  function Mark(c: Cluster, t: CondType, ok: bool): Cluster {
    c.(conds := c.conds[t := Cond(ok, if ok then Ensured else InternalError)])
  }

  // ------------------------------------------------------------ provisioning

  function EnsureNetwork(c: Cluster, deps: Deployments, metal: Metal, rep: Replies): (o: Outcome)
    ensures SameCluster(o.obj, c) && KeepsPlace(c, o.obj) && o.obj.ready == c.ready
    ensures o.obj.endpoint == c.endpoint
    ensures o.deployments == deps && o.metal.hosts == metal.hosts && o.metal.ips == metal.ips
    ensures o.metal.lenient == metal.lenient
    ensures o.metal.spentIps == metal.spentIps
    ensures o.failed <==> o.obj.netId.None?
    ensures c.netId.Some? ==> o.metal == metal
    ensures o.metal == metal && !o.failed ==> c.netId.Some?
    ensures metal.nets.Keys <= o.metal.nets.Keys && Spends(metal.spentNets, o.metal.spentNets, rep.net)
    ensures !o.failed && c.netId.None? ==>
      SpendsFor(metal.spentNets, o.metal.spentNets, rep.net, o.obj.netId.value) && o.obj.netId.value in o.metal.nets
  {
    if c.netId.Some? then Outcome(Mark(c, NodeNetworkEnsured, true), deps, metal, false)
    else
      var metal' := AllocateNetwork(metal, c.project, rep.net);
      match NetworkAnswer(metal, rep.net)
      case None => Outcome(Mark(c, NodeNetworkEnsured, false), deps, metal', true)
      case Some(id) =>
        Outcome(Mark(c, NodeNetworkEnsured, true).(netId := Some(id)), deps, metal', false)
  }

  /** Owning the referenced deployment. The API server accepts one controlling
      owner, so a deployment of another cluster cannot be taken over. */
  function Adopt(k: Key, deps: Deployments, fk: Key, rep: Replies): (r: Option<Deployments>)
    ensures r.Some? ==> fk in deps && r.value.Keys == deps.Keys && r.value[fk].owner == Some(k)
    ensures r.Some? ==> forall d | d in deps && d != fk :: r.value[d] == deps[d]
    ensures r.Some? ==> (deps[fk].owner == Some(k) || deps[fk].owner == None)
    ensures r.Some? ==> r.value[fk] == deps[fk].(owner := Some(k), clusterLabel := r.value[fk].clusterLabel)
  {
    if !rep.getDeployment || fk !in deps then None
    else if deps[fk].owner == Some(k) then Some(deps)
    else if deps[fk].owner.Some? || !rep.update then None
    else Some(deps[fk := deps[fk].(owner := Some(k), clusterLabel := Some(k.name))])
  }

  function EnsureDeployment(k: Key, a: Outcome, rep: Replies): (o: Outcome)
    ensures SameCluster(o.obj, a.obj) && KeepsPlace(a.obj, o.obj) && o.metal == a.metal
    ensures o.obj.netId == a.obj.netId && o.obj.endpoint == a.obj.endpoint && o.obj.ready == a.obj.ready
    ensures o.deployments == a.deployments
         || (a.obj.fwRef.Some? && Adopt(k, a.deployments, DeploymentKey(k, a.obj), rep) == Some(o.deployments))
  {
    if a.obj.fwRef.None? then a.(failed := false)
    else match Adopt(k, a.deployments, DeploymentKey(k, a.obj), rep)
      case None => a.(obj := Mark(a.obj, DeploymentEnsured, false), failed := true)
      case Some(deps) => a.(obj := Mark(a.obj, DeploymentEnsured, true), deployments := deps, failed := false)
  }

  /** The address for the control plane: the given one, or a fresh ephemeral one
      from the only default network. */
  function EnsureIP(c: Cluster, metal: Metal, rep: Replies): (r: (Metal, Option<string>))
    ensures r.0.hosts == metal.hosts && r.0.nets == metal.nets && r.0.spentNets == metal.spentNets
    ensures r.0.lenient == metal.lenient
    ensures c.cpIp.Some? ==> r == (metal, c.cpIp)
    ensures Spends(metal.spentIps, r.0.spentIps, rep.ip)
    ensures r.1.Some? && c.cpIp.None? ==>
      SpendsFor(metal.spentIps, r.0.spentIps, rep.ip, r.1.value) && r.1.value != ""
  {
    if c.cpIp.Some? then (metal, c.cpIp)
    else if !rep.findNets || |metal.defaults| != 1 then (metal, None)
    else
      (AllocateIP(metal, rep.ip), IPAnswer(metal, rep.ip))
  }

  function EnsureEndpoint(a: Outcome, rep: Replies): (o: Outcome)
    ensures SameCluster(o.obj, a.obj) && KeepsPlace(a.obj, o.obj) && o.deployments == a.deployments
    ensures o.obj.netId == a.obj.netId && o.metal.hosts == a.metal.hosts && o.metal.lenient == a.metal.lenient
    ensures o.metal.nets == a.metal.nets && o.metal.spentNets == a.metal.spentNets
    ensures a.obj.endpoint.host != "" || a.obj.cpIp.Some? ==> o.metal == a.metal
    ensures Spends(a.metal.spentIps, o.metal.spentIps, rep.ip)
    ensures o.failed ==> o.obj.ready == a.obj.ready && o.obj.endpoint == a.obj.endpoint
    ensures !o.failed ==> o.obj.ready && o.obj.provisioned
    ensures !o.failed && a.obj.endpoint.host == "" && a.obj.cpIp.Some? ==>
      o.obj.endpoint == Endpoint(a.obj.cpIp.value, 443)
    ensures !o.failed && a.obj.endpoint.host == "" && a.obj.cpIp.None? ==>
      rep.ip.Granted? && o.obj.endpoint == Endpoint(rep.ip.id, 443)
    ensures !o.failed && a.obj.cpIp != Some("") ==> o.obj.endpoint.host != ""
    ensures !o.failed && a.obj.endpoint.host == "" && a.obj.cpIp.None? ==>
      SpendsFor(a.metal.spentIps, o.metal.spentIps, rep.ip, o.obj.endpoint.host)
  {
    if a.obj.endpoint.host != "" then a.(obj := a.obj.(ready := true, provisioned := true), failed := false)
    else
      var (metal', ip) := EnsureIP(a.obj, a.metal, rep);
      match ip
      case None => a.(obj := Mark(a.obj, ControlPlaneIPEnsured, false), metal := metal', failed := true)
      case Some(host) =>
        var c := Mark(a.obj, ControlPlaneIPEnsured, true);
        a.(obj := c.(endpoint := Endpoint(host, PORT), ready := true, provisioned := true),
           metal := metal', failed := false)
  }

  /** Provisioning: network, firewall deployment, endpoint, each behind the one
      before it. */
  function Reconcile(k: Key, c: Cluster, deps: Deployments, metal: Metal, rep: Replies): (o: Outcome)
    ensures SameCluster(o.obj, c) && KeepsPlace(c, o.obj)
    ensures o.deployments == deps
         || (c.fwRef.Some? && Adopt(k, deps, DeploymentKey(k, c), rep) == Some(o.deployments))
    ensures o.metal.hosts == metal.hosts && metal.nets.Keys <= o.metal.nets.Keys && o.metal.lenient == metal.lenient
    ensures Spends(metal.spentNets, o.metal.spentNets, rep.net)
    ensures Spends(metal.spentIps, o.metal.spentIps, rep.ip)
    ensures c.netId.Some? ==> o.metal.nets == metal.nets && o.metal.spentNets == metal.spentNets
    ensures c.netId.None? && o.obj.netId.Some? ==>
      SpendsFor(metal.spentNets, o.metal.spentNets, rep.net, o.obj.netId.value) && o.obj.netId.value in o.metal.nets
    ensures c.endpoint.host != "" || c.cpIp.Some? ==> o.metal.spentIps == metal.spentIps && o.metal.ips == metal.ips
    ensures !o.failed && c.endpoint.host == "" && c.cpIp.Some? ==> o.obj.endpoint == Endpoint(c.cpIp.value, 443)
    ensures !o.failed && c.endpoint.host == "" && c.cpIp.None? ==>
      rep.ip.Granted? && o.obj.endpoint == Endpoint(rep.ip.id, 443)
    ensures o.obj.endpoint != c.endpoint && c.cpIp.None? ==>
      SpendsFor(metal.spentIps, o.metal.spentIps, rep.ip, o.obj.endpoint.host)
    ensures o.obj.ready && !c.ready ==> !o.failed
    ensures !o.failed && c.cpIp != Some("") ==>
      o.obj.ready && o.obj.netId.Some? && o.obj.endpoint.host != ""
  {
    var a := EnsureNetwork(c, deps, metal, rep);
    if a.failed then a
    else
      var b := EnsureDeployment(k, a, rep);
      if b.failed then b else EnsureEndpoint(b, rep)
  }

  // ---------------------------------------------------------------- deletion

  datatype Verdict = Stop(failed: bool) | Clear | Panic

  /** The guard of deletion. Without a firewall deployment reference the code
      dereferences nil, which ends the run without a patch. The wait for the
      deployment reports no error. */
  function Guard(k: Key, c: Cluster, machinesLeft: bool, deps: Deployments, rep: Replies, now: Time)
    : (r: (Deployments, Verdict))
    ensures r.1.Clear? ==> c.finalizer && !machinesLeft && r.0 == deps && c.fwRef.Some? && DeploymentKey(k, c) !in deps
    ensures r.0 != deps ==>
      && c.fwRef.Some? && !machinesLeft && DeploymentKey(k, c) in deps
      && deps[DeploymentKey(k, c)].deletion.None?
      && r.0 == deps[DeploymentKey(k, c) := deps[DeploymentKey(k, c)].(deletion := Some(now))]
    ensures r.1.Panic? <==> c.finalizer && !machinesLeft && rep.list && c.fwRef.None?
  {
    if !c.finalizer then (deps, Stop(false))
    else if !rep.list || machinesLeft then (deps, Stop(true))
    else if c.fwRef.None? then (deps, Panic)
    else
      var fk := DeploymentKey(k, c);
      if !rep.getDeployment then (deps, Stop(false))
      else if fk !in deps then (deps, Clear)
      else if deps[fk].deletion.Some? || !rep.deleteDeployment then (deps, Stop(false))
      else (deps[fk := deps[fk].(deletion := Some(now))], Stop(false))
  }

  /** Giving back the control-plane address. A static address is left alone. */
  function DeleteIP(c: Cluster, metal: Metal, rep: Replies): (r: (Metal, bool))
    ensures r.0 == metal || (c.cpIp.Some? && c.cpIp.value in metal.ips && metal.ips[c.cpIp.value] == Ephemeral
                             && r.0 == metal.(ips := metal.ips - {c.cpIp.value}))
    ensures r.1 && c.cpIp.Some? && c.cpIp.value in r.0.ips ==> r.0.ips[c.cpIp.value] == Static
  {
    if c.cpIp.None? then (metal, true)
    else match FindIP(metal, c.cpIp.value, rep.findIP)
      case IPError => (metal, false)
      case NoIP => (metal, true)
      case AnIP(kind) =>
        if kind == Static then (metal, true)
        else
          assert kind == Ephemeral;
          (FreeIP(metal, c.cpIp.value, rep.freeIP), rep.freeIP.Freed?)
  }

  function DeleteNetwork(c: Cluster, metal: Metal, rep: Replies): (r: (Metal, bool))
    ensures r.0 == metal || (c.netId.Some? && c.netId.value in metal.nets
                             && r.0 == metal.(nets := metal.nets - {c.netId.value}))
    ensures r.1 && c.netId.Some? ==> c.netId.value !in r.0.nets
  {
    if c.netId.None? then (metal, true)
    else
      var metal' := FreeNetwork(metal, c.netId.value, rep.freeNet);
      assert c.netId.value !in metal.nets ==> metal'.nets == metal.nets;
      (metal', FreeNetworkSucceeds(metal, c.netId.value, rep.freeNet))
  }

  /** The teardown behind the guard: address, network, finalizer. Progress made
      before an error is kept on the object. */
  function Teardown(c: Cluster, deps: Deployments, metal: Metal, rep: Replies): (o: Outcome)
    ensures SameCluster(o.obj, c) && o.deployments == deps && o.metal.hosts == metal.hosts
    ensures o.metal.lenient == metal.lenient
    ensures o.obj.endpoint == c.endpoint && o.obj.ready == c.ready
    ensures o.metal.nets != metal.nets ==> c.netId.Some? && o.metal.nets == metal.nets - {c.netId.value}
    ensures o.metal.spentNets == metal.spentNets && o.metal.spentIps == metal.spentIps
    ensures o.metal.ips != metal.ips ==>
      && c.cpIp.Some? && c.cpIp.value in metal.ips && metal.ips[c.cpIp.value] == Ephemeral
      && o.metal.ips == metal.ips - {c.cpIp.value}
    ensures o.failed ==> o.obj.netId == c.netId && o.obj.finalizer == c.finalizer
    ensures !o.failed ==> o.obj.netId.None? && !o.obj.finalizer && o.obj.cpIp.None?
    ensures o.obj.cpIp == c.cpIp
         || (o.obj.cpIp.None? && (c.cpIp.value in o.metal.ips ==> o.metal.ips[c.cpIp.value] == Static))
    ensures !o.failed && c.netId.Some? ==> c.netId.value !in o.metal.nets
    ensures !o.failed && c.cpIp.Some? && c.cpIp.value in o.metal.ips ==> o.metal.ips[c.cpIp.value] == Static
  {
    var (metal1, ipGone) := DeleteIP(c, metal, rep);
    if !ipGone then Outcome(c, deps, metal1, true)
    else
      var c1 := c.(cpIp := None);
      var (metal2, netGone) := DeleteNetwork(c1, metal1, rep);
      if !netGone then Outcome(c1, deps, metal2, true)
      else Outcome(c1.(netId := None, finalizer := false), deps, metal2, false)
  }

  /** The object as a run starts on it, and the arms other than deletion. */
  function Begin(c: Cluster, paused: bool): Cluster {
    c.(conds := SetPaused(c.conds, paused, NotPaused))
  }

  function RunUp(k: Key, c: Cluster, deps: Deployments, metal: Metal, rep: Replies, paused: bool): (o: Outcome)
    requires paused || c.deletion.None?
    ensures paused || !c.finalizer ==>
      && o.deployments == deps && o.metal == metal && SameCluster(o.obj, c)
      && o.obj.netId == c.netId && o.obj.cpIp == c.cpIp && o.obj.endpoint == c.endpoint
      && (o.obj.finalizer <==> c.finalizer || !paused) && o.obj.ready == c.ready
    ensures !paused && c.finalizer ==> o == Reconcile(k, Begin(c, false), deps, metal, rep)
  {
    var p := Begin(c, paused);
    if paused then Outcome(p, deps, metal, false)
    else if !p.finalizer then Outcome(p.(finalizer := true), deps, metal, false)
    else Reconcile(k, p, deps, metal, rep)
  }
}

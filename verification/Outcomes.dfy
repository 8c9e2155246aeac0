/** When a run succeeds, exactly, and what it leaves behind: on the fields of its
    object, on other objects, and at the provider, for every reply. */
module Outcomes {
  import opened Names
  import opened Store
  import opened Metal
  import M = MachineSpec
  import C = ClusterSpec
  import F = FirewallSpec

  /** The provider hands out a new name and says so. */
  predicate Grants(g: Grant, taken: set<string>) {
    g.Granted? && g.id != "" && g.id !in taken
  }

  /** What is taken after the provider was asked: a new name also when its answer is lost. */
  function Taken(g: Grant, taken: set<string>, asked: bool): set<string> {
    if asked && !g.Denied? && g.id != "" then taken + {g.id} else taken
  }

  // ------------------------------------------------------------------ machines

  predicate MayStart(m: Machine, c: Cluster) {
    c.netId.Some? && c.endpoint.host != "" && m.secret.Some?
  }

  /** The recorded machine is at the provider, in the project of the cluster. */
  predicate There(m: Machine, c: Cluster, metal: Metal) {
    && m.providerID != "" && M.RecordedID(m) in metal.hosts
    && metal.hosts[M.RecordedID(m)].project == c.project
  }

  function Marked(m: Machine, created: Option<Cond>): Conds {
    var p := m.conds[Paused := Cond(false, NotPaused)];
    if created.Some? then p[MachineCreated := created.value] else p
  }

  /** Provisioning succeeds exactly when network, endpoint and secret name are there and
      the recorded machine is found, or, without one, a new one is granted; a machine is
      asked for only behind all of these. One that fails
      says by condition or failure what is missing and touches nothing else: a machine
      that is gone is a failure of the object, an unanswered call is not. */
  lemma MachineOutcome(uid: nat, m: Machine, c: Cluster, metal: Metal, rep: M.Replies, now: Time)
    requires m.finalizer && m.deletion.None?
    ensures var o := M.Run(uid, m, c, metal, rep, false, now);
      && (!o.failed <==>
            && MayStart(m, c)
            && if m.providerID == "" then rep.secret && Grants(rep.alloc, metal.hosts.Keys)
               else rep.find && There(m, c, metal))
      && o.metal.hosts.Keys == Taken(rep.alloc, metal.hosts.Keys, MayStart(m, c) && m.providerID == "" && rep.secret)
      && (o.failed ==>
            && o.requeue == None && o.obj == m.(failure := o.obj.failure, conds := o.obj.conds)
            && o.obj.failure == (if MayStart(m, c) && m.providerID != "" && rep.find then Some(DeletedExternally)
                                 else m.failure)
            && o.obj.conds == Marked(m, if MayStart(m, c) && (m.providerID == "" || !rep.find)
                                        then Some(Cond(false, InternalError)) else None))
  {
    hide M.Observed, M.MachineHost, M.ObservedRequeue, DecodeProviderID, M.KeepsID, M.PlainPartitions, M.Allocates,
      M.Frees;
  }

  /** Deletion. The recorded machine is freed exactly when it is found in the project and
      the free is not refused. The finalizer goes with the confirmed free of a worker, and
      when no machine is there any more, for a control-plane machine once thirty seconds
      have passed since the request. A control-plane machine comes again, after a minute
      behind a free, after fifteen seconds within the period. */
  lemma DeletionOutcome(uid: nat, m: Machine, c: Cluster, metal: Metal, rep: M.Replies, now: Time)
    requires m.finalizer && m.deletion.Some?
    ensures var o := M.Run(uid, m, c, metal, rep, false, now); var id := M.RecordedID(m);
      var answered, there := m.providerID == "" || rep.find, There(m, c, metal);
      var over := now > m.deletion.value + 30 * 1000;
      && o.metal == metal.(hosts := if answered && there && !rep.free.Refused? then metal.hosts - {id}
                                    else metal.hosts)
      && (o.failed <==> !answered || (there && !rep.free.Freed?))
      && (!o.obj.finalizer <==> answered && if there then rep.free.Freed? && !m.controlPlane
                                            else !m.controlPlane || over)
      && o.requeue == (if !answered || !m.controlPlane then None
                       else if there then (if rep.free.Freed? then Some(60 * 1000) else None)
                       else if over then None else Some(15 * 1000))
      && o.obj == m.(finalizer := o.obj.finalizer,
                     conds := Marked(m, if answered then None else Some(Cond(false, InternalError))))
  {
    hide DecodeProviderID, M.KeepsID, M.PlainPartitions, M.Allocates, M.MachineHost, M.MayProvision, M.Reconcile;
  }

  /** A paused run, one that adds the finalizer and one behind it touch nothing else. */
  lemma IdleMachine(uid: nat, m: Machine, c: Cluster, metal: Metal, rep: M.Replies, paused: bool, now: Time)
    requires paused || !m.finalizer
    ensures M.Run(uid, m, c, metal, rep, paused, now)
         == M.Outcome(m.(finalizer := m.finalizer || (!paused && m.deletion.None?),
                         conds := m.conds[Paused := Cond(paused, if paused then IsPaused else NotPaused)]),
                      metal, None, false)
  {
    hide M.KeepsID, M.PlainPartitions, M.Allocates, M.Frees, M.MachineHost, M.MayProvision, M.Reconcile;
  }

  // ------------------------------------------------------------------ clusters

  predicate NetworkComes(c: Cluster, metal: Metal, rep: C.Replies) {
    c.netId.Some? || Grants(rep.net, metal.spentNets + metal.nets.Keys)
  }

  /** The referenced deployment, in the namespace of the cluster, is its own already or
      is nobody's and the update goes through. */
  predicate DeploymentComes(k: Key, c: Cluster, deps: C.Deployments, rep: C.Replies) {
    c.fwRef.Some? ==>
      var fk := Key(k.ns, c.fwRef.value);
      rep.getDeployment && fk in deps && (deps[fk].owner == Some(k) || (deps[fk].owner.None? && rep.update))
  }

  /** A network is asked for only when none is recorded, and never again by name. */
  function NetworksTaken(c: Cluster, metal: Metal, rep: C.Replies): set<string> {
    Taken(rep.net, metal.nets.Keys, c.netId.None? && !rep.net.Denied? && rep.net.id !in metal.spentNets)
  }

  /** An address is asked for only when there is no endpoint and none is given, and only
      from the one default network. */
  function AddressesTaken(c: Cluster, metal: Metal, rep: C.Replies, reached: bool): set<string> {
    Taken(rep.ip, metal.ips.Keys, && reached && c.endpoint.host == "" && c.cpIp.None? && rep.findNets
                                  && |metal.defaults| == 1 && !rep.ip.Denied? && rep.ip.id !in metal.spentIps)
  }

  predicate AddressComes(c: Cluster, metal: Metal, rep: C.Replies) {
    || c.endpoint.host != "" || c.cpIp.Some?
    || (rep.findNets && |metal.defaults| == 1 && Grants(rep.ip, metal.spentIps + metal.ips.Keys))
  }

  /** The deployments once the referenced one belongs to the cluster. */
  function WithOwned(k: Key, c: Cluster, deps: C.Deployments): C.Deployments {
    if c.fwRef.None? || Key(k.ns, c.fwRef.value) !in deps || deps[Key(k.ns, c.fwRef.value)].owner.Some? then deps
    else
      var fk := Key(k.ns, c.fwRef.value);
      deps[fk := deps[fk].(owner := Some(k), clusterLabel := Some(k.name))]
  }

  function Shown(ok: bool): Cond {
    if ok then Cond(true, Ensured) else Cond(false, InternalError)
  }

  /** The conditions a provisioning leaves: one for each part it came to. */
  function Conditions(c: Cluster, net: bool, owned: bool, address: bool): Conds {
    var p := c.conds[Paused := Cond(false, NotPaused)];
    var a := p[NodeNetworkEnsured := Shown(net)];
    var b := if net && c.fwRef.Some? then a[DeploymentEnsured := Shown(owned)] else a;
    if net && owned && c.endpoint.host == "" then b[ControlPlaneIPEnsured := Shown(address)] else b
  }

  lemma NetworkOutcome(c: Cluster, deps: C.Deployments, metal: Metal, rep: C.Replies)
    ensures var o := C.EnsureNetwork(c, deps, metal, rep);
      && (!o.failed <==> NetworkComes(c, metal, rep))
      && (!o.failed && c.netId.None? ==>
            && o.obj.netId == Some(rep.net.id)
            && o.metal == metal.(nets := metal.nets[rep.net.id := c.project],
                                 spentNets := metal.spentNets + {rep.net.id}))
      && o.metal.nets.Keys == NetworksTaken(c, metal, rep)
      && o.obj == c.(netId := o.obj.netId, conds := c.conds[NodeNetworkEnsured := Shown(!o.failed)])
  {
    hide Spends, SpendsFor;
  }

  lemma OwnerOutcome(k: Key, a: C.Outcome, rep: C.Replies)
    ensures var b := C.EnsureDeployment(k, a, rep); var ok := DeploymentComes(k, a.obj, a.deployments, rep);
      && (!b.failed <==> ok) && b.metal == a.metal
      && b.obj == (if a.obj.fwRef.Some? then a.obj.(conds := a.obj.conds[DeploymentEnsured := Shown(ok)]) else a.obj)
      && b.deployments == if ok then WithOwned(k, a.obj, a.deployments) else a.deployments
  {}

  lemma AddressOutcome(b: C.Outcome, rep: C.Replies)
    ensures var o, c := C.EnsureEndpoint(b, rep), b.obj;
      && (!o.failed <==> AddressComes(c, b.metal, rep)) && o.deployments == b.deployments
      && (!o.failed ==>
            && o.obj == c.(endpoint := o.obj.endpoint, ready := true, provisioned := true, conds := o.obj.conds)
            && (c.endpoint.host == "" && c.cpIp.None? ==>
                  o.metal == b.metal.(ips := b.metal.ips[rep.ip.id := Ephemeral],
                                      spentIps := b.metal.spentIps + {rep.ip.id})))
      && o.metal.ips.Keys == AddressesTaken(c, b.metal, rep, true)
      && (o.failed ==> o.obj == c.(conds := o.obj.conds))
      && o.obj.conds == if c.endpoint.host == "" then c.conds[ControlPlaneIPEnsured := Shown(!o.failed)] else c.conds
  {
    hide Spends, SpendsFor;
  }

  /** Provisioning succeeds exactly when network, deployment and address are there or
      can be had. Whatever fails behind it, a granted network is recorded and in the
      project of the cluster, and the deployment is owned and labelled; an acquired
      address is ephemeral. The conditions show each part the run came to, and nothing
      else on the object changes. */
  lemma ClusterOutcome(k: Key, c: Cluster, deps: C.Deployments, metal: Metal, rep: C.Replies)
    requires c.finalizer && c.deletion.None?
    ensures var o := C.RunUp(k, c, deps, metal, rep, false);
      var net, owned, address :=
        NetworkComes(c, metal, rep), DeploymentComes(k, c, deps, rep), AddressComes(c, metal, rep);
      && (!o.failed <==> net && owned && address)
      && (c.netId.Some? ==> o.obj.netId == c.netId)
      && (c.netId.None? && net ==>
            o.obj.netId == Some(rep.net.id) && o.metal.nets == metal.nets[rep.net.id := c.project])
      && o.deployments == (if net && owned then WithOwned(k, c, deps) else deps)
      && o.metal.nets.Keys == NetworksTaken(c, metal, rep)
      && o.metal.ips.Keys == AddressesTaken(c, metal, rep, net && owned)
      && o.obj == c.(netId := o.obj.netId, endpoint := o.obj.endpoint, conds := Conditions(c, net, owned, address),
                     ready := !o.failed || c.ready, provisioned := !o.failed || c.provisioned)
      && (!o.failed && c.endpoint.host == "" && c.cpIp.None? ==> o.metal.ips == metal.ips[rep.ip.id := Ephemeral])
      && (o.failed || c.endpoint.host != "" ==> o.obj.endpoint == c.endpoint)
  {
    var p := C.Begin(c, false);
    var a := C.EnsureNetwork(p, deps, metal, rep);
    NetworkOutcome(p, deps, metal, rep);
    OwnerOutcome(k, a, rep);
    AddressOutcome(C.EnsureDeployment(k, a, rep), rep);
    hide C.EnsureNetwork, C.EnsureDeployment, C.EnsureEndpoint, Spends, SpendsFor, C.Adopt;
  }

  /** A paused run and one that adds the finalizer touch nothing else. */
  lemma IdleCluster(k: Key, c: Cluster, deps: C.Deployments, metal: Metal, rep: C.Replies, paused: bool)
    requires paused || (c.deletion.None? && !c.finalizer)
    ensures C.RunUp(k, c, deps, metal, rep, paused)
         == C.Outcome(c.(finalizer := c.finalizer || !paused,
                         conds := c.conds[Paused := Cond(paused, if paused then IsPaused else NotPaused)]),
                      deps, metal, false)
  {
    hide C.Reconcile, Spends, SpendsFor, C.Adopt;
  }

  predicate AddressGoes(c: Cluster, metal: Metal, rep: C.Replies) {
    c.cpIp.Some? ==>
      rep.findIP && (c.cpIp.value !in metal.ips || metal.ips[c.cpIp.value] == Static || rep.freeIP.Freed?)
  }

  predicate NetworkGoes(c: Cluster, metal: Metal, rep: C.Replies) {
    c.netId.Some? ==> rep.freeNet.Freed? && (c.netId.value in metal.nets || metal.lenient)
  }

  /** The teardown succeeds exactly when address and network go; the address is dropped
      from the record as soon as it is gone, the network only together with the
      finalizer. The network is asked for only behind the address. */
  lemma TeardownOutcome(c: Cluster, deps: C.Deployments, metal: Metal, rep: C.Replies)
    ensures var o := C.Teardown(c, deps, metal, rep);
      var ip, net := AddressGoes(c, metal, rep), NetworkGoes(c, metal, rep);
      && (!o.failed <==> ip && net)
      && o.obj == c.(cpIp := if ip then None else c.cpIp, netId := if ip && net then None else c.netId,
                     finalizer := c.finalizer && !(ip && net))
      && o.metal.nets == if ip && c.netId.Some? && !rep.freeNet.Refused? then metal.nets - {c.netId.value}
                         else metal.nets
  {}

  /** The guard of a deletion fails while machines are left or cannot be listed, and only
      then; the wait for the deployment is no error. It lets the teardown through exactly
      when there are none and the deployment, looked up, is absent. */
  lemma GuardOutcome(k: Key, c: Cluster, left: bool, deps: C.Deployments, rep: C.Replies, now: Time)
    ensures var v := C.Guard(k, c, left, deps, rep, now).1;
      && (v.Stop? && v.failed <==> c.finalizer && (left || !rep.list))
      && (v.Clear? <==> && c.finalizer && !left && rep.list && c.fwRef.Some? && rep.getDeployment
                        && Key(k.ns, c.fwRef.value) !in deps)
  {}

  // --------------------------------------------------------------- deployments

  /** The template in the namespace of the deployment knows it as an owner, or can be told. */
  predicate TemplateComes(k: Key, d: Deployment, t: Template, ts: F.Templates, rep: F.Replies) {
    k in t.owners || (rep.patchTemplate && Key(k.ns, d.template) in ts)
  }

  predicate FirewallComes(d: Deployment, t: Template, metal: Metal, rep: F.Replies) {
    d.ref.Some? || (t.rules.Some? && Grants(rep.alloc, metal.hosts.Keys))
  }

  /** Provisioning succeeds exactly when the cluster has its network, the template its
      owner, and a reference is stored or a firewall with the template's rules is granted.
      Success makes the object ready and stores the reference; without it the object
      stays as it is, and only the owner list of the template may have grown. A firewall
      is asked for only behind the owner and with rules. */
  lemma DeploymentOutcome(k: Key, d: Deployment, ck: Key, c: Cluster, t: Template, ts: F.Templates, metal: Metal,
                          rep: F.Replies)
    requires d.finalizer && d.deletion.None?
    ensures var o := F.RunUp(k, d, ck, c, t, ts, metal, rep, false);
      var tk, owned, firewall :=
        Key(k.ns, d.template), TemplateComes(k, d, t, ts, rep), FirewallComes(d, t, metal, rep);
      && (!o.failed <==> c.netId.Some? && owned && firewall)
      && o.obj == d.(ready := !o.failed || d.ready, conds := d.conds[Paused := Cond(false, IsPaused)],
                     ref := if o.failed || d.ref.Some? then d.ref
                            else Some("metal://" + c.partition + "/" + rep.alloc.id))
      && o.templates == (if c.netId.Some? && owned && k !in t.owners then ts[tk := ts[tk].(owners := t.owners + {k})]
                         else ts)
      && o.metal.hosts.Keys ==
         Taken(rep.alloc, metal.hosts.Keys, c.netId.Some? && owned && d.ref.None? && t.rules.Some?)
  {
    hide F.FirewallHost, F.NewFirewall;
  }

  /** Behind the guard a deletion succeeds exactly when the firewalls were found and every
      one of them was freed; that and nothing else takes the finalizer. What could be freed
      is gone also when it fails. */
  lemma ReclaimOutcome(k: Key, d: Deployment, ck: Key, c: Cluster, ts: F.Templates, metal: Metal, rep: F.Replies)
    requires d.finalizer && c.netId.Some?
    ensures var o := F.Reclaim(k, d, ck, c, ts, metal, rep);
      && (!o.failed <==>
            && rep.search.Some?
            && Lists(rep.search.value, Matching(metal, c.partition, c.project, FirewallTags(c.netId.value, ck, k)))
            && AllFreed(rep.search.value, rep.frees))
      && o.metal == (if && rep.search.Some? && Lists(rep.search.value,
                             Matching(metal, c.partition, c.project, FirewallTags(c.netId.value, ck, k)))
                     then F.FreeFirst(metal, rep.search.value, rep.frees, |rep.search.value|) else metal)
      && o.obj == d.(finalizer := o.failed)
  {
    hide Lists, Matching, FirewallTags, F.FreeFirst, F.ErrorsFirst, AllFreed;
    var ids := Matching(metal, c.partition, c.project, FirewallTags(c.netId.value, ck, k));
    if rep.search.Some? && Lists(rep.search.value, ids) {
      FoundAreHosts(rep.search.value, metal, c.partition, c.project, FirewallTags(c.netId.value, ck, k));
      ErrorsUnlessFreed(metal, rep.search.value, rep.frees);
    }
  }

  lemma FoundAreHosts(order: seq<string>, metal: Metal, partition: string, project: string, tags: seq<Tag>)
    requires Lists(order, Matching(metal, partition, project, tags))
    ensures NoDuplicates(order) && Elems(order) <= metal.hosts.Keys
  {
    hide Matches;
  }

  /** Every free was confirmed. */
  predicate AllFreed(order: seq<string>, frees: seq<Release>) {
    forall i | 0 <= i < |order| :: i < |frees| && frees[i].Freed?
  }

  lemma ErrorsUnlessFreed(metal: Metal, order: seq<string>, frees: seq<Release>)
    requires NoDuplicates(order) && Elems(order) <= metal.hosts.Keys
    ensures F.ErrorsFirst(metal, order, frees, |order|) == [] <==> AllFreed(order, frees)
  {
    hide F.FreeFirst, F.ErrorsFirst, NoDuplicates, Elems;
    F.LoopFrees(metal, order, frees, |order|);
    var errs := F.ErrorsFirst(metal, order, frees, |order|);
    if errs != [] {
      assert errs[0] in errs;
      var i :| 0 <= i < |order| && order[i] == errs[0] && !F.ReleaseAt(frees, i).Freed?;
      assert !(i < |frees| && frees[i].Freed?);
    }
    forall i | 0 <= i < |order| && errs == []
      ensures i < |frees| && frees[i].Freed?
    {
      assert order[i] !in errs;
    }
  }

  /** A paused run and one that adds the finalizer touch nothing else. The reason says
      paused either way. */
  lemma IdleDeployment(k: Key, d: Deployment, ck: Key, c: Cluster, t: Template, ts: F.Templates, metal: Metal,
                       rep: F.Replies, paused: bool)
    requires paused || (d.deletion.None? && !d.finalizer)
    ensures F.RunUp(k, d, ck, c, t, ts, metal, rep, paused)
         == F.Outcome(d.(finalizer := d.finalizer || !paused, conds := d.conds[Paused := Cond(paused, IsPaused)]),
                      ts, metal, false, false)
  {
    hide F.Reconcile, F.FirewallHost, F.NewFirewall;
  }
}

/** The three controllers, the object store, the provider and the users as one
    transition system. A run of a controller is split: it loads a snapshot, acts
    on the provider and on other objects, and patches its own object; the guard of
    a deletion and what is behind it are two steps. Anything else may happen in
    between. A patch is applied whole or lost. Runs for one
    object do not overlap. */
module Protocol {
  import opened Names
  import opened Store
  import opened Metal
  import M = MachineSpec
  import C = ClusterSpec
  import F = FirewallSpec

  datatype ClusterRun =
    | CLoaded(c: Cluster)
    | CCleared(c: Cluster)
    | CActed(before: Cluster, after: Cluster, newNet: bool, newIp: bool)

  datatype MachineRun =
    | MLoaded(m: Machine, c: Cluster)
    | MActed(before: Machine, after: Machine, pending: set<string>)

  datatype DeploymentRun =
    | FLoaded(d: Deployment, ck: Key, c: Cluster, t: Template)
    | FCleared(d: Deployment, ck: Key, c: Cluster, closing: bool)
    | FActed(before: Deployment, after: Deployment)

  /** What happened to one machine object: provider machines allocated for it,
      allocations it never came to know of, and their ids. */
  datatype MachineBook = MachineBook(cluster: Key, allocs: nat, lost: nat, orphans: set<string>)

  /** The same for networks and addresses of a cluster. `autoNet` and `autoHost`
      say that the recorded value was allocated for it. The book outlives the object:
      `ipLeft` counts the addresses that a cluster has left behind when it went. */
  datatype ClusterBook = ClusterBook(
    netAllocs: nat, netLost: nat, netCleared: nat, autoNet: bool,
    ipAllocs: nat, ipLost: nat, ipLeft: nat, autoHost: bool)

  const BLANK: ClusterBook := ClusterBook(0, 0, 0, false, 0, 0, 0, false)

  datatype Sys = Sys(
    kube: Kube, metal: Metal, now: Time,
    cruns: map<Key, ClusterRun>, mruns: map<nat, MachineRun>, fruns: map<Key, DeploymentRun>,
    cbooks: map<Key, ClusterBook>, mbooks: map<nat, MachineBook>)

  /** Nothing stored yet; the provider may hold what others own. */
  predicate Init(s: Sys) {
    && s.kube.clusters == map[] && s.kube.machines == map[] && s.kube.deployments == map[]
    && s.cruns == map[] && s.mruns == map[] && s.fruns == map[] && s.cbooks == map[] && s.mbooks == map[]
    && (forall id | id in s.metal.hosts :: ForeignHost(s.metal.hosts[id]))
  }

  /** The hosts of others carry whatever tags, but not the one that names a firewall
      deployment. */
  predicate ForeignHost(h: Host) {
    h.origin == Foreign && NamesNoDeployment(h.tags) && Lacks(Deref(h.partition), '/')
  }

  predicate NamesNoDeployment(tags: seq<Tag>) {
    forall t | t in tags :: t.key != DeploymentResource
  }

  // ------------------------------------------------------ the machine controller

  function LoadMachine(s: Sys, u: nat): (t: Sys)
    ensures t == s.(mruns := t.mruns)
  {
    if u in s.kube.machines && u !in s.mruns && s.kube.machines[u].cluster in s.kube.clusters
    then var m := s.kube.machines[u];
         s.(mruns := s.mruns[u := MLoaded(m, s.kube.clusters[m.cluster])])
    else s
  }

  function Settle(b: MachineBook, born: set<string>, known: set<string>): MachineBook {
    b.(allocs := b.allocs + |born|, lost := b.lost + |born - known|, orphans := b.orphans + (born - known))
  }

  /** The outcome of a run: the provider's new state, the patch to come, and the
      books. An allocation that the run does not record is lost at once. */
  function RecordRun(s: Sys, u: nat, m: Machine, o: M.Outcome): (t: Sys)
    requires u in s.mbooks
    ensures t == s.(metal := o.metal, mruns := t.mruns, mbooks := t.mbooks)
  {
    var born := o.metal.hosts.Keys - s.metal.hosts.Keys;
    var known := if m.providerID == "" && o.obj.providerID != "" then born else {};
    s.(metal := o.metal,
       mruns := s.mruns[u := MActed(m, o.obj, known)],
       mbooks := s.mbooks[u := Settle(s.mbooks[u], born, known)])
  }

  function ActMachine(s: Sys, u: nat, rep: M.Replies, paused: bool): (t: Sys)
    ensures t == s.(metal := s.metal.(hosts := t.metal.hosts), mruns := t.mruns, mbooks := t.mbooks)
  {
    if u in s.mruns && s.mruns[u].MLoaded? && u in s.mbooks
    then RecordRun(s, u, s.mruns[u].m, M.Run(u, s.mruns[u].m, s.mruns[u].c, s.metal, rep, paused, s.now))
    else s
  }

  function PatchMachine(s: Sys, u: nat, applied: bool): (t: Sys)
    ensures t == s.(kube := s.kube.(machines := t.kube.machines), mruns := t.mruns, mbooks := t.mbooks)
  {
    if u in s.mruns && s.mruns[u].MActed? && u in s.kube.machines && u in s.mbooks then
      var r, b := s.mruns[u], s.mbooks[u];
      if applied
      then s.(kube := s.kube.(machines := s.kube.machines[u := MergeMachine(s.kube.machines[u], r.before, r.after)]),
              mruns := s.mruns - {u})
      else s.(mruns := s.mruns - {u},
              mbooks := s.mbooks[u := b.(lost := b.lost + |r.pending|, orphans := b.orphans + r.pending)])
    else s
  }

  /** The API server removes an object that is being deleted once no finalizer
      is left. */
  function VanishMachine(s: Sys, u: nat): (t: Sys)
    ensures t == s.(kube := s.kube.(machines := t.kube.machines), mruns := t.mruns)
  {
    if u in s.kube.machines && s.kube.machines[u].deletion.Some? && !s.kube.machines[u].finalizer
    then s.(kube := s.kube.(machines := s.kube.machines - {u}), mruns := s.mruns - {u})
    else s
  }

  // ------------------------------------------------------ the cluster controller

  function LoadCluster(s: Sys, k: Key): (t: Sys)
    ensures t == s.(cruns := t.cruns)
  {
    if k in s.kube.clusters && k !in s.cruns
    then s.(cruns := s.cruns[k := CLoaded(s.kube.clusters[k])])
    else s
  }

  /** The patch to come after provisioning, and what of it is newly allocated. */
  function UpRun(c: Cluster, o: C.Outcome, metal: Metal): ClusterRun {
    CActed(c, o.obj, c.netId.None? && o.obj.netId.Some?,
           o.metal.spentIps != metal.spentIps && o.obj.endpoint != c.endpoint)
  }

  /** The books: an allocation that the run does not record is lost at once. */
  function UpBook(b: ClusterBook, c: Cluster, o: C.Outcome, metal: Metal): ClusterBook {
    var nets, ips := |o.metal.spentNets - metal.spentNets|, |o.metal.spentIps - metal.spentIps|;
    var r := UpRun(c, o, metal);
    b.(netAllocs := b.netAllocs + nets, netLost := b.netLost + (if r.newNet then 0 else nets),
       ipAllocs := b.ipAllocs + ips, ipLost := b.ipLost + (if r.newIp then 0 else ips))
  }

  function ActClusterUp(s: Sys, k: Key, rep: C.Replies, paused: bool): Sys
    requires k in s.cruns && s.cruns[k].CLoaded? && k in s.cbooks
    requires paused || s.cruns[k].c.deletion.None?
  {
    var c := s.cruns[k].c;
    var o := C.RunUp(k, c, s.kube.deployments, s.metal, rep, paused);
    s.(kube := s.kube.(deployments := o.deployments), metal := o.metal,
       cruns := s.cruns[k := UpRun(c, o, s.metal)],
       cbooks := s.cbooks[k := UpBook(s.cbooks[k], c, o, s.metal)])
  }

  function ActClusterGuard(s: Sys, k: Key, rep: C.Replies): Sys
    requires k in s.cruns && s.cruns[k].CLoaded?
  {
    var c := s.cruns[k].c;
    var (deps, v) := C.Guard(k, C.Begin(c, false), MachinesOf(s.kube, k) != {}, s.kube.deployments, rep, s.now);
    var s' := s.(kube := s.kube.(deployments := deps));
    match v
    case Panic => s'.(cruns := s.cruns - {k})
    case Clear => s'.(cruns := s.cruns[k := CCleared(c)])
    case Stop(_) => s'.(cruns := s.cruns[k := CActed(c, C.Begin(c, false), false, false)])
  }

  function ActClusterTeardown(s: Sys, k: Key, rep: C.Replies): Sys
    requires k in s.cruns && s.cruns[k].CCleared?
  {
    var c := s.cruns[k].c;
    var o := C.Teardown(C.Begin(c, false), s.kube.deployments, s.metal, rep);
    s.(metal := o.metal, cruns := s.cruns[k := CActed(c, o.obj, false, false)])
  }

  function ActCluster(s: Sys, k: Key, rep: C.Replies, paused: bool): (t: Sys)
    ensures t == s.(kube := s.kube.(deployments := t.kube.deployments), metal := t.metal, cruns := t.cruns,
        cbooks := t.cbooks)
         && t.metal.hosts == s.metal.hosts && t.metal.lenient == s.metal.lenient
  {
    if k !in s.cruns || k !in s.cbooks || s.cruns[k].CActed? then s
    else if s.cruns[k].CCleared? then ActClusterTeardown(s, k, rep)
    else if paused || s.cruns[k].c.deletion.None? then ActClusterUp(s, k, rep, paused)
    else ActClusterGuard(s, k, rep)
  }

  function PatchCluster(s: Sys, k: Key, applied: bool): (t: Sys)
    ensures t == s.(kube := s.kube.(clusters := t.kube.clusters), cruns := t.cruns, cbooks := t.cbooks)
  {
    if k in s.cruns && s.cruns[k].CActed? && k in s.kube.clusters && k in s.cbooks then
      var r, b := s.cruns[k], s.cbooks[k];
      if applied
      then
        var c := MergeCluster(s.kube.clusters[k], r.before, r.after);
        var dropped := b.autoNet && c.netId.None?;
        s.(kube := s.kube.(clusters := s.kube.clusters[k := c]), cruns := s.cruns - {k},
           cbooks := s.cbooks[k := b.(autoNet := (b.autoNet && !dropped) || r.newNet,
                                      netCleared := b.netCleared + (if dropped then 1 else 0),
                                      autoHost := b.autoHost || r.newIp)])
      else s.(cruns := s.cruns - {k},
              cbooks := s.cbooks[k := b.(netLost := b.netLost + (if r.newNet then 1 else 0),
                                         ipLost := b.ipLost + (if r.newIp then 1 else 0))])
    else s
  }

  /** The book of a cluster that is gone: an address acquired for it stays behind. */
  function CloseBook(b: ClusterBook): ClusterBook {
    b.(autoHost := false, ipLeft := b.ipLeft + if b.autoHost then 1 else 0)
  }

  function VanishCluster(s: Sys, k: Key): (t: Sys)
    ensures t == s.(kube := s.kube.(clusters := t.kube.clusters), cruns := t.cruns, cbooks := t.cbooks)
  {
    if k in s.kube.clusters && s.kube.clusters[k].deletion.Some? && !s.kube.clusters[k].finalizer
    then s.(kube := s.kube.(clusters := s.kube.clusters - {k}), cruns := s.cruns - {k},
            cbooks := if k in s.cbooks then s.cbooks[k := CloseBook(s.cbooks[k])] else s.cbooks)
    else s
  }

  // ------------------------------------------ the firewall deployment controller

  function LoadDeployment(s: Sys, k: Key): (t: Sys)
    ensures t == s.(fruns := t.fruns)
  {
    if k in s.kube.deployments && k !in s.fruns then
      var d := s.kube.deployments[k];
      if d.owner.Some? && d.owner.value in s.kube.clusters && F.TemplateKey(k, d) in s.kube.templates
      then s.(fruns := s.fruns[k := FLoaded(d, d.owner.value, s.kube.clusters[d.owner.value],
                                            s.kube.templates[F.TemplateKey(k, d)])])
      else s
    else s
  }

  function ActDeploymentUp(s: Sys, k: Key, rep: F.Replies, paused: bool): Sys
    requires k in s.fruns && s.fruns[k].FLoaded? && (paused || s.fruns[k].d.deletion.None?)
  {
    var r := s.fruns[k];
    var o := F.RunUp(k, r.d, r.ck, r.c, r.t, s.kube.templates, s.metal, rep, paused);
    s.(kube := s.kube.(templates := o.templates), metal := o.metal, fruns := s.fruns[k := FActed(r.d, o.obj)])
  }

  predicate BeingDeleted(ck: Key, cs: map<Key, Cluster>) {
    ck in cs && cs[ck].deletion.Some?
  }

  /** The run notes whether its cluster is being deleted; the code does not look. */
  function ActDeploymentGuard(s: Sys, k: Key, rep: F.Replies): Sys
    requires k in s.fruns && s.fruns[k].FLoaded?
  {
    var r := s.fruns[k];
    match F.Guard(F.Begin(r.d, false), MachinesOf(s.kube, r.ck) != {}, rep)
    case Stop(_) => s.(fruns := s.fruns[k := FActed(r.d, F.Begin(r.d, false))])
    case Clear => s.(fruns := s.fruns[k := FCleared(r.d, r.ck, r.c, BeingDeleted(r.ck, s.kube.clusters))])
  }

  function ActDeploymentReclaim(s: Sys, k: Key, rep: F.Replies): Sys
    requires k in s.fruns && s.fruns[k].FCleared?
  {
    var r := s.fruns[k];
    var o := F.Reclaim(k, F.Begin(r.d, false), r.ck, r.c, s.kube.templates, s.metal, rep);
    s.(metal := o.metal, fruns := if o.panicked then s.fruns - {k} else s.fruns[k := FActed(r.d, o.obj)])
  }

  function ActDeployment(s: Sys, k: Key, rep: F.Replies, paused: bool): (t: Sys)
    ensures t == s.(kube := s.kube.(templates := t.kube.templates), metal := t.metal, fruns := t.fruns)
  {
    if k !in s.fruns || s.fruns[k].FActed? then s
    else if s.fruns[k].FCleared? then ActDeploymentReclaim(s, k, rep)
    else if paused || s.fruns[k].d.deletion.None? then ActDeploymentUp(s, k, rep, paused)
    else ActDeploymentGuard(s, k, rep)
  }

  function PatchDeployment(s: Sys, k: Key, applied: bool): (t: Sys)
    ensures t == s.(kube := s.kube.(deployments := t.kube.deployments), fruns := t.fruns)
  {
    if k in s.fruns && s.fruns[k].FActed? && k in s.kube.deployments then
      var r := s.fruns[k];
      if applied
      then s.(kube := s.kube.(deployments := s.kube.deployments[k :=
                MergeDeployment(s.kube.deployments[k], r.before, r.after)]),
              fruns := s.fruns - {k})
      else s.(fruns := s.fruns - {k})
    else s
  }

  function VanishDeployment(s: Sys, k: Key): (t: Sys)
    ensures t == s.(kube := s.kube.(deployments := t.kube.deployments), fruns := t.fruns)
  {
    if k in s.kube.deployments && s.kube.deployments[k].deletion.Some? && !s.kube.deployments[k].finalizer
    then s.(kube := s.kube.(deployments := s.kube.deployments - {k}), fruns := s.fruns - {k})
    else s
  }

  // --------------------------------------------------------------------- users

  function Given(name: Option<string>): set<string> {
    if name.Some? then {name.value} else {}
  }

  /** What a user names in a cluster is not handed out to anybody else. */
  function Reserve(m: Metal, c: Cluster): Metal {
    m.(spentNets := m.spentNets + Given(c.netId), spentIps := m.spentIps + Given(c.cpIp))
  }

  function CreateCluster(s: Sys, k: Key, c: Cluster): (t: Sys)
    ensures t == s.(kube := s.kube.(clusters := t.kube.clusters), cbooks := t.cbooks,
                    metal := s.metal.(spentNets := t.metal.spentNets, spentIps := t.metal.spentIps))
         && s.metal.spentNets <= t.metal.spentNets && s.metal.spentIps <= t.metal.spentIps
  {
    if && k !in s.kube.clusters && DnsLabel(k.ns) && Lacks(c.partition, '/') && c.cpIp != Some("")
       && !c.finalizer && c.deletion.None? && !c.ready && !c.provisioned
    then s.(kube := s.kube.(clusters := s.kube.clusters[k := c]), metal := Reserve(s.metal, c),
            cbooks := s.cbooks[k := if k in s.cbooks then s.cbooks[k] else BLANK])
    else s
  }

  /** A cluster that its controller has not picked up yet is deleted only while
      it has no machine objects. */
  function DeleteCluster(s: Sys, k: Key): (t: Sys)
    ensures t == s.(kube := s.kube.(clusters := t.kube.clusters))
  {
    if && k in s.kube.clusters && s.kube.clusters[k].deletion.None?
       && (s.kube.clusters[k].finalizer || MachinesOf(s.kube, k) == {})
    then s.(kube := s.kube.(clusters := s.kube.clusters[k := s.kube.clusters[k].(deletion := Some(s.now))]))
    else s
  }

  function AddMachine(s: Sys, u: nat, m: Machine): Sys {
    s.(kube := s.kube.(machines := s.kube.machines[u := m]),
       mbooks := s.mbooks[u := MachineBook(m.cluster, 0, 0, {})])
  }

  /** Cluster API creates machine objects for clusters that are not being
      deleted. A uid is never used again. */
  function CreateMachine(s: Sys, u: nat, m: Machine): (t: Sys)
    ensures t == s.(kube := s.kube.(machines := t.kube.machines), mbooks := t.mbooks)
  {
    if && u !in s.mbooks && m.cluster in s.kube.clusters && s.kube.clusters[m.cluster].deletion.None?
       && m.providerID == "" && !m.finalizer && m.deletion.None? && !m.ready && !m.provisioned
    then AddMachine(s, u, m)
    else s
  }

  function DeleteMachine(s: Sys, u: nat): (t: Sys)
    ensures t == s.(kube := s.kube.(machines := t.kube.machines))
  {
    if u in s.kube.machines && s.kube.machines[u].deletion.None?
    then s.(kube := s.kube.(machines := s.kube.machines[u := s.kube.machines[u].(deletion := Some(s.now))]))
    else s
  }

  function SetSecret(s: Sys, u: nat, secret: string): (t: Sys)
    ensures t == s.(kube := s.kube.(machines := t.kube.machines))
  {
    if u in s.kube.machines
    then s.(kube := s.kube.(machines := s.kube.machines[u := s.kube.machines[u].(secret := Some(secret))]))
    else s
  }

  function CreateDeployment(s: Sys, k: Key, d: Deployment): (t: Sys)
    ensures t == s.(kube := s.kube.(deployments := t.kube.deployments))
  {
    if && k !in s.kube.deployments && DnsLabel(k.ns)
       && d.owner.None? && d.ref.None? && !d.finalizer && d.deletion.None? && !d.ready
    then s.(kube := s.kube.(deployments := s.kube.deployments[k := d]))
    else s
  }

  function DeleteDeployment(s: Sys, k: Key): (t: Sys)
    ensures t == s.(kube := s.kube.(deployments := t.kube.deployments))
  {
    if k in s.kube.deployments && s.kube.deployments[k].deletion.None?
    then s.(kube := s.kube.(deployments := s.kube.deployments[k := s.kube.deployments[k].(deletion := Some(s.now))]))
    else s
  }

  /** Removing the reference by hand, the documented way to roll a firewall. */
  function DropRef(s: Sys, k: Key): (t: Sys)
    ensures t == s.(kube := s.kube.(deployments := t.kube.deployments))
  {
    if k in s.kube.deployments
    then s.(kube := s.kube.(deployments := s.kube.deployments[k := s.kube.deployments[k].(ref := None)]))
    else s
  }

  function SetTemplate(s: Sys, k: Key, template: Template): (t: Sys)
    ensures t == s.(kube := s.kube.(templates := t.kube.templates))
  {
    s.(kube := s.kube.(templates := s.kube.templates[k := template]))
  }

  function RemoveTemplate(s: Sys, k: Key): (t: Sys)
    ensures t == s.(kube := s.kube.(templates := t.kube.templates))
  {
    s.(kube := s.kube.(templates := s.kube.templates - {k}))
  }

  // ----------------------------------------------------- the world around them

  function Tick(s: Sys, d: Time): (t: Sys)
    ensures t == s.(now := t.now) && t.now >= s.now
  {
    if d > 0 then s.(now := s.now + d) else s
  }

  function FreeExternally(s: Sys, id: string): (t: Sys)
    ensures t == s.(metal := s.metal.(hosts := t.metal.hosts))
  {
    s.(metal := s.metal.(hosts := s.metal.hosts - {id}))
  }

  /** Someone else is given an id that is free, maybe one used before. */
  function Recycle(s: Sys, id: string, h: Host): (t: Sys)
    ensures t == s.(metal := s.metal.(hosts := t.metal.hosts))
  {
    if id !in s.metal.hosts && ForeignHost(h)
    then s.(metal := s.metal.(hosts := s.metal.hosts[id := h]))
    else s
  }

  function ReportHost(s: Sys, id: string, r: Report): (t: Sys)
    ensures t == s.(metal := s.metal.(hosts := t.metal.hosts))
  {
    if id in s.metal.hosts
    then s.(metal := s.metal.(hosts := s.metal.hosts[id := s.metal.hosts[id].(report := r)]))
    else s
  }

  // ---------------------------------------------------------------------- runs

  datatype Step =
    | SLoadMachine(u: nat) | SActMachine(u: nat, mrep: M.Replies, paused: bool)
    | SPatchMachine(u: nat, applied: bool) | SVanishMachine(u: nat)
    | SLoadCluster(k: Key) | SActCluster(k: Key, crep: C.Replies, paused: bool)
    | SPatchCluster(k: Key, applied: bool) | SVanishCluster(k: Key)
    | SLoadDeployment(k: Key) | SActDeployment(k: Key, frep: F.Replies, paused: bool)
    | SPatchDeployment(k: Key, applied: bool) | SVanishDeployment(k: Key)
    | SCreateCluster(k: Key, cluster: Cluster) | SDeleteCluster(k: Key)
    | SCreateMachine(u: nat, machine: Machine) | SDeleteMachine(u: nat) | SSetSecret(u: nat, secret: string)
    | SCreateDeployment(k: Key, deployment: Deployment) | SDeleteDeployment(k: Key) | SDropRef(k: Key)
    | SSetTemplate(k: Key, template: Template) | SRemoveTemplate(k: Key)
    | STick(d: Time) | SFreeExternally(id: string) | SRecycle(id: string, host: Host)
    | SReportHost(id: string, report: Report)

  /** The steps of the machine controller and of machine objects. */
  predicate OnMachines(step: Step) {
    step.SLoadMachine? || step.SActMachine? || step.SPatchMachine? || step.SVanishMachine?
    || step.SCreateMachine? || step.SDeleteMachine? || step.SSetSecret?
  }

  /** The steps of the cluster controller and of cluster objects. */
  predicate OnClusters(step: Step) {
    step.SLoadCluster? || step.SActCluster? || step.SPatchCluster? || step.SVanishCluster?
    || step.SCreateCluster? || step.SDeleteCluster?
  }

  /** The steps of the deployment controller and of deployment objects. */
  predicate OnDeployments(step: Step) {
    step.SLoadDeployment? || step.SActDeployment? || step.SPatchDeployment? || step.SVanishDeployment?
    || step.SCreateDeployment? || step.SDeleteDeployment? || step.SDropRef?
  }

  function Next(s: Sys, step: Step): Sys {
    match step
    case SLoadMachine(u) => LoadMachine(s, u)
    case SActMachine(u, rep, paused) => ActMachine(s, u, rep, paused)
    case SPatchMachine(u, applied) => PatchMachine(s, u, applied)
    case SVanishMachine(u) => VanishMachine(s, u)
    case SLoadCluster(k) => LoadCluster(s, k)
    case SActCluster(k, rep, paused) => ActCluster(s, k, rep, paused)
    case SPatchCluster(k, applied) => PatchCluster(s, k, applied)
    case SVanishCluster(k) => VanishCluster(s, k)
    case SLoadDeployment(k) => LoadDeployment(s, k)
    case SActDeployment(k, rep, paused) => ActDeployment(s, k, rep, paused)
    case SPatchDeployment(k, applied) => PatchDeployment(s, k, applied)
    case SVanishDeployment(k) => VanishDeployment(s, k)
    case SCreateCluster(k, c) => CreateCluster(s, k, c)
    case SDeleteCluster(k) => DeleteCluster(s, k)
    case SCreateMachine(u, m) => CreateMachine(s, u, m)
    case SDeleteMachine(u) => DeleteMachine(s, u)
    case SSetSecret(u, secret) => SetSecret(s, u, secret)
    case SCreateDeployment(k, d) => CreateDeployment(s, k, d)
    case SDeleteDeployment(k) => DeleteDeployment(s, k)
    case SDropRef(k) => DropRef(s, k)
    case SSetTemplate(k, t) => SetTemplate(s, k, t)
    case SRemoveTemplate(k) => RemoveTemplate(s, k)
    case STick(d) => Tick(s, d)
    case SFreeExternally(id) => FreeExternally(s, id)
    case SRecycle(id, h) => Recycle(s, id, h)
    case SReportHost(id, r) => ReportHost(s, id, r)
  }

  /** The state after a run of steps, in any interleaving. */
  function Exec(s: Sys, steps: seq<Step>): Sys {
    if steps == [] then s else Next(Exec(s, steps[..|steps| - 1]), steps[|steps| - 1])
  }

  /** A run of the whole system: it starts with nothing stored and goes on by
      steps of whatever kind. */
  predicate IsRun(states: seq<Sys>, steps: seq<Step>) {
    && |states| == |steps| + 1 && Init(states[0])
    && forall i | 0 <= i < |steps| :: states[i + 1] == Next(states[i], steps[i])
  }

  /** The states that some run reaches. */
  ghost predicate Reached(s: Sys) {
    exists states: seq<Sys>, steps: seq<Step> :: IsRun(states, steps) && states[|steps|] == s
  }
}

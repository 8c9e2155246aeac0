/** The deletion of a whole cluster comes to an end. The three controllers and
    the API server work on a cluster, its machines and its firewall deployment in
    any interleaving, mixed with whatever happens elsewhere. A number counts what
    is left to do. Every calm step keeps the winding down going and enlarges none
    of what is counted. */
module Liveness {
  import opened Names
  import opened Store
  import opened Metal
  import opened Protocol
  import opened Invariant
  import opened StepFrames
  import R = Reachable
  import H = History
  import O = Ownership
  import MS = MachineSteps
  import DS = DeploymentSteps
  import CS = ClusterSteps
  import M = MachineSpec
  import C = ClusterSpec
  import F = FirewallSpec

  type Clusters = map<Key, Cluster>
  type Machines = map<nat, Machine>
  type Deployments = map<Key, Deployment>
  type Templates = map<Key, Template>
  type Hosts = map<string, Host>

  /** The cluster to go, the deployment it refers to, its project, and a time by
      which every grace period is over. */
  datatype Goal = Goal(k: Key, fk: Key, project: string, deadline: Time)

  // ------------------------------------------------------------- winding down

  function Members(ms: Machines, k: Key): set<nat> {
    set u | u in ms && ms[u].cluster == k
  }

  /** The provider still runs the machine the object records. */
  predicate Hosted(m: Machine, project: string, hs: Hosts) {
    m.providerID != "" && M.RecordedID(m) in hs && hs[M.RecordedID(m)].project == project
  }

  /** The run has read the object before its deletion was requested: it may still
      allocate a machine, or is about to record one. */
  predicate Stale(u: nat, runs: map<nat, MachineRun>) {
    u in runs && match runs[u]
      case MLoaded(m, _) => m.deletion.None?
      case MActed(b, a, _) => a.providerID != b.providerID
  }

  /** Members with a provider machine, or with a run that may still bring one. */
  function Laden(ms: Machines, runs: map<nat, MachineRun>, hs: Hosts, g: Goal): set<nat> {
    set u | u in ms && ms[u].cluster == g.k && (Hosted(ms[u], g.project, hs) || Stale(u, runs))
  }

  function LadenMembers(s: Sys, g: Goal): set<nat> {
    Laden(s.kube.machines, s.mruns, s.metal.hosts, g)
  }

  /** Deletion is requested and the grace period ends before the deadline. */
  predicate Leaving(ms: Machines, g: Goal) {
    forall u | u in ms && ms[u].cluster == g.k :: ms[u].deletion.Some? && ms[u].deletion.value + GRACE < g.deadline
  }

  predicate ClusterLeaving(c: Cluster, g: Goal) {
    c.deletion.Some? && c.fwRef == Some(g.fk.name) && g.fk.ns == g.k.ns && c.project == g.project
  }

  /** The node network can be freed. */
  predicate NetworkFreeable(c: Cluster, metal: Metal) {
    c.netId.Some? ==> c.netId.value in metal.nets || metal.lenient
  }

  predicate Torn(r: ClusterRun) {
    r.CActed? && r.before.finalizer && !r.after.finalizer
  }

  /** A run of the cluster controller has torn down only when the deployment was gone.
      One that has read the object before the request finds the network recorded. */
  predicate ClosingRun(r: ClusterRun, c: Cluster, gone: bool, metal: Metal) {
    match r
    case CLoaded(b) => b.deletion.Some? || (c.netId.Some? && NetworkFreeable(c, metal))
    case CCleared(_) => gone
    case CActed(b, a, _, _) =>
      if b.finalizer && !a.finalizer then gone
      else a.netId == b.netId && (a.finalizer == b.finalizer || NetworkFreeable(c, metal))
  }

  predicate ClusterState(cs: Clusters, runs: map<Key, ClusterRun>, gone: bool, metal: Metal, g: Goal) {
    g.k in cs ==>
      && ClusterLeaving(cs[g.k], g)
      && (cs[g.k].finalizer ==> NetworkFreeable(cs[g.k], metal) || (g.k in runs && Torn(runs[g.k])))
      && (!cs[g.k].finalizer ==> gone)
      && (g.k in runs ==> ClosingRun(runs[g.k], cs[g.k], gone, metal))
  }

  /** A run that may still take the deployment over. */
  predicate MayAdopt(k: Key, runs: map<Key, ClusterRun>) {
    k in runs && runs[k].CLoaded? && runs[k].c.deletion.None?
  }

  /** The deployment is being deleted, holds no finalizer, and no run adds one. */
  predicate Unheld(fk: Key, ds: Deployments, runs: map<Key, DeploymentRun>) {
    && fk in ds && ds[fk].deletion.Some? && !ds[fk].finalizer
    && (fk in runs ==> match runs[fk]
          case FLoaded(d, _, _, _) => d.deletion.Some?
          case FCleared(_, _, _, _) => true
          case FActed(b, a) => a.finalizer == b.finalizer)
  }

  /** The deployment was never taken over, or it is the cluster's, the node network is
      recorded and the template is there; or it is the cluster's and holds nothing. */
  predicate DeploymentLeaving(ds: Deployments, fruns: map<Key, DeploymentRun>, c: Cluster,
                              cruns: map<Key, ClusterRun>, ts: Templates, g: Goal)
    requires g.fk in ds
  {
    var d := ds[g.fk];
    || (d.owner.None? && !d.finalizer && (MayAdopt(g.k, cruns) ==> F.TemplateKey(g.fk, d) in ts))
    || (d.owner == Some(g.k) && c.netId.Some? && F.TemplateKey(g.fk, d) in ts)
    || (d.owner == Some(g.k) && Unheld(g.fk, ds, fruns))
  }

  predicate DeploymentState(s: Sys, g: Goal) {
    g.fk in s.kube.deployments ==>
      && g.k in s.kube.clusters
      && DeploymentLeaving(s.kube.deployments, s.fruns, s.kube.clusters[g.k], s.cruns, s.kube.templates, g)
  }

  /** The cluster and its machines are being deleted, and nothing bars the way. Runs
      of all three controllers may be under way, also such as have read their object
      before the request. */
  predicate Underway(s: Sys, g: Goal) {
    && Leaving(s.kube.machines, g)
    && ClusterState(s.kube.clusters, s.cruns, g.fk !in s.kube.deployments, s.metal, g)
    && DeploymentState(s, g)
  }

  predicate Winding(s: Sys, g: Goal) {
    Inv(s) && Underway(s, g)
  }

  // -------------------------------------------------------------- the measure

  function Stage(ds: Deployments, fk: Key): nat {
    if fk !in ds then 0 else if ds[fk].deletion.Some? then 1 else 2
  }

  function TimeLeft(now: Time, deadline: Time): nat {
    if now < deadline then deadline - now else 0
  }

  function Work(s: Sys, g: Goal): nat {
    |Members(s.kube.machines, g.k)| + |LadenMembers(s, g)|
    + TimeLeft(s.now, g.deadline) + Stage(s.kube.deployments, g.fk) + One(g.k in s.kube.clusters)
  }

  /** All three kinds are gone. */
  predicate Gone(s: Sys, g: Goal) {
    Members(s.kube.machines, g.k) == {} && g.fk !in s.kube.deployments && g.k !in s.kube.clusters
  }

  /** From `s` to `t` nothing that counts has grown. */
  predicate Shrinks(s: Sys, t: Sys, g: Goal) {
    && Members(t.kube.machines, g.k) <= Members(s.kube.machines, g.k)
    && LadenMembers(t, g)
       <= LadenMembers(s, g)
    && s.now <= t.now
    && Stage(t.kube.deployments, g.fk) <= Stage(s.kube.deployments, g.fk)
    && (g.k in t.kube.clusters ==> g.k in s.kube.clusters)
  }

  lemma SubsetSize<T>(a: set<T>, b: set<T>)
    requires a <= b
    ensures |a| <= |b| && (|a| == |b| ==> a == b)
  {
    assert b == a + (b - a);
  }

  /** What a step of no use would leave as it was. */
  predicate Unchanged(s: Sys, t: Sys, g: Goal) {
    && Members(t.kube.machines, g.k) == Members(s.kube.machines, g.k)
    && LadenMembers(t, g)
       == LadenMembers(s, g)
    && TimeLeft(t.now, g.deadline) == TimeLeft(s.now, g.deadline)
    && Stage(t.kube.deployments, g.fk) == Stage(s.kube.deployments, g.fk)
    && (g.k in t.kube.clusters <==> g.k in s.kube.clusters)
  }

  /** What has not grown weighs no more, and as much only if it is the same. */
  lemma ShrinkingWork(s: Sys, t: Sys, g: Goal)
    requires Shrinks(s, t, g)
    ensures Work(t, g) <= Work(s, g)
    ensures Work(t, g) < Work(s, g) <==> !Unchanged(s, t, g)
  {
    SubsetSize(Members(t.kube.machines, g.k), Members(s.kube.machines, g.k));
    SubsetSize(LadenMembers(t, g),
               LadenMembers(s, g));
    hide Members, LadenMembers, Stage;
  }

  // ----------------------------------------------------------------- calm steps

  /** No host that appears carries an id that a member records. */
  predicate Fresh(s: Sys, t: Sys, g: Goal) {
    forall u | u in s.kube.machines && s.kube.machines[u].cluster == g.k && s.kube.machines[u].providerID != "" ::
      M.RecordedID(s.kube.machines[u]) in t.metal.hosts ==> M.RecordedID(s.kube.machines[u]) in s.metal.hosts
  }

  predicate GoodForMachine(rep: M.Replies) {
    rep.find && rep.free.Freed?
  }

  predicate GoodForCluster(rep: C.Replies) {
    rep.list && rep.getDeployment && rep.deleteDeployment && rep.findIP && rep.freeIP.Freed? && rep.freeNet.Freed?
  }

  function FirewallsOf(metal: Metal, c: Cluster, g: Goal): set<string>
    requires c.netId.Some?
  {
    Matching(metal, c.partition, c.project, FirewallTags(c.netId.value, g.k, g.fk))
  }

  predicate AllFreed(order: seq<string>, frees: seq<Release>) {
    forall i | 0 <= i < |order| :: F.ReleaseAt(frees, i).Freed?
  }

  /** The search names the firewalls there are, and every free goes through. */
  predicate GoodForDeployment(s: Sys, g: Goal, rep: F.Replies) {
    && rep.list
    && (g.fk in s.fruns && s.fruns[g.fk].FCleared? && s.fruns[g.fk].c.netId.Some? ==>
          && rep.search.Some? && Lists(rep.search.value, FirewallsOf(s.metal, s.fruns[g.fk].c, g))
          && AllFreed(rep.search.value, rep.frees))
  }

  /** Work on another cluster does not take over our deployment while it is nobody's,
      and leaves our network alone. */
  predicate Aside(s: Sys, t: Sys, g: Goal) {
    && (g.fk in s.kube.deployments && g.fk in t.kube.deployments && s.kube.deployments[g.fk].owner.None? ==>
          t.kube.deployments[g.fk].owner.None?)
    && (g.k in s.kube.clusters && s.kube.clusters[g.k].netId.Some?
        && s.kube.clusters[g.k].netId.value in s.metal.nets ==>
          s.kube.clusters[g.k].netId.value in t.metal.nets)
  }

  /** Our objects are not paused, their calls to the provider and the API server
      go through, their patches are not lost; ids they record are not handed out;
      and nobody makes the cluster or the deployment anew or takes the template
      away. Anything else may happen. */
  predicate Calm(s: Sys, g: Goal, step: Step) {
    && Fresh(s, Next(s, step), g)
    && match step
       case SActMachine(u, rep, paused) =>
         u in s.kube.machines && s.kube.machines[u].cluster == g.k ==> !paused && GoodForMachine(rep)
       case SPatchMachine(u, applied) => u in s.kube.machines && s.kube.machines[u].cluster == g.k ==> applied
       case SActCluster(k, rep, paused) => if k == g.k then !paused && GoodForCluster(rep)
           else Aside(s, Next(s, step), g)
       case SPatchCluster(k, applied) => k == g.k ==> applied
       case SCreateCluster(k, _) => k != g.k
       case SActDeployment(k, rep, paused) => k == g.fk ==> !paused && GoodForDeployment(s, g, rep)
       case SPatchDeployment(k, applied) => k == g.fk ==> applied
       case SCreateDeployment(k, _) => k != g.fk
       case SRemoveTemplate(k) => g.fk in s.kube.deployments ==> k != F.TemplateKey(g.fk, s.kube.deployments[g.fk])
       case _ => true
  }

  // ------------------------------------------------------------- machine steps

  /** Members only go; only a stale run gives one another provider id, and no run
      becomes stale. */
  predicate MembersEvolve(ms: Machines, runs: map<nat, MachineRun>, ms': Machines, runs': map<nat, MachineRun>,
                          g: Goal) {
    forall u | u in ms' && ms'[u].cluster == g.k ::
      && u in ms && ms[u].cluster == g.k && ms'[u].deletion == ms[u].deletion
      && (ms'[u].providerID == ms[u].providerID || Stale(u, runs))
      && (Stale(u, runs') ==> Stale(u, runs))
  }

  lemma SameRecord(m: Machine, m': Machine)
    requires m.providerID == m'.providerID
    ensures M.RecordedID(m) == M.RecordedID(m')
  {}

  lemma MembersShrink(s: Sys, t: Sys, g: Goal)
    requires MembersEvolve(s.kube.machines, s.mruns, t.kube.machines, t.mruns, g) && Fresh(s, t, g)
    requires O.SameRequests(s.metal.hosts, t.metal.hosts)
    ensures Members(t.kube.machines, g.k) <= Members(s.kube.machines, g.k)
    ensures LadenMembers(t, g) <= LadenMembers(s, g)
    ensures Leaving(s.kube.machines, g) ==> Leaving(t.kube.machines, g)
  {
    hide M.RecordedID, Stale;
    forall u | u in LadenMembers(t, g)
      ensures u in LadenMembers(s, g)
    {
      if !Stale(u, s.mruns) { SameRecord(t.kube.machines[u], s.kube.machines[u]); }
    }
  }

  predicate MachinesWind(s: Sys, t: Sys, g: Goal) {
    MembersEvolve(s.kube.machines, s.mruns, t.kube.machines, t.mruns, g)
  }

  lemma EveryoneStays(s: Sys, g: Goal)
    ensures MachinesWind(s, s, g)
  {}

  lemma LoadWinds(s: Sys, u: nat, g: Goal)
    requires Leaving(s.kube.machines, g)
    ensures MachinesWind(s, LoadMachine(s, u), g)
  {}

  lemma RecordedObject(s: Sys, u: nat, m: Machine, o: M.Outcome)
    requires u in s.mbooks
    ensures var r := RecordRun(s, u, m, o).mruns;
      u in r && r[u].MActed? && r[u].before == m && r[u].after == o.obj && r == s.mruns[u := r[u]]
  {
    hide Settle;
  }

  lemma SetMachineRun(ms: Machines, runs: map<nat, MachineRun>, u: nat, r: MachineRun, g: Goal)
    requires r.MActed? && (r.after.providerID == r.before.providerID || Stale(u, runs))
    ensures MembersEvolve(ms, runs, ms, runs[u := r], g)
  {}

  lemma ActWinds(s: Sys, u: nat, rep: M.Replies, paused: bool, g: Goal)
    ensures MachinesWind(s, ActMachine(s, u, rep, paused), g)
  {
    hide M.Run, RecordRun, MembersEvolve;
    EveryoneStays(s, g);
    if u in s.mruns && s.mruns[u].MLoaded? && u in s.mbooks {
      var m, c := s.mruns[u].m, s.mruns[u].c;
      var o := M.Run(u, m, c, s.metal, rep, paused, s.now);
      RecordedObject(s, u, m, o);
      KeepsRecord(u, m, c, s.metal, rep, paused, s.now);
      SetMachineRun(s.kube.machines, s.mruns, u, RecordRun(s, u, m, o).mruns[u], g);
    }
  }

  /** A run that has read the request leaves the provider id as it is. */
  lemma KeepsRecord(u: nat, m: Machine, c: Cluster, metal: Metal, rep: M.Replies, paused: bool, now: Time)
    ensures m.deletion.Some? ==> M.Run(u, m, c, metal, rep, paused, now).obj.providerID == m.providerID
  {
    hide DecodeProviderID;
  }

  /** One machine object is edited, or goes, and a run may end. */
  lemma EditWinds(ms: Machines, runs: map<nat, MachineRun>, runs': map<nat, MachineRun>, u: nat, m: Machine, g: Goal)
    requires runs' == runs || runs' == runs - {u}
    requires u in ms && m.cluster == ms[u].cluster
    requires m.cluster == g.k ==> m.deletion == ms[u].deletion && (m.providerID == ms[u].providerID || Stale(u, runs))
    ensures MembersEvolve(ms, runs, ms[u := m], runs', g)
    ensures MembersEvolve(ms, runs, ms - {u}, runs', g)
    ensures MembersEvolve(ms, runs, ms, runs', g)
  {}

  lemma MergedWinds(s: Sys, u: nat)
    requires Inv(s) && u in s.mruns && s.mruns[u].MActed?
    ensures u in s.kube.machines && u in s.mbooks
    ensures var m, m' := s.kube.machines[u], MergeMachine(s.kube.machines[u], s.mruns[u].before, s.mruns[u].after);
      m'.cluster == m.cluster && m'.deletion == m.deletion && (m'.providerID == m.providerID || Stale(u, s.mruns))
  {
    MS.RunFacts(s, u);
    MS.Merged(s.kube.machines[u], s.mruns[u].before, s.mruns[u].after);
    hide Inv, MergeMachine, Released, M.KeepsID, ClusterSeen, M.RecordedID;
  }

  lemma PatchWinds(s: Sys, u: nat, applied: bool, g: Goal)
    requires Inv(s)
    ensures MachinesWind(s, PatchMachine(s, u, applied), g)
  {
    hide Inv, MergeMachine, MembersEvolve;
    EveryoneStays(s, g);
    if u in s.mruns && s.mruns[u].MActed? {
      MergedWinds(s, u);
      var m := MergeMachine(s.kube.machines[u], s.mruns[u].before, s.mruns[u].after);
      hide Stale;
      EditWinds(s.kube.machines, s.mruns, s.mruns - {u}, u, m, g);
    }
  }

  lemma NewMachineWinds(s: Sys, u: nat, m: Machine, g: Goal)
    requires g.k in s.kube.clusters ==> s.kube.clusters[g.k].deletion.Some?
    ensures MachinesWind(s, CreateMachine(s, u, m), g)
  {}

  lemma VanishWinds(s: Sys, u: nat, g: Goal)
    ensures MachinesWind(s, VanishMachine(s, u), g)
  {
    hide MembersEvolve;
    EveryoneStays(s, g);
    if u in s.kube.machines {
      EditWinds(s.kube.machines, s.mruns, s.mruns - {u}, u, s.kube.machines[u], g);
    }
  }

  lemma DeleteWinds(s: Sys, u: nat, g: Goal)
    requires Leaving(s.kube.machines, g)
    ensures MachinesWind(s, DeleteMachine(s, u), g)
  {
    hide MembersEvolve;
    EveryoneStays(s, g);
    if u in s.kube.machines && s.kube.machines[u].deletion.None? {
      EditWinds(s.kube.machines, s.mruns, s.mruns, u, s.kube.machines[u].(deletion := Some(s.now)), g);
    }
  }

  lemma SecretWinds(s: Sys, u: nat, secret: string, g: Goal)
    ensures MachinesWind(s, SetSecret(s, u, secret), g)
  {
    hide MembersEvolve;
    EveryoneStays(s, g);
    if u in s.kube.machines {
      EditWinds(s.kube.machines, s.mruns, s.mruns, u, s.kube.machines[u].(secret := Some(secret)), g);
    }
  }

  lemma MachineWinds(s: Sys, step: Step, g: Goal)
    requires Inv(s) && Leaving(s.kube.machines, g)
    requires g.k in s.kube.clusters ==> s.kube.clusters[g.k].deletion.Some?
    ensures MachinesWind(s, Next(s, step), g)
  {
    hide Inv, Next, MachinesWind, Leaving, LoadMachine, ActMachine, PatchMachine, VanishMachine, CreateMachine,
      DeleteMachine, SetSecret;
    if OnMachines(step) {
      UnfoldsMachine(s, step);
      match step
      case SLoadMachine(u) => LoadWinds(s, u, g);
      case SActMachine(u, rep, paused) => ActWinds(s, u, rep, paused, g);
      case SPatchMachine(u, applied) => PatchWinds(s, u, applied, g);
      case SCreateMachine(u, m) => NewMachineWinds(s, u, m, g);
      case SVanishMachine(u) => VanishWinds(s, u, g);
      case SDeleteMachine(u) => DeleteWinds(s, u, g);
      case SSetSecret(u, secret) => SecretWinds(s, u, secret, g);
    } else {
      MachineFrame(s, step);
      SameMachinesWind(s, Next(s, step), g);
    }
  }

  lemma SameMachinesWind(s: Sys, t: Sys, g: Goal)
    requires t.kube.machines == s.kube.machines && t.mruns == s.mruns
    ensures MachinesWind(s, t, g)
  {}

  // ---------------------------------------------------------- deployment steps

  /** The deployment stays whose it is, unless it was nobody's and a run of our own
      takes it over; it is not asked to stay, and gets a finalizer only when it is
      somebody's. */
  predicate DeploymentEvolves(ds: Deployments, ds': Deployments, mayOwn: bool, g: Goal) {
    && Stage(ds', g.fk) <= Stage(ds, g.fk)
    && (g.fk in ds' ==>
          && g.fk in ds && ds'[g.fk].template == ds[g.fk].template
          && (ds'[g.fk].owner == ds[g.fk].owner || (mayOwn && ds[g.fk].owner.None? && ds'[g.fk].owner == Some(g.k)))
          && (ds'[g.fk].finalizer && !ds[g.fk].finalizer ==> ds[g.fk].owner.Some?))
  }

  predicate DeploymentEdit(d: Deployment, d': Deployment) {
    && d'.owner == d.owner && d'.template == d.template && (d.deletion.Some? ==> d'.deletion.Some?)
    && (d'.finalizer && !d.finalizer ==> d.owner.Some?)
  }

  lemma EditEvolves(ds: Deployments, k: Key, d: Deployment, g: Goal)
    requires k in ds && DeploymentEdit(ds[k], d)
    ensures DeploymentEvolves(ds, ds[k := d], false, g) && DeploymentEvolves(ds, ds - {k}, false, g)
  {}

  lemma EverythingStays(ds: Deployments, g: Goal)
    ensures DeploymentEvolves(ds, ds, false, g)
  {}

  lemma PatchedDeployment(s: Sys, k: Key)
    requires Inv(s) && k in s.fruns && s.fruns[k].FActed?
    ensures k in s.kube.deployments
    ensures DeploymentEdit(s.kube.deployments[k],
        MergeDeployment(s.kube.deployments[k], s.fruns[k].before, s.fruns[k].after))
  {
    DS.RunFacts(s, k);
    hide Inv, NoFirewallsOf, ClusterSeen;
  }

  lemma PatchEvolves(s: Sys, k: Key, applied: bool, g: Goal)
    requires Inv(s)
    ensures DeploymentEvolves(s.kube.deployments, PatchDeployment(s, k, applied).kube.deployments, false, g)
  {
    hide Inv, MergeDeployment, DeploymentEvolves, DeploymentEdit;
    EverythingStays(s.kube.deployments, g);
    if k in s.fruns && s.fruns[k].FActed? {
      PatchedDeployment(s, k);
      EditEvolves(s.kube.deployments, k, MergeDeployment(s.kube.deployments[k], s.fruns[k].before, s.fruns[k].after),
          g);
    }
  }

  lemma VanishEvolves(s: Sys, k: Key, g: Goal)
    ensures DeploymentEvolves(s.kube.deployments, VanishDeployment(s, k).kube.deployments, false, g)
  {
    hide DeploymentEvolves;
    EverythingStays(s.kube.deployments, g);
    if k in s.kube.deployments { EditEvolves(s.kube.deployments, k, s.kube.deployments[k], g); }
  }

  lemma RequestEvolves(s: Sys, k: Key, g: Goal)
    ensures DeploymentEvolves(s.kube.deployments, DeleteDeployment(s, k).kube.deployments, false, g)
  {
    hide DeploymentEvolves;
    EverythingStays(s.kube.deployments, g);
    if k in s.kube.deployments {
      EditEvolves(s.kube.deployments, k, s.kube.deployments[k].(deletion := Some(s.now)), g);
    }
  }

  lemma DropRefEvolves(s: Sys, k: Key, g: Goal)
    ensures DeploymentEvolves(s.kube.deployments, DropRef(s, k).kube.deployments, false, g)
  {
    hide DeploymentEvolves;
    EverythingStays(s.kube.deployments, g);
    if k in s.kube.deployments { EditEvolves(s.kube.deployments, k, s.kube.deployments[k].(ref := None), g); }
  }

  lemma NewDeploymentEvolves(s: Sys, k: Key, d: Deployment, g: Goal)
    requires k != g.fk
    ensures DeploymentEvolves(s.kube.deployments, CreateDeployment(s, k, d).kube.deployments, false, g)
  {}

  /** What the run of a cluster may do to a deployment: own one that is nobody's, which
      takes a run that has not read a request for deletion, or ask for its deletion. */
  predicate ClusterTouches(k: Key, ds: Deployments, ds': Deployments, fk: Key, mayOwn: bool) {
    && (fk in ds' <==> fk in ds)
    && (fk in ds' ==>
          DeploymentEdit(ds[fk].(owner := ds'[fk].owner), ds'[fk]) && ds'[fk].finalizer == ds[fk].finalizer
          && (ds'[fk].owner == ds[fk].owner || (mayOwn && ds[fk].owner.None? && ds'[fk].owner == Some(k))))
  }

  lemma UpTouches(s: Sys, k: Key, rep: C.Replies, paused: bool, fk: Key)
    requires k in s.cruns && s.cruns[k].CLoaded? && k in s.cbooks && (paused || s.cruns[k].c.deletion.None?)
    ensures ClusterTouches(k, s.kube.deployments, ActClusterUp(s, k, rep, paused).kube.deployments, fk,
                           s.cruns[k].c.deletion.None?)
  {
    hide C.RunUp, C.Reconcile, UpBook, UpRun, Spends, SpendsFor, C.Begin;
  }

  lemma GuardAlone(k: Key, c: Cluster, left: bool, ds: Deployments, rep: C.Replies, now: Time, fk: Key)
    ensures ClusterTouches(k, ds, C.Guard(k, c, left, ds, rep, now).0, fk, false)
  {
    hide C.Guard;
  }

  lemma GuardTouches(s: Sys, k: Key, rep: C.Replies, fk: Key)
    requires k in s.cruns && s.cruns[k].CLoaded?
    ensures ClusterTouches(k, s.kube.deployments, ActClusterGuard(s, k, rep).kube.deployments, fk, false)
  {
    hide C.Guard, C.Begin, MachinesOf, ClusterTouches;
    GuardAlone(k, C.Begin(s.cruns[k].c, false), MachinesOf(s.kube, k) != {}, s.kube.deployments, rep, s.now, fk);
  }

  lemma ActTouches(s: Sys, k: Key, rep: C.Replies, paused: bool, fk: Key)
    ensures ClusterTouches(k, s.kube.deployments, ActCluster(s, k, rep, paused).kube.deployments, fk,
        MayAdopt(k, s.cruns))
  {
    hide ActClusterUp, ActClusterGuard, C.Teardown, C.Begin;
    if k in s.cruns && k in s.cbooks && s.cruns[k].CLoaded? {
      hide ClusterTouches;
      if paused || s.cruns[k].c.deletion.None? {
        UpTouches(s, k, rep, paused, fk);
      } else {
        GuardTouches(s, k, rep, fk);
      }
    }
  }

  lemma TouchedEvolves(k: Key, ds: Deployments, ds': Deployments, g: Goal, mayOwn: bool)
    requires ClusterTouches(k, ds, ds', g.fk, mayOwn)
    requires k != g.k && g.fk in ds && g.fk in ds' && ds[g.fk].owner.None? ==> ds'[g.fk].owner.None?
    ensures DeploymentEvolves(ds, ds', k == g.k && mayOwn, g)
  {}

  lemma ActEvolves(s: Sys, k: Key, rep: C.Replies, paused: bool, g: Goal)
    requires k != g.k ==> Aside(s, ActCluster(s, k, rep, paused), g)
    ensures DeploymentEvolves(s.kube.deployments, ActCluster(s, k, rep, paused).kube.deployments,
                              k == g.k && MayAdopt(k, s.cruns), g)
  {
    ActTouches(s, k, rep, paused, g.fk);
    hide ActCluster, DeploymentEvolves, DeploymentEdit, MayAdopt;
    TouchedEvolves(k, s.kube.deployments, ActCluster(s, k, rep, paused).kube.deployments, g, MayAdopt(k, s.cruns));
  }

  predicate DeploymentWinds(s: Sys, t: Sys, g: Goal) {
    DeploymentEvolves(s.kube.deployments, t.kube.deployments, MayAdopt(g.k, s.cruns), g)
  }

  lemma EvolvesWinds(s: Sys, t: Sys, mayOwn: bool, g: Goal)
    requires DeploymentEvolves(s.kube.deployments, t.kube.deployments, mayOwn, g)
    requires mayOwn ==> MayAdopt(g.k, s.cruns)
    ensures DeploymentWinds(s, t, g)
  {}

  lemma DeploymentEvolution(s: Sys, step: Step, g: Goal)
    requires Inv(s) && Calm(s, g, step)
    ensures DeploymentWinds(s, Next(s, step), g)
  {
    hide LoadDeployment, ActDeployment, PatchDeployment, VanishDeployment, CreateDeployment, DeleteDeployment, DropRef,
      ActCluster, Fresh, DeploymentEvolves, DeploymentWinds, Inv, Aside, MayAdopt;
    var t := Next(s, step);
    if step.SActCluster? {
      ActEvolves(s, step.k, step.crep, step.paused, g);
      EvolvesWinds(s, t, step.k == g.k && MayAdopt(step.k, s.cruns), g);
    } else {
      EverythingStays(s.kube.deployments, g);
      if step.SPatchDeployment? {
        PatchEvolves(s, step.k, step.applied, g);
      } else if step.SCreateDeployment? {
        NewDeploymentEvolves(s, step.k, step.deployment, g);
      } else if step.SVanishDeployment? {
        VanishEvolves(s, step.k, g);
      } else if step.SDeleteDeployment? {
        RequestEvolves(s, step.k, g);
      } else if step.SDropRef? {
        DropRefEvolves(s, step.k, g);
      } else if !OnDeployments(step) {
        DeploymentFrame(s, step);
      }
      EvolvesWinds(s, t, false, g);
    }
  }

  // ------------------------------------ steps that are not of the deployment's run

  predicate OnDeploymentRun(step: Step, fk: Key) {
    (step.SLoadDeployment? || step.SActDeployment? || step.SPatchDeployment? || step.SVanishDeployment?) && step.k == fk
  }

  /** The run stays, and the object but for a request for its deletion. */
  predicate SameDeploymentRun(s: Sys, t: Sys, fk: Key) {
    && (fk in t.fruns <==> fk in s.fruns) && (fk in s.fruns ==> t.fruns[fk] == s.fruns[fk])
    && (fk in t.kube.deployments && fk in s.kube.deployments ==>
          && t.kube.deployments[fk].finalizer == s.kube.deployments[fk].finalizer
          && (s.kube.deployments[fk].deletion.Some? ==> t.kube.deployments[fk].deletion.Some?))
  }

  lemma OtherUps(s: Sys, k: Key, rep: F.Replies, paused: bool, fk: Key)
    requires k != fk && k in s.fruns && s.fruns[k].FLoaded? && (paused || s.fruns[k].d.deletion.None?)
    ensures SameDeploymentRun(s, ActDeploymentUp(s, k, rep, paused), fk)
  {
    hide F.RunUp;
  }

  lemma OtherGuards(s: Sys, k: Key, rep: F.Replies, fk: Key)
    requires k != fk && k in s.fruns && s.fruns[k].FLoaded?
    ensures SameDeploymentRun(s, ActDeploymentGuard(s, k, rep), fk)
  {
    hide F.Guard, F.Begin, MachinesOf;
  }

  lemma OtherReclaims(s: Sys, k: Key, rep: F.Replies, fk: Key)
    requires k != fk && k in s.fruns && s.fruns[k].FCleared?
    ensures SameDeploymentRun(s, ActDeploymentReclaim(s, k, rep), fk)
  {
    hide F.Reclaim, F.Begin;
  }

  lemma OtherDeploymentActs(s: Sys, k: Key, rep: F.Replies, paused: bool, fk: Key)
    requires k != fk
    ensures SameDeploymentRun(s, ActDeployment(s, k, rep, paused), fk)
  {
    hide ActDeploymentUp, ActDeploymentGuard, ActDeploymentReclaim;
    if k in s.fruns && !s.fruns[k].FActed? {
      if s.fruns[k].FCleared? {
        OtherReclaims(s, k, rep, fk);
      } else if paused || s.fruns[k].d.deletion.None? {
        OtherUps(s, k, rep, paused, fk);
      } else {
        OtherGuards(s, k, rep, fk);
      }
      hide SameDeploymentRun;
    }
  }

  lemma OtherDeploymentLoads(s: Sys, k: Key, fk: Key)
    requires k != fk
    ensures SameDeploymentRun(s, LoadDeployment(s, k), fk)
  {}

  lemma OtherDeploymentPatches(s: Sys, k: Key, applied: bool, fk: Key)
    requires k != fk
    ensures SameDeploymentRun(s, PatchDeployment(s, k, applied), fk)
  {
    hide MergeDeployment;
  }

  lemma OtherDeploymentVanishes(s: Sys, k: Key, fk: Key)
    requires k != fk
    ensures SameDeploymentRun(s, VanishDeployment(s, k), fk)
  {}

  lemma DeletedDeploymentRun(s: Sys, k: Key, fk: Key)
    ensures SameDeploymentRun(s, DeleteDeployment(s, k), fk)
  {
    if k in s.kube.deployments {
      EditedRun(s, k, s.kube.deployments[k].(deletion := Some(s.now)), fk);
    }
    hide SameDeploymentRun;
    SameRunStays(s, fk);
  }

  lemma DroppedRefRun(s: Sys, k: Key, fk: Key)
    ensures SameDeploymentRun(s, DropRef(s, k), fk)
  {
    if k in s.kube.deployments {
      EditedRun(s, k, s.kube.deployments[k].(ref := None), fk);
    }
    hide SameDeploymentRun;
    SameRunStays(s, fk);
  }

  lemma SameRunStays(s: Sys, fk: Key)
    ensures SameDeploymentRun(s, s, fk)
  {}

  lemma EditedRun(s: Sys, k: Key, d: Deployment, fk: Key)
    requires k in s.kube.deployments && d.finalizer == s.kube.deployments[k].finalizer
    requires s.kube.deployments[k].deletion.Some? ==> d.deletion.Some?
    ensures SameDeploymentRun(s, s.(kube := s.kube.(deployments := s.kube.deployments[k := d])), fk)
  {}

  lemma CreatedDeploymentRun(s: Sys, k: Key, d: Deployment, fk: Key)
    ensures SameDeploymentRun(s, CreateDeployment(s, k, d), fk)
  {}

  lemma OtherDeploymentSteps(s: Sys, step: Step, fk: Key)
    requires OnDeployments(step) && !OnDeploymentRun(step, fk)
    ensures SameDeploymentRun(s, Next(s, step), fk)
  {
    hide Next, LoadDeployment, ActDeployment, PatchDeployment, VanishDeployment, CreateDeployment, DeleteDeployment,
      DropRef, SameDeploymentRun;
    UnfoldsDeployment(s, step);
    match step
    case SLoadDeployment(k) => OtherDeploymentLoads(s, k, fk);
    case SActDeployment(k, frep, paused) => OtherDeploymentActs(s, k, frep, paused, fk);
    case SPatchDeployment(k, applied) => OtherDeploymentPatches(s, k, applied, fk);
    case SVanishDeployment(k) => OtherDeploymentVanishes(s, k, fk);
    case SCreateDeployment(k, d) => CreatedDeploymentRun(s, k, d, fk);
    case SDeleteDeployment(k) => DeletedDeploymentRun(s, k, fk);
    case SDropRef(k) => DroppedRefRun(s, k, fk);
  }

  lemma DeploymentRunKept(s: Sys, step: Step, fk: Key)
    requires !OnDeploymentRun(step, fk)
    ensures SameDeploymentRun(s, Next(s, step), fk)
  {
    if OnDeployments(step) {
      OtherDeploymentSteps(s, step, fk);
    } else {
      DeploymentFrame(s, step);
      if step.SActCluster? {
        ActTouches(s, step.k, step.crep, step.paused, fk);
        hide ActCluster, DeploymentEdit;
      } else {
        hide Next;
      }
    }
  }

  // --------------------------------------------- a deployment that holds nothing

  predicate HoldsNothing(s: Sys, fk: Key) {
    Unheld(fk, s.kube.deployments, s.fruns)
  }

  /** It stays that way until it goes. */
  predicate StaysUnheld(s: Sys, t: Sys, fk: Key) {
    HoldsNothing(s, fk) && fk in t.kube.deployments ==> HoldsNothing(t, fk)
  }

  lemma UnheldAct(s: Sys, rep: F.Replies, paused: bool, fk: Key)
    requires Inv(s)
    ensures StaysUnheld(s, ActDeployment(s, fk, rep, paused), fk)
  {
    if fk in s.fruns && HoldsNothing(s, fk) {
      DS.RunFacts(s, fk);
      if s.fruns[fk].FLoaded? { UnheldRun(s, fk, rep, paused); }
    }
    hide Inv, ActDeploymentUp, ActDeploymentGuard, ActDeploymentReclaim, NoFirewallsOf, ClusterSeen;
  }

  lemma UnheldRun(s: Sys, fk: Key, rep: F.Replies, paused: bool)
    requires fk in s.fruns && s.fruns[fk].FLoaded? && !s.fruns[fk].d.finalizer && s.fruns[fk].d.deletion.Some?
    ensures var t := ActDeployment(s, fk, rep, paused);
      fk in t.fruns && t.fruns[fk].FActed? && !t.fruns[fk].before.finalizer && !t.fruns[fk].after.finalizer
  {
    hide F.Reclaim, MachinesOf;
  }

  lemma UnheldPatch(s: Sys, applied: bool, fk: Key)
    requires Inv(s)
    ensures StaysUnheld(s, PatchDeployment(s, fk, applied), fk)
  {
    if fk in s.fruns {
      DS.RunFacts(s, fk);
    }
    hide Inv, NoFirewallsOf, ClusterSeen;
  }

  lemma UnheldLoad(s: Sys, fk: Key)
    ensures StaysUnheld(s, LoadDeployment(s, fk), fk) && StaysUnheld(s, VanishDeployment(s, fk), fk)
  {}

  lemma SameUnheld(s: Sys, t: Sys, fk: Key)
    requires SameDeploymentRun(s, t, fk)
    ensures StaysUnheld(s, t, fk)
  {}

  lemma UnheldStays(s: Sys, step: Step, fk: Key)
    requires Inv(s)
    ensures StaysUnheld(s, Next(s, step), fk)
  {
    hide Inv, StaysUnheld, LoadDeployment, ActDeployment, PatchDeployment, VanishDeployment;
    if OnDeploymentRun(step, fk) {
      match step
      case SLoadDeployment(_) => UnheldLoad(s, fk);
      case SActDeployment(_, rep, paused) => UnheldAct(s, rep, paused, fk);
      case SPatchDeployment(_, applied) => UnheldPatch(s, applied, fk);
      case SVanishDeployment(_) => UnheldLoad(s, fk);
    } else {
      DeploymentRunKept(s, step, fk);
      hide Next;
      SameUnheld(s, Next(s, step), fk);
    }
  }

  // ------------------------------------------------------------- cluster steps

  /** What a run of the cluster controller does at the guard, with good replies. */
  lemma GuardLeaves(k: Key, c: Cluster, left: bool, ds: Deployments, rep: C.Replies, now: Time, g: Goal)
    requires GoodForCluster(rep) && c.fwRef == Some(g.fk.name) && g.fk.ns == k.ns
    ensures var (ds', v) := C.Guard(k, c, left, ds, rep, now);
      && !v.Panic?
      && (v.Clear? <==> c.finalizer && !left && g.fk !in ds)
      && (c.finalizer && !left && g.fk in ds ==> ds' == if ds[g.fk].deletion.Some? then ds
          else ds[g.fk := ds[g.fk].(deletion := Some(now))])
      && (!(c.finalizer && !left && g.fk in ds) ==> ds' == ds)
  {}

  lemma TeardownLeaves(c: Cluster, ds: Deployments, metal: Metal, rep: C.Replies)
    requires GoodForCluster(rep) && NetworkFreeable(c, metal)
    ensures !C.Teardown(c, ds, metal, rep).failed && C.Teardown(c, ds, metal, rep).metal.lenient == metal.lenient
  {}

  lemma BeginLeaves(c: Cluster)
    ensures var b := C.Begin(c, false);
      b.netId == c.netId && b.finalizer == c.finalizer && b.deletion == c.deletion && b.fwRef == c.fwRef
          && b.project == c.project
  {}

  predicate OursInState(s: Sys, t: Sys, g: Goal) {
    ClusterState(t.kube.clusters, t.cruns, g.fk !in t.kube.deployments, t.metal, g)
  }

  lemma LoadState(s: Sys, k: Key, g: Goal)
    requires OursInState(s, s, g)
    ensures OursInState(s, LoadCluster(s, k), g)
  {}

  lemma SetRunState(cs: Clusters, runs: map<Key, ClusterRun>, gone: bool, metal: Metal, metal': Metal, g: Goal,
                    r: ClusterRun)
    requires ClusterState(cs, runs, gone, metal, g) && g.k in cs && g.k in runs && !runs[g.k].CActed?
    requires ClosingRun(r, cs[g.k], gone, metal')
    requires (NetworkFreeable(cs[g.k], metal) ==> NetworkFreeable(cs[g.k], metal')) || Torn(r)
    ensures ClusterState(cs, runs[g.k := r], gone, metal', g)
  {}

  /** A run that has read the object before the request finishes provisioning. It finds
      the network recorded, so it leaves it, and takes nothing from the provider. */
  lemma UpState(s: Sys, rep: C.Replies, g: Goal)
    requires Inv(s) && OursInState(s, s, g) && g.k in s.kube.clusters && g.k in s.cruns && s.cruns[g.k].CLoaded?
    requires s.cruns[g.k].c.deletion.None? && g.k in s.cbooks
    ensures OursInState(s, ActClusterUp(s, g.k, rep, false), g)
  {
    CS.RunFacts(s, g.k);
    UpTouches(s, g.k, rep, false, g.fk);
    var c := s.cruns[g.k].c;
    var o := C.RunUp(g.k, c, s.kube.deployments, s.metal, rep, false);
    CS.RunUpProvisions(g.k, c, s.kube.deployments, s.metal, rep, false);
    UpGrows(g.k, c, s.kube.deployments, s.metal, rep);
    hide Inv, C.RunUp, ClusterBooked, Gated, PlainCluster, Deserted, UpBook, C.Adopt, Spends;
    SetRunState(s.kube.clusters, s.cruns, g.fk !in s.kube.deployments, s.metal, o.metal, g, UpRun(c, o, s.metal));
    hide ClusterState, ClosingRun;
  }

  lemma UpGrows(k: Key, c: Cluster, ds: Deployments, m: Metal, rep: C.Replies)
    requires c.deletion.None?
    ensures var o := C.RunUp(k, c, ds, m, rep, false); m.nets.Keys <= o.metal.nets.Keys && o.metal.lenient == m.lenient
  {
    hide C.Reconcile, C.Adopt, Spends, SpendsFor;
  }

  lemma GuardState(s: Sys, rep: C.Replies, g: Goal)
    requires Inv(s) && OursInState(s, s, g) && g.k in s.kube.clusters && g.k in s.cruns && s.cruns[g.k].CLoaded?
    requires s.cruns[g.k].c.deletion.Some? && GoodForCluster(rep)
    ensures OursInState(s, ActClusterGuard(s, g.k, rep), g)
  {
    CS.RunFacts(s, g.k);
    hide Inv, C.Guard, MachinesOf, ClusterBooked, Gated, PlainCluster, C.Begin, Deserted, GoodForCluster;
    var c := s.cruns[g.k].c;
    BeginLeaves(c);
    GuardLeaves(g.k, C.Begin(c, false), MachinesOf(s.kube, g.k) != {}, s.kube.deployments, rep, s.now, g);
    GuardRunState(s, rep, g);
  }

  lemma GuardRunState(s: Sys, rep: C.Replies, g: Goal)
    requires OursInState(s, s, g) && g.k in s.kube.clusters && g.k in s.cruns && s.cruns[g.k].CLoaded?
    requires var c := C.Begin(s.cruns[g.k].c, false);
      var (ds', v) := C.Guard(g.k, c, MachinesOf(s.kube, g.k) != {}, s.kube.deployments, rep, s.now);
      && c.deletion.Some? && !v.Panic? && (v.Clear? ==> g.fk !in ds') && (g.fk in ds' <==> g.fk in s.kube.deployments)
    ensures OursInState(s, ActClusterGuard(s, g.k, rep), g)
  {
    var c := s.cruns[g.k].c;
    BeginLeaves(c);
    hide C.Guard, MachinesOf, C.Begin, ClusterState;
    var gone := g.fk !in s.kube.deployments;
    assert s.cruns[g.k] == CLoaded(c);
    if gone {
      SetRunState(s.kube.clusters, s.cruns, gone, s.metal, s.metal, g, CCleared(c));
    }
    SetRunState(s.kube.clusters, s.cruns, gone, s.metal, s.metal, g, CActed(c, C.Begin(c, false), false, false));
  }

  lemma TeardownState(s: Sys, rep: C.Replies, g: Goal)
    requires Inv(s) && OursInState(s, s, g) && g.k in s.kube.clusters && g.k in s.cruns && s.cruns[g.k].CCleared?
    requires GoodForCluster(rep)
    ensures OursInState(s, ActClusterTeardown(s, g.k, rep), g)
  {
    CS.RunFacts(s, g.k);
    hide Inv, C.Teardown, ClusterBooked, Gated, PlainCluster, C.Begin, Deserted, GoodForCluster, UpRun;
    var c := s.cruns[g.k].c;
    BeginLeaves(c);
    TeardownLeaves(C.Begin(c, false), s.kube.deployments, s.metal, rep);
    var o := C.Teardown(C.Begin(c, false), s.kube.deployments, s.metal, rep);
    SetRunState(s.kube.clusters, s.cruns, g.fk !in s.kube.deployments, s.metal, o.metal, g,
        CActed(c, o.obj, false, false));
    hide ClusterState;
  }

  lemma PatchState(s: Sys, g: Goal)
    requires Inv(s) && OursInState(s, s, g) && g.k in s.cruns && s.cruns[g.k].CActed?
    ensures OursInState(s, PatchCluster(s, g.k, true), g)
  {
    CS.RunFacts(s, g.k);
    hide Inv, ClusterBooked, Gated, PlainCluster, Deserted;
  }

  /** The part of the state that speaks of our cluster, unless a step works on it. */
  lemma StateKept(s: Sys, t: Sys, g: Goal)
    requires OursInState(s, s, g)
    requires g.k in t.kube.clusters ==> g.k in s.kube.clusters && t.kube.clusters[g.k] == s.kube.clusters[g.k]
    requires g.k in t.cruns ==> g.k in s.cruns && t.cruns[g.k] == s.cruns[g.k]
    requires g.k in s.cruns ==> g.k in t.cruns
    requires g.fk in t.kube.deployments ==> g.fk in s.kube.deployments
    requires t.metal.lenient == s.metal.lenient
    requires g.k in s.kube.clusters && s.kube.clusters[g.k].netId.Some? ==>
      s.kube.clusters[g.k].netId.value in s.metal.nets ==> s.kube.clusters[g.k].netId.value in t.metal.nets
    ensures OursInState(s, t, g)
  {}

  predicate SameRun(s: Sys, t: Sys, k: Key) {
    && (k in t.kube.clusters <==> k in s.kube.clusters)
        && (k in s.kube.clusters ==> t.kube.clusters[k] == s.kube.clusters[k])
    && (k in t.cruns <==> k in s.cruns) && (k in s.cruns ==> t.cruns[k] == s.cruns[k])
  }

  lemma UpElsewhere(s: Sys, c: Key, rep: C.Replies, paused: bool, k: Key)
    requires c != k && c in s.cruns && s.cruns[c].CLoaded? && c in s.cbooks && (paused || s.cruns[c].c.deletion.None?)
    ensures SameRun(s, ActClusterUp(s, c, rep, paused), k)
  {
    hide C.RunUp, UpBook, UpRun;
  }

  lemma GuardElsewhere(s: Sys, c: Key, rep: C.Replies, k: Key)
    requires c != k && c in s.cruns && s.cruns[c].CLoaded?
    ensures SameRun(s, ActClusterGuard(s, c, rep), k)
  {
    hide C.Guard, C.Begin, MachinesOf;
  }

  lemma TeardownElsewhere(s: Sys, c: Key, rep: C.Replies, k: Key)
    requires c != k && c in s.cruns && s.cruns[c].CCleared?
    ensures SameRun(s, ActClusterTeardown(s, c, rep), k)
  {
    hide C.Teardown, C.Begin;
  }

  lemma ActElsewhere(s: Sys, c: Key, rep: C.Replies, paused: bool, k: Key)
    requires c != k
    ensures SameRun(s, ActCluster(s, c, rep, paused), k)
  {
    hide ActClusterUp, ActClusterGuard, ActClusterTeardown;
    if c in s.cruns && c in s.cbooks && !s.cruns[c].CActed? {
      if s.cruns[c].CCleared? {
        TeardownElsewhere(s, c, rep, k);
      } else if paused || s.cruns[c].c.deletion.None? {
        UpElsewhere(s, c, rep, paused, k);
      } else {
        GuardElsewhere(s, c, rep, k);
      }
      hide SameRun;
    }
  }

  lemma PatchElsewhere(s: Sys, c: Key, applied: bool, k: Key)
    requires c != k
    ensures SameRun(s, PatchCluster(s, c, applied), k)
  {
    hide MergeCluster;
  }

  lemma LoadElsewhere(s: Sys, c: Key, k: Key)
    requires c != k
    ensures SameRun(s, LoadCluster(s, c), k) && SameRun(s, VanishCluster(s, c), k)
  {}

  lemma UserElsewhere(s: Sys, c: Key, k: Key)
    requires c != k
    ensures SameRun(s, DeleteCluster(s, c), k) && forall obj :: SameRun(s, CreateCluster(s, c, obj), k)
  {
    hide PlainCluster, MachinesOf;
  }

  lemma Elsewhere(s: Sys, step: Step, k: Key)
    requires OnClusters(step) && step.k != k
    ensures SameRun(s, Next(s, step), k)
  {
    hide LoadCluster, ActCluster, PatchCluster, VanishCluster, CreateCluster, DeleteCluster, SameRun;
    match step
    case SLoadCluster(c) => LoadElsewhere(s, c, k);
    case SActCluster(c, rep, paused) => ActElsewhere(s, c, rep, paused, k);
    case SPatchCluster(c, applied) => PatchElsewhere(s, c, applied, k);
    case SVanishCluster(c) => LoadElsewhere(s, c, k);
    case SCreateCluster(c, _) => UserElsewhere(s, c, k);
    case SDeleteCluster(c) => UserElsewhere(s, c, k);
  }

  lemma OursActs(s: Sys, rep: C.Replies, g: Goal)
    requires Inv(s) && OursInState(s, s, g) && GoodForCluster(rep)
    ensures OursInState(s, ActCluster(s, g.k, rep, false), g)
  {
    if g.k in s.cruns {
      CS.RunFacts(s, g.k);
      hide Inv, ActClusterUp, ActClusterGuard, ActClusterTeardown;
      if MayAdopt(g.k, s.cruns) {
        UpState(s, rep, g);
      } else if s.cruns[g.k].CLoaded? {
        GuardState(s, rep, g);
      } else if s.cruns[g.k].CCleared? {
        TeardownState(s, rep, g);
      }
    }
  }

  lemma VanishState(s: Sys, g: Goal)
    requires OursInState(s, s, g)
    ensures OursInState(s, VanishCluster(s, g.k), g) && OursInState(s, DeleteCluster(s, g.k), g)
  {}

  /** What a calm step promises where it works on our cluster, and elsewhere. */
  lemma CalmOnClusters(s: Sys, g: Goal, step: Step)
    requires Calm(s, g, step) && OnClusters(step)
    ensures step.k == g.k ==>
      && !step.SCreateCluster? && (step.SPatchCluster? ==> step.applied)
      && (step.SActCluster? ==> !step.paused && GoodForCluster(step.crep))
    ensures step.SActCluster? && step.k != g.k ==> Aside(s, Next(s, step), g)
  {
    hide Fresh, Next, GoodForCluster, Aside;
  }

  lemma ClusterStateWinds(s: Sys, step: Step, g: Goal)
    requires Winding(s, g) && Calm(s, g, step)
    requires g.fk in Next(s, step).kube.deployments ==> g.fk in s.kube.deployments
    ensures OursInState(s, Next(s, step), g)
  {
    hide Next, Calm, Inv, ClusterState, Leaving, DeploymentState, GoodForCluster;
    if !OnClusters(step) {
      ClusterFrame(s, step);
      MetalFrame(s, step);
      StateKept(s, Next(s, step), g);
    } else if step.k != g.k {
      CalmOnClusters(s, g, step);
      Elsewhere(s, step, g.k);
      if step.SActCluster? { LenienceKept(s, step); } else { MetalFrame(s, step); }
      StateKept(s, Next(s, step), g);
    } else {
      OurClusterWinds(s, step, g);
    }
  }

  lemma LenienceKept(s: Sys, step: Step)
    requires step.SActCluster?
    ensures Next(s, step).metal.lenient == s.metal.lenient
  {
    UnfoldsCluster(s, step);
    hide Next, ActCluster;
  }

  lemma OurClusterWinds(s: Sys, step: Step, g: Goal)
    requires Winding(s, g) && Calm(s, g, step) && OnClusters(step) && step.k == g.k
    ensures OursInState(s, Next(s, step), g)
  {
    hide Next, Calm, LoadCluster, ActCluster, PatchCluster, VanishCluster, CreateCluster, DeleteCluster, Inv,
      ClusterState, Leaving, DeploymentState, GoodForCluster, Aside;
    CalmOnClusters(s, g, step);
    UnfoldsCluster(s, step);
    match step
    case SLoadCluster(k) => LoadState(s, k, g);
    case SActCluster(k, rep, paused) => OursActs(s, rep, g);
    case SPatchCluster(k, applied) => PatchAny(s, g);
    case SVanishCluster(k) => VanishState(s, g);
    case SDeleteCluster(k) => VanishState(s, g);
  }

  lemma PatchAny(s: Sys, g: Goal)
    requires Inv(s) && OursInState(s, s, g)
    ensures OursInState(s, PatchCluster(s, g.k, true), g)
  {
    if g.k in s.cruns && s.cruns[g.k].CActed? {
      PatchState(s, g);
      hide Inv, PatchCluster;
    } else {
      hide Inv;
      assert PatchCluster(s, g.k, true) == s;
    }
  }

  // ------------------------------------------------------------------ every step

  predicate SamePlace(s: Sys, t: Sys, k: Key) {
    k in s.kube.clusters && k in t.kube.clusters && t.kube.clusters[k].netId == s.kube.clusters[k].netId
  }

  /** While the deployment is there, its cluster stays and keeps its network. */
  lemma PlaceStays(s: Sys, step: Step, g: Goal)
    requires Winding(s, g) && Calm(s, g, step) && g.fk in s.kube.deployments
    ensures SamePlace(s, Next(s, step), g.k)
  {
    hide Next, Calm, Inv, Leaving, ClusterState;
    if !OnClusters(step) {
      ClusterFrame(s, step);
    } else if step.k != g.k {
      Elsewhere(s, step, g.k);
    } else {
      OurStepKeepsPlace(s, step, g);
    }
  }

  lemma OurStepKeepsPlace(s: Sys, step: Step, g: Goal)
    requires Winding(s, g) && Calm(s, g, step) && g.fk in s.kube.deployments && OnClusters(step) && step.k == g.k
    ensures SamePlace(s, Next(s, step), g.k)
  {
    hide Next, Calm, Inv, Leaving, LoadCluster, ActCluster, PatchCluster, VanishCluster, CreateCluster,
      DeleteCluster, GoodForCluster, Aside;
    CalmOnClusters(s, g, step);
    UnfoldsCluster(s, step);
    OurPlaceStays(s, g);
  }

  lemma OurPlaceStays(s: Sys, g: Goal)
    requires g.fk in s.kube.deployments && g.k in s.kube.clusters
    requires ClusterState(s.kube.clusters, s.cruns, false, s.metal, g)
    ensures SamePlace(s, PatchCluster(s, g.k, true), g.k) && SamePlace(s, VanishCluster(s, g.k), g.k)
    ensures SamePlace(s, DeleteCluster(s, g.k), g.k)
  {}

  lemma TemplatesStay(s: Sys, step: Step, g: Goal)
    requires Calm(s, g, step) && g.fk in s.kube.deployments
    ensures var tk := F.TemplateKey(g.fk, s.kube.deployments[g.fk]);
      tk in s.kube.templates ==> tk in Next(s, step).kube.templates
  {
    hide Fresh, GoodForDeployment, Aside, ActDeployment;
    if step.SActDeployment? {
      ActTemplates(s, step.k, step.frep, step.paused);
    } else {
      TemplateFrame(s, step);
      hide Next;
    }
  }

  lemma ActTemplates(s: Sys, k: Key, rep: F.Replies, paused: bool)
    ensures ActDeployment(s, k, rep, paused).kube.templates.Keys == s.kube.templates.Keys
  {
    hide F.RunUp, F.Reclaim, F.Guard, F.Begin, MachinesOf;
    if k in s.fruns && s.fruns[k].FLoaded? && (paused || s.fruns[k].d.deletion.None?) {
      var r := s.fruns[k];
      RunTemplates(k, r.d, r.ck, r.c, r.t, s.kube.templates, s.metal, rep, paused);
    }
  }

  lemma RunTemplates(k: Key, d: Deployment, ck: Key, c: Cluster, t: Template, ts: F.Templates, metal: Metal,
                     rep: F.Replies, paused: bool)
    requires paused || d.deletion.None?
    ensures F.RunUp(k, d, ck, c, t, ts, metal, rep, paused).templates.Keys == ts.Keys
  {
    hide F.FirewallHost, F.NewFirewall, F.Allocate;
  }

  /** A run that may take the deployment over has been loaded before the request. */
  lemma MayAdoptBefore(s: Sys, step: Step, g: Goal)
    requires g.k in s.kube.clusters ==> s.kube.clusters[g.k].deletion.Some?
    ensures MayAdopt(g.k, Next(s, step).cruns) ==> MayAdopt(g.k, s.cruns)
  {
    if !OnClusters(step) {
      ClusterFrame(s, step);
      hide Next;
    } else if step.k != g.k {
      Elsewhere(s, step, g.k);
      hide Next;
    } else if step.SActCluster? {
      ActDoesNotLoad(s, g.k, step.crep, step.paused);
      hide ActCluster;
    } else {
      hide ActCluster, PatchCluster, CreateCluster, DeleteCluster;
    }
  }

  lemma ActDoesNotLoad(s: Sys, k: Key, rep: C.Replies, paused: bool)
    ensures MayAdopt(k, ActCluster(s, k, rep, paused).cruns) ==> MayAdopt(k, s.cruns)
  {
    hide C.RunUp, C.Guard, C.Teardown, C.Begin, UpBook, MachinesOf;
  }

  lemma AdoptedHasNetwork(s: Sys, g: Goal)
    requires Inv(s) && Underway(s, g) && MayAdopt(g.k, s.cruns)
    ensures g.k in s.kube.clusters && s.kube.clusters[g.k].netId.Some?
  {
    CS.RunFacts(s, g.k);
    hide Inv, Leaving, DeploymentState, Deserted;
  }

  lemma DeploymentStateWinds(s: Sys, step: Step, g: Goal)
    requires Winding(s, g) && Calm(s, g, step) && DeploymentWinds(s, Next(s, step), g)
    ensures DeploymentState(Next(s, step), g)
  {
    hide Calm, Next;
    var t := Next(s, step);
    if g.fk in t.kube.deployments {
      PlaceStays(s, step, g);
      TemplatesStay(s, step, g);
      UnheldStays(s, step, g.fk);
      MayAdoptBefore(s, step, g);
      if MayAdopt(g.k, s.cruns) { AdoptedHasNetwork(s, g); }
      hide Inv, ClusterState, Leaving, MayAdopt, Unheld;
    }
  }

  lemma CalmIsFresh(s: Sys, step: Step, g: Goal)
    requires Calm(s, g, step)
    ensures Fresh(s, Next(s, step), g)
  {
    hide Fresh, Next, GoodForDeployment, Aside;
  }

  lemma StageShrinks(s: Sys, t: Sys, g: Goal)
    requires DeploymentWinds(s, t, g)
    ensures Stage(t.kube.deployments, g.fk) <= Stage(s.kube.deployments, g.fk)
    ensures g.fk in t.kube.deployments ==> g.fk in s.kube.deployments
  {}

  lemma RequestStands(s: Sys, g: Goal)
    requires Winding(s, g)
    ensures g.k in s.kube.clusters ==> s.kube.clusters[g.k].deletion.Some?
  {
    hide Inv, Leaving, DeploymentState;
  }

  /** Every calm step keeps the winding down going, and nothing that counts grows. */
  lemma StepAdvances(s: Sys, step: Step, g: Goal)
    requires Winding(s, g) && Calm(s, g, step)
    ensures Winding(Next(s, step), g) && Shrinks(s, Next(s, step), g)
  {
    hide Inv, Next, Fresh, Calm, ClusterState, DeploymentState, DeploymentEvolves;
    R.NextInv(s, step);
    RequestStands(s, g);
    MachineWinds(s, step, g);
    O.Origins(s, step);
    TimeFrame(s, step);
    DeploymentEvolution(s, step, g);
    StageShrinks(s, Next(s, step), g);
    DeploymentStateWinds(s, step, g);
    ClusterStateWinds(s, step, g);
    ClusterPresence(s, step, g);
    CalmIsFresh(s, step, g);
    hide Members, LadenMembers;
    MembersShrink(s, Next(s, step), g);
  }

  /** A cluster that is gone stays gone. */
  lemma ClusterPresence(s: Sys, step: Step, g: Goal)
    requires Calm(s, g, step)
    ensures g.k in Next(s, step).kube.clusters ==> g.k in s.kube.clusters
  {
    hide Fresh, GoodForDeployment, Aside, LoadCluster, ActCluster, MergeCluster;
    if !OnClusters(step) {
      ClusterFrame(s, step);
      hide Next;
    }
  }
}

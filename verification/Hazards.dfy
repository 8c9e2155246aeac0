/** Where the code does not keep what one would wish for, and exactly when. */
module Hazards {
  import opened Names
  import opened Store
  import opened Metal
  import opened Protocol
  import opened Invariant
  import opened StepFrames
  import R = Reachable
  import H = History
  import L = Liveness
  import N = Networks
  import S = Safety
  import T = Termination
  import MS = MachineSteps
  import CS = ClusterSteps
  import DS = DeploymentSteps
  import M = MachineSpec
  import C = ClusterSpec
  import F = FirewallSpec
  import FC = FirewallController
  import MC = MachineController
  import CR = ControllerRuns
  import FN = Fairness

  // ------------------------------------------- machines created in the window

  /** The teardown order rests on no machine object being created between the
      guard and the teardown. If one is, the network is freed all the same. */
  lemma WindowRace(s: Sys, k: Key, u: nat, m: Machine, rep: C.Replies)
    requires Inv(s) && k in s.cruns && s.cruns[k].CCleared? && s.kube.clusters[k].netId.Some? && m.cluster == k
    requires s.kube.clusters[k].netId.value in s.metal.nets
    requires rep.findIP && rep.freeIP.Freed? && rep.freeNet.Freed?
    ensures var t := ActCluster(AddMachine(s, u, m), k, rep, false);
      && s.kube.clusters[k].netId.value !in t.metal.nets
      && u in MachinesOf(t.kube, k) && MachinesOf(s.kube, k) == {}
  {
    CS.RunFacts(s, k);
    hide Inv, ClusterBooked, Gated, PlainCluster, C.Teardown;
    NobodyLeft(s, k);
    TeardownFreesNetwork(C.Begin(s.cruns[k].c, false), s.kube.deployments, s.metal, rep);
    hide Deserted;
  }

  lemma NobodyLeft(s: Sys, k: Key)
    requires Deserted(k, s.kube.machines, s.kube.deployments)
    ensures MachinesOf(s.kube, k) == {}
  {}

  lemma TeardownFreesNetwork(c: Cluster, deps: C.Deployments, metal: Metal, rep: C.Replies)
    requires c.netId.Some? && c.netId.value in metal.nets
    requires rep.findIP && rep.freeIP.Freed? && rep.freeNet.Freed?
    ensures c.netId.value !in C.Teardown(c, deps, metal, rep).metal.nets
  {}

  // --------------------------------------------------------- shared networks

  /** A network that two clusters record goes with the first of them, under the
      machines of the other. */
  lemma SharedNetworkIsFreed(s: Sys, k: Key, ck: Key, n: string, id: string, rep: C.Replies)
    requires Inv(s) && k in s.cruns && s.cruns[k].CCleared? && s.kube.clusters[k].netId == Some(n) && n in s.metal.nets
    requires ck != k && ck in s.kube.clusters && s.kube.clusters[ck].netId == Some(n)
    requires id in s.metal.hosts && S.OnNetwork(s.metal.hosts[id], n)
    requires rep.findIP && rep.freeIP.Freed? && rep.freeNet.Freed?
    ensures var t := ActCluster(s, k, rep, false);
      && n !in t.metal.nets && t.kube.clusters[ck].netId == Some(n)
      && id in t.metal.hosts && S.OnNetwork(t.metal.hosts[id], n)
  {
    CS.RunFacts(s, k);
    hide Inv, ClusterBooked, Gated, PlainCluster, C.Teardown, Deserted;
    TeardownFreesNetwork(C.Begin(s.cruns[k].c, false), s.kube.deployments, s.metal, rep);
  }

  // ------------------------------------------------- somebody else's deployment

  /** The guard of a cluster's deletion asks for the deletion of the deployment the
      cluster names, whoever owns it. */
  lemma GuardTakesWhateverIsNamed(s: Sys, k: Key, fk: Key, rep: C.Replies)
    requires k in s.cruns && s.cruns[k].CLoaded? && k in s.cbooks && s.cruns[k].c.deletion.Some?
    requires s.cruns[k].c.fwRef == Some(fk.name) && fk.ns == k.ns
    requires fk in s.kube.deployments && s.kube.deployments[fk].deletion.None?
    ensures var t := ActCluster(s, k, rep, false);
      && fk in t.kube.deployments && t.kube.deployments[fk].owner == s.kube.deployments[fk].owner
      && (t.kube.deployments[fk].deletion.Some?
          <==> s.cruns[k].c.finalizer && rep.list && MachinesOf(s.kube, k) == {}
               && rep.getDeployment && rep.deleteDeployment)
  {
    SameReference(s.cruns[k].c);
    hide C.Begin, MachinesOf;
  }

  lemma ReclaimFreesAll(s: Sys, fk: Key, rep: F.Replies)
    requires Inv(s) && fk in s.fruns && s.fruns[fk].FCleared? && s.fruns[fk].c.netId.Some?
    requires rep.search.Some? && L.AllFreed(rep.search.value, rep.frees)
    requires var r := s.fruns[fk];
      Lists(rep.search.value,
            Matching(s.metal, r.c.partition, r.c.project, FirewallTags(r.c.netId.value, r.ck, fk)))
    ensures NoFirewallsOf(fk, ActDeployment(s, fk, rep, false).metal.hosts)
  {
    var r := s.fruns[fk];
    var t := ActDeployment(s, fk, rep, false);
    DS.RunStarts(s, fk);
    CR.ReclaimLeaves(fk, F.Begin(r.d, false), r.ck, r.c, s.kube.templates, s.metal, rep);
    DS.ActDeploymentInv(s, fk, rep, false);
    hide Inv, F.Reclaim, F.Begin, Lists, Matching, L.AllFreed;
    assert fk in t.fruns && t.fruns[fk].FActed? && t.fruns[fk].before.finalizer && !t.fruns[fk].after.finalizer;
    DS.RunFacts(t, fk);
    hide ActDeployment;
  }

  /** The run of the deployment controller that follows such a request: up to its guard,
      which asks for the machines of the owner. */
  function GuardedRun(s: Sys, fk: Key, rep: F.Replies): Sys {
    ActDeployment(LoadDeployment(s, fk), fk, rep, false)
  }

  lemma GuardedRunPasses(s: Sys, fk: Key, b: Key, rep: F.Replies)
    requires fk !in s.fruns && fk in s.kube.deployments && b in s.kube.clusters && rep.list
    requires var d := s.kube.deployments[fk];
      d.owner == Some(b) && d.deletion.Some? && d.finalizer && F.TemplateKey(fk, d) in s.kube.templates
    requires MachinesOf(s.kube, b) == {}
    ensures var t := GuardedRun(s, fk, rep);
      && fk in t.fruns && t.fruns[fk].FCleared? && t.fruns[fk].c == s.kube.clusters[b] && t.fruns[fk].ck == b
      && t.kube == s.kube
  {
    hide MachinesOf, SetPaused;
  }

  /** So deleting cluster `k`, which names the deployment of cluster `b`, takes away the
      firewalls of `b` while `b` has no machine and is not being deleted itself. */
  lemma ForeignFirewallsGo(s: Sys, k: Key, b: Key, fk: Key, crep: C.Replies, rep: F.Replies, rep': F.Replies)
    requires Inv(s) && k in s.cruns && s.cruns[k].CLoaded? && k in s.cbooks && s.cruns[k].c.deletion.Some?
    requires s.cruns[k].c.fwRef == Some(fk.name) && fk.ns == k.ns && s.cruns[k].c.finalizer
    requires MachinesOf(s.kube, k) == {} && L.GoodForCluster(crep)
    requires fk in s.kube.deployments && fk !in s.fruns && b != k && b in s.kube.clusters
    requires s.kube.clusters[b].deletion.None? && s.kube.clusters[b].netId.Some? && MachinesOf(s.kube, b) == {}
    requires var d := s.kube.deployments[fk];
      d.owner == Some(b) && d.deletion.None? && d.finalizer && F.TemplateKey(fk, d) in s.kube.templates
    requires rep.list && rep'.search.Some? && L.AllFreed(rep'.search.value, rep'.frees)
    requires var c := s.kube.clusters[b];
      Lists(rep'.search.value,
            Matching(s.metal, c.partition, c.project, FirewallTags(c.netId.value, b, fk)))
    ensures var t := ActDeployment(GuardedRun(ActCluster(s, k, crep, false), fk, rep), fk, rep', false);
      NoFirewallsOf(fk, t.metal.hosts) && b in t.kube.clusters && t.kube.clusters[b].deletion.None?
  {
    hide Inv, ActCluster, ActDeployment, LoadDeployment, L.AllFreed, Lists, Matching, NoFirewallsOf;
    var s1 := ActCluster(s, k, crep, false);
    GuardTakesWhateverIsNamed(s, k, fk, crep);
    GuardEffects(s, k, fk, crep);
    GuardedRunPasses(s1, fk, b, rep);
    CS.ActClusterInv(s, k, crep, false);
    DS.LoadDeploymentInv(s1, fk);
    DS.ActDeploymentInv(LoadDeployment(s1, fk), fk, rep, false);
    assert GuardedRun(s1, fk, rep).metal == s.metal by { GuardedRunTakesNothing(s1, fk, rep); }
    ReclaimFreesAll(GuardedRun(s1, fk, rep), fk, rep');
    hide GuardedRun;
  }

  lemma GuardEffects(s: Sys, k: Key, fk: Key, rep: C.Replies)
    requires k in s.cruns && s.cruns[k].CLoaded? && k in s.cbooks && s.cruns[k].c.deletion.Some?
    requires s.cruns[k].c.fwRef == Some(fk.name) && fk.ns == k.ns && fk in s.kube.deployments
    ensures var t := ActCluster(s, k, rep, false);
      && t.metal == s.metal && t.fruns == s.fruns && t.kube.clusters == s.kube.clusters
      && t.kube.machines == s.kube.machines && t.kube.templates == s.kube.templates
      && fk in t.kube.deployments
      && t.kube.deployments[fk] == s.kube.deployments[fk].(deletion := t.kube.deployments[fk].deletion)
  {
    SameReference(s.cruns[k].c);
    hide C.Begin, MachinesOf, C.Guard;
  }

  lemma GuardedRunTakesNothing(s: Sys, fk: Key, rep: F.Replies)
    requires fk !in s.fruns && fk in s.kube.deployments && s.kube.deployments[fk].deletion.Some?
    ensures GuardedRun(s, fk, rep).metal == s.metal && GuardedRun(s, fk, rep).kube.clusters == s.kube.clusters
  {
    hide MachinesOf, F.Begin, F.Guard;
  }

  // ------------------------------------------------------- recycled machine ids

  /** A deletion frees whatever host of the project answers to the recorded id. */
  lemma FreesWhatItFinds(s: Sys, u: nat, rep: M.Replies)
    requires Inv(s) && u in s.mruns && s.mruns[u].MLoaded? && s.mruns[u].m.deletion.Some?
    requires rep.find && rep.free.Freed? && s.mruns[u].m.providerID != ""
    ensures var m, c := s.mruns[u].m, s.mruns[u].c; var id := M.RecordedID(m);
      (id in s.metal.hosts && id !in ActMachine(s, u, rep, false).metal.hosts)
      <==> (m.finalizer && id in s.metal.hosts && s.metal.hosts[id].project == c.project)
  {
    MS.RunFacts(s, u);
    RunFreesFound(u, s.mruns[u].m, s.mruns[u].c, s.metal, rep, s.now);
    hide Inv, M.Run, RecordRun, M.RecordedID, MachineRunOk;
  }

  lemma RunFreesFound(u: nat, m: Machine, c: Cluster, metal: Metal, rep: M.Replies, now: Time)
    requires m.deletion.Some? && rep.find && rep.free.Freed? && m.providerID != ""
    ensures var id, hs' := M.RecordedID(m), M.Run(u, m, c, metal, rep, false, now).metal.hosts;
      (id in metal.hosts && id !in hs') <==> (m.finalizer && id in metal.hosts && metal.hosts[id].project == c.project)
  {
    hide DecodeProviderID;
  }

  /** So a machine that went to someone else in the same project under the id of
      one that was freed externally is taken away from its owner. */
  lemma RecycledMachineIsFreed(s: Sys, u: nat, rep: M.Replies, h: Host)
    requires Inv(s) && u in s.mruns && s.mruns[u].MLoaded? && s.mruns[u].m.deletion.Some? && s.mruns[u].m.finalizer
    requires rep.find && rep.free.Freed? && s.mruns[u].m.providerID != ""
    requires M.RecordedID(s.mruns[u].m) !in s.metal.hosts && ForeignHost(h) && h.project == s.mruns[u].c.project
    ensures var id := M.RecordedID(s.mruns[u].m); var s1 := Recycle(s, id, h);
      && id in s1.metal.hosts && s1.metal.hosts[id].origin == Foreign
      && id !in ActMachine(s1, u, rep, false).metal.hosts
  {
    var id := M.RecordedID(s.mruns[u].m);
    var s1 := Recycle(s, id, h);
    R.RecycleInv(s, id, h);
    hide Inv, ActMachine, M.RecordedID;
    FreesWhatItFinds(s1, u, rep);
  }

  // ------------------------------------------------------------ acquired address

  /** The teardown frees an address exactly when it is the one given in
      `controlPlaneIP`, is not static and the calls go through. The address the
      controller has acquired itself stands in the endpoint only and stays. */
  lemma TeardownFreesExactly(c: Cluster, deps: C.Deployments, metal: Metal, rep: C.Replies, ip: string)
    requires ip in metal.ips
    ensures ip !in C.Teardown(c, deps, metal, rep).metal.ips
       <==> c.cpIp == Some(ip) && metal.ips[ip] == Ephemeral && rep.findIP && !rep.freeIP.Refused?
  {
    assert metal.ips[ip] == Ephemeral || metal.ips[ip] == Static;
  }

  // ------------------------------------------------------------ stranded machines

  /** A finalized machine object whose cluster object is gone. */
  predicate Stranded(s: Sys, u: nat) {
    u in s.kube.machines && s.kube.machines[u].finalizer && s.kube.machines[u].cluster !in s.kube.clusters
        && u !in s.mruns
  }

  lemma StrandedOnce(s: Sys, step: Step, u: nat)
    requires Stranded(s, u) && u in s.mbooks
    requires s.kube.machines[u].cluster !in Next(s, step).kube.clusters
    ensures var t := Next(s, step);
      Stranded(t, u) && u in t.mbooks && t.kube.machines[u].cluster == s.kube.machines[u].cluster
  {
    if OnMachines(step) {
      StrandedAlone(s, step, u);
    } else {
      MachineFrame(s, step);
      hide Next;
    }
  }

  predicate StaysStranded(s: Sys, t: Sys, u: nat) {
    Stranded(s, u) && u in s.mbooks ==>
      Stranded(t, u) && u in t.mbooks && t.kube.machines[u].cluster == s.kube.machines[u].cluster
  }

  lemma StrandedByController(s: Sys, v: nat, rep: M.Replies, paused: bool, u: nat)
    ensures StaysStranded(s, LoadMachine(s, v), u) && StaysStranded(s, ActMachine(s, v, rep, paused), u)
  {
    hide M.Run, Settle;
  }

  lemma StrandedByPatch(s: Sys, v: nat, applied: bool, u: nat)
    ensures StaysStranded(s, PatchMachine(s, v, applied), u) && StaysStranded(s, VanishMachine(s, v), u)
  {
    hide MergeMachine;
  }

  lemma StrandedByUser(s: Sys, v: nat, u: nat)
    ensures StaysStranded(s, DeleteMachine(s, v), u)
  {}

  lemma StrandedBySecret(s: Sys, v: nat, secret: string, u: nat)
    ensures StaysStranded(s, SetSecret(s, v, secret), u)
  {}

  lemma StrandedByNew(s: Sys, v: nat, m: Machine, u: nat)
    requires u in s.mbooks
    ensures StaysStranded(s, CreateMachine(s, v, m), u)
  {}

  lemma StrandedAlone(s: Sys, step: Step, u: nat)
    requires Stranded(s, u) && u in s.mbooks && OnMachines(step)
    ensures StaysStranded(s, Next(s, step), u)
  {
    hide Next, LoadMachine, ActMachine, PatchMachine, VanishMachine, CreateMachine, DeleteMachine, SetSecret,
      StaysStranded, Stranded;
    UnfoldsMachine(s, step);
    match step
    case SLoadMachine(v) =>
      StrandedByController(s, v, M.Replies(true, true, Denied, Report(None, [], "", None, None, None, None), Freed),
          false, u);
    case SActMachine(v, rep, paused) => StrandedByController(s, v, rep, paused, u);
    case SPatchMachine(v, applied) => StrandedByPatch(s, v, applied, u);
    case SVanishMachine(v) => StrandedByPatch(s, v, true, u);
    case SCreateMachine(v, m) => StrandedByNew(s, v, m, u);
    case SDeleteMachine(v) => StrandedByUser(s, v, u);
    case SSetSecret(v, secret) => StrandedBySecret(s, v, secret, u);
  }

  /** The controller leaves such a machine alone for ever: the exit for a missing
      cluster comes before everything else. */
  lemma {:induction false} StrandedForEver(s: Sys, steps: seq<Step>, u: nat)
    requires Stranded(s, u) && u in s.mbooks
    requires forall i | 0 <= i <= |steps| :: s.kube.machines[u].cluster !in Exec(s, steps[..i]).kube.clusters
    ensures var t := Exec(s, steps);
      Stranded(t, u) && u in t.mbooks && t.kube.machines[u].cluster == s.kube.machines[u].cluster
  {
    hide Next, Stranded;
    if steps != [] {
      var before := steps[..|steps| - 1];
      assert forall i | 0 <= i <= |before| :: before[..i] == steps[..i];
      assert steps[..|steps|] == steps;
      StrandedForEver(s, before, u);
      StrandedOnce(Exec(s, before), steps[|steps| - 1], u);
    }
  }

  /** The first run for a machine adds the finalizer. */
  function FirstMachinePass(s: Sys, u: nat, rep: M.Replies): Sys {
    PatchMachine(ActMachine(LoadMachine(s, u), u, rep, false), u, true)
  }

  /** A cluster and a machine of it that the machine controller has picked up, before
      the cluster's own controller has. */
  function PickedUpEarly(s: Sys, k: Key, c: Cluster, u: nat, m: Machine, rep: M.Replies): Sys {
    FirstMachinePass(CreateMachine(CreateCluster(s, k, c), u, m), u, rep)
  }

  lemma FirstPassFinalizes(s: Sys, u: nat, rep: M.Replies)
    requires u in s.kube.machines && u !in s.mruns && u in s.mbooks && s.kube.machines[u].cluster in s.kube.clusters
    requires !s.kube.machines[u].finalizer && s.kube.machines[u].deletion.None?
    ensures var t := FirstMachinePass(s, u, rep);
      && t.kube.clusters == s.kube.clusters && t.mruns == s.mruns
      && u in t.kube.machines && t.kube.machines[u].finalizer
          && t.kube.machines[u].cluster == s.kube.machines[u].cluster
  {
    var m := s.kube.machines[u];
    RunFinalizes(u, m, s.kube.clusters[m.cluster], s.metal, rep, s.now);
    MC.Uninterrupted(s, u, rep, false, true);
    hide M.Run, LoadMachine, ActMachine, PatchMachine;
  }

  lemma RunFinalizes(u: nat, m: Machine, c: Cluster, metal: Metal, rep: M.Replies, now: Time)
    requires !m.finalizer && m.deletion.None?
    ensures M.Run(u, m, c, metal, rep, false, now).obj.finalizer
  {}

  /** From every reached state: if that cluster were deleted then and there, which the
      protocol excludes only by the rule for deleting clusters, the machine would be
      stranded. */
  lemma EarlyDeletionStrands(s: Sys, k: Key, c: Cluster, u: nat, m: Machine, rep: M.Replies)
    requires Reached(s) && CreateCluster(s, k, c) != s && m.cluster == k
    requires CreateMachine(CreateCluster(s, k, c), u, m) != CreateCluster(s, k, c)
    ensures var t := PickedUpEarly(s, k, c, u, m, rep); k in t.kube.clusters && DeleteCluster(t, k) == t
    ensures var t := PickedUpEarly(s, k, c, u, m, rep);
      var deleted :=
        t.(kube := t.kube.(clusters := t.kube.clusters[k := t.kube.clusters[k].(deletion := Some(t.now))]));
      Stranded(VanishCluster(deleted, k), u)
  {
    R.ReachedInv(s);
    var s1 := CreateCluster(s, k, c);
    var s2 := CreateMachine(s1, u, m);
    hide Reached, Inv;
    CreatedEarly(s, k, c, u, m);
    R.NewUid(s, u);
    hide CreateCluster, CreateMachine;
    FirstPassFinalizes(s2, u, rep);
    hide FirstMachinePass;
    StrandsOnceGone(FirstMachinePass(s2, u, rep), k, u);
  }

  lemma CreatedEarly(s: Sys, k: Key, c: Cluster, u: nat, m: Machine)
    requires CreateCluster(s, k, c) != s && m.cluster == k
    requires CreateMachine(CreateCluster(s, k, c), u, m) != CreateCluster(s, k, c)
    ensures var t := CreateMachine(CreateCluster(s, k, c), u, m);
      && k in t.kube.clusters && !t.kube.clusters[k].finalizer && t.kube.clusters[k].deletion.None?
      && u in t.kube.machines && u in t.mbooks && t.kube.machines[u] == m && t.mruns == s.mruns && u !in s.mbooks
      && !m.finalizer && m.deletion.None?
  {
    hide PlainCluster, Reserve;
  }

  lemma StrandsOnceGone(s: Sys, k: Key, u: nat)
    requires k in s.kube.clusters && !s.kube.clusters[k].finalizer
    requires u in s.kube.machines && s.kube.machines[u].cluster == k && s.kube.machines[u].finalizer && u !in s.mruns
    ensures DeleteCluster(s, k) == s
    ensures var deleted :=
        s.(kube := s.kube.(clusters := s.kube.clusters[k := s.kube.clusters[k].(deletion := Some(s.now))]));
      Stranded(VanishCluster(deleted, k), u)
  {
    assert u in MachinesOf(s.kube, k);
  }

  // ------------------------------------------------------------------- jammed

  /** A cluster that is being deleted without a recorded network, and a firewall
      deployment of its own that holds its finalizer, whether its deletion has been
      requested or not: the network was allocated and the deployment taken over, but the
      patch that should have recorded the network was lost. */
  predicate Jammed(k: Key, fk: Key, cs: Clusters, ds: Deployments) {
    && k in cs && cs[k].deletion.Some? && cs[k].finalizer && cs[k].netId.None? && cs[k].fwRef == Some(fk.name)
        && fk.ns == k.ns
    && fk in ds && ds[fk].finalizer && ds[fk].owner == Some(k)
  }

  /** No run under way is about to record a network or to drop a finalizer. */
  predicate JammedRuns(k: Key, fk: Key, cruns: map<Key, ClusterRun>, fruns: map<Key, DeploymentRun>) {
    && (k in cruns ==> match cruns[k]
          case CLoaded(c) => c.deletion.Some? && c.netId.None? && c.finalizer && c.fwRef == Some(fk.name)
          case CCleared(_) => false
          case CActed(b, a, _, _) => a.netId == b.netId && a.finalizer == b.finalizer)
    && (fk in fruns ==> match fruns[fk]
          case FLoaded(d, ck, c, _) => d.finalizer && c.netId.None?
          case FCleared(d, ck, c, _) => d.finalizer && c.netId.None?
          case FActed(b, a) => a.finalizer == b.finalizer)
  }

  type Clusters = map<Key, Cluster>
  type Deployments = map<Key, Deployment>

  predicate Jam(s: Sys, k: Key, fk: Key) {
    Jammed(k, fk, s.kube.clusters, s.kube.deployments) && JammedRuns(k, fk, s.cruns, s.fruns)
  }

  /** The run of the deployment controller gets nowhere without a network. */
  lemma JammedReclaim(k: Key, d: Deployment, ck: Key, c: Cluster, ts: F.Templates, metal: Metal, rep: F.Replies)
    requires c.netId.None?
    ensures F.Reclaim(k, d, ck, c, ts, metal, rep).panicked && F.Reclaim(k, d, ck, c, ts, metal, rep).metal == metal
  {}

  lemma JammedRunUp(s: Sys, k: Key, fk: Key, d: Key, rep: F.Replies, paused: bool)
    requires Jam(s, k, fk) && d in s.fruns && s.fruns[d].FLoaded? && (paused || s.fruns[d].d.deletion.None?)
    ensures Jam(ActDeploymentUp(s, d, rep, paused), k, fk)
  {
    hide F.RunUp, Jammed, F.NewFirewall;
    var r := s.fruns[d];
    UpKeepsFinalizer(d, r.d, r.ck, r.c, r.t, s.kube.templates, s.metal, rep, paused);
  }

  lemma UpKeepsFinalizer(k: Key, d: Deployment, ck: Key, c: Cluster, t: Template, ts: F.Templates, metal: Metal,
                         rep: F.Replies, paused: bool)
    requires paused || d.deletion.None?
    ensures d.finalizer ==> F.RunUp(k, d, ck, c, t, ts, metal, rep, paused).obj.finalizer
  {
    hide F.RunUp, F.NewFirewall;
  }

  lemma JammedDeploymentGuard(s: Sys, k: Key, fk: Key, d: Key, rep: F.Replies)
    requires Jam(s, k, fk) && d in s.fruns && s.fruns[d].FLoaded?
    ensures Jam(ActDeploymentGuard(s, d, rep), k, fk)
  {
    hide Jammed, MachinesOf, SetPaused;
  }

  lemma JammedDeploymentReclaim(s: Sys, k: Key, fk: Key, d: Key, rep: F.Replies)
    requires Jam(s, k, fk) && d in s.fruns && s.fruns[d].FCleared?
    ensures Jam(ActDeploymentReclaim(s, d, rep), k, fk)
  {
    hide F.Reclaim, Jammed, F.Begin;
    var r := s.fruns[d];
    if d == fk {
      JammedReclaim(d, F.Begin(r.d, false), r.ck, r.c, s.kube.templates, s.metal, rep);
    }
  }

  lemma JammedActDeployment(s: Sys, k: Key, fk: Key, d: Key, rep: F.Replies, paused: bool)
    requires Jam(s, k, fk)
    ensures Jam(ActDeployment(s, d, rep, paused), k, fk)
  {
    hide Jam, ActDeploymentUp, ActDeploymentGuard, ActDeploymentReclaim;
    if d in s.fruns && !s.fruns[d].FActed? {
      if s.fruns[d].FCleared? {
        JammedDeploymentReclaim(s, k, fk, d, rep);
      } else if paused || s.fruns[d].d.deletion.None? {
        JammedRunUp(s, k, fk, d, rep, paused);
      } else {
        JammedDeploymentGuard(s, k, fk, d, rep);
      }
    }
  }

  lemma JammedPatchDeployment(s: Sys, k: Key, fk: Key, d: Key, applied: bool)
    requires Jam(s, k, fk)
    ensures Jam(PatchDeployment(s, d, applied), k, fk)
  {}

  lemma JammedPatchCluster(s: Sys, k: Key, fk: Key, c: Key, applied: bool)
    requires Jam(s, k, fk)
    ensures Jam(PatchCluster(s, c, applied), k, fk)
  {}

  /** No other cluster takes the deployment over, and a request for its deletion, from
      whatever cluster, leaves owner and finalizer. */
  lemma OwnedElsewhere(c: Key, fk: Key, deps: Deployments, obj: Cluster, rep: C.Replies)
    requires fk in deps && deps[fk].owner.Some? && deps[fk].owner != Some(c)
    requires obj.fwRef.Some?
    ensures var r := C.Adopt(c, deps, C.DeploymentKey(c, obj), rep);
      r.Some? ==> fk in r.value && r.value[fk] == deps[fk]
  {}

  lemma RequestKeeps(c: Key, fk: Key, deps: Deployments, obj: Cluster, rep: C.Replies, left: bool, now: Time)
    requires fk in deps
    ensures var deps' := C.Guard(c, obj, left, deps, rep, now).0;
      fk in deps' && deps'[fk].finalizer == deps[fk].finalizer && deps'[fk].owner == deps[fk].owner
  {
    hide C.Guard;
  }

  lemma JammedUp(s: Sys, k: Key, fk: Key, c: Key, rep: C.Replies, paused: bool)
    requires Jam(s, k, fk) && c in s.cruns && s.cruns[c].CLoaded? && c in s.cbooks
    requires paused || s.cruns[c].c.deletion.None?
    ensures Jam(ActClusterUp(s, c, rep, paused), k, fk)
  {
    hide C.RunUp, C.Adopt, C.Reconcile, UpBook, Spends, SpendsFor, C.Begin;
    var obj := s.cruns[c].c;
    if c != k && obj.fwRef.Some? {
      OwnedElsewhere(c, fk, s.kube.deployments, obj, rep);
      SameReference(obj);
    }
  }

  lemma SameReference(c: Cluster)
    ensures C.Begin(c, false).fwRef == c.fwRef && C.Begin(c, false).deletion == c.deletion
    ensures C.Begin(c, false).netId == c.netId && C.Begin(c, false).finalizer == c.finalizer
  {}

  lemma JammedGuard(s: Sys, k: Key, fk: Key, c: Key, rep: C.Replies)
    requires Jam(s, k, fk) && c in s.cruns && s.cruns[c].CLoaded? && s.cruns[c].c.deletion.Some?
    ensures Jam(ActClusterGuard(s, c, rep), k, fk)
  {
    hide MachinesOf, C.Guard, C.Begin;
    var obj := s.cruns[c].c;
    SameReference(obj);
    RequestKeeps(c, fk, s.kube.deployments, C.Begin(obj, false), rep, MachinesOf(s.kube, c) != {}, s.now);
  }

  lemma JammedActCluster(s: Sys, k: Key, fk: Key, c: Key, rep: C.Replies, paused: bool)
    requires Jam(s, k, fk)
    ensures Jam(ActCluster(s, c, rep, paused), k, fk)
  {
    hide ActClusterUp, ActClusterGuard, C.Teardown;
    if c in s.cruns && c in s.cbooks {
      if s.cruns[c].CLoaded? {
        hide Jam;
        if paused || s.cruns[c].c.deletion.None? {
          JammedUp(s, k, fk, c, rep, paused);
        } else {
          JammedGuard(s, k, fk, c, rep);
        }
      }
    }
  }

  lemma JammedLoad(s: Sys, k: Key, fk: Key, c: Key)
    requires Jam(s, k, fk)
    ensures Jam(LoadCluster(s, c), k, fk) && Jam(LoadDeployment(s, c), k, fk)
  {}

  lemma JammedVanishCluster(s: Sys, k: Key, fk: Key, c: Key)
    requires Jam(s, k, fk)
    ensures Jam(VanishCluster(s, c), k, fk)
  {}

  lemma JammedVanishDeployment(s: Sys, k: Key, fk: Key, d: Key)
    requires Jam(s, k, fk)
    ensures Jam(VanishDeployment(s, d), k, fk)
  {}

  lemma JammedUser(s: Sys, k: Key, fk: Key, c: Key)
    requires Jam(s, k, fk)
    ensures Jam(DeleteCluster(s, c), k, fk) && Jam(DeleteDeployment(s, c), k, fk)
  {
    hide JammedRuns, MachinesOf;
  }

  lemma JammedDropRef(s: Sys, k: Key, fk: Key, c: Key)
    requires Jam(s, k, fk)
    ensures Jam(DropRef(s, c), k, fk)
  {
    hide JammedRuns;
  }

  lemma JammedNew(s: Sys, k: Key, fk: Key, c: Key)
    requires Jam(s, k, fk)
    ensures forall obj :: Jam(CreateCluster(s, c, obj), k, fk)
    ensures forall obj :: Jam(CreateDeployment(s, c, obj), k, fk)
  {
    hide JammedRuns, PlainCluster;
  }

  lemma JammedClusterStep(s: Sys, step: Step, k: Key, fk: Key)
    requires Jam(s, k, fk) && OnClusters(step)
    ensures Jam(Next(s, step), k, fk)
  {
    hide LoadCluster, ActCluster, PatchCluster, VanishCluster, CreateCluster, DeleteCluster, Jam;
    match step
    case SLoadCluster(c) => JammedLoad(s, k, fk, c);
    case SActCluster(c, rep, paused) => JammedActCluster(s, k, fk, c, rep, paused);
    case SPatchCluster(c, applied) => JammedPatchCluster(s, k, fk, c, applied);
    case SVanishCluster(c) => JammedVanishCluster(s, k, fk, c);
    case SCreateCluster(c, _) => JammedNew(s, k, fk, c);
    case SDeleteCluster(c) => JammedUser(s, k, fk, c);
  }

  lemma JammedDeploymentStep(s: Sys, step: Step, k: Key, fk: Key)
    requires Jam(s, k, fk) && OnDeployments(step)
    ensures Jam(Next(s, step), k, fk)
  {
    hide LoadDeployment, ActDeployment, PatchDeployment, VanishDeployment, CreateDeployment, DeleteDeployment,
      DropRef, Jam;
    match step
    case SLoadDeployment(d) => JammedLoad(s, k, fk, d);
    case SActDeployment(d, rep, paused) => JammedActDeployment(s, k, fk, d, rep, paused);
    case SPatchDeployment(d, applied) => JammedPatchDeployment(s, k, fk, d, applied);
    case SVanishDeployment(d) => JammedVanishDeployment(s, k, fk, d);
    case SCreateDeployment(d, _) => JammedNew(s, k, fk, d);
    case SDeleteDeployment(d) => JammedUser(s, k, fk, d);
    case SDropRef(d) => JammedDropRef(s, k, fk, d);
  }

  lemma JammedStep(s: Sys, step: Step, k: Key, fk: Key)
    requires Jam(s, k, fk)
    ensures Jam(Next(s, step), k, fk)
  {
    if OnClusters(step) {
      JammedClusterStep(s, step, k, fk);
    } else if OnDeployments(step) {
      JammedDeploymentStep(s, step, k, fk);
    } else {
      ClusterFrame(s, step);
      DeploymentFrame(s, step);
    }
    hide Next, Jammed, JammedRuns;
  }

  /** Jammed for ever: whatever runs, replies and users do, both objects stay. The
      deployment's deletion ends in a nil dereference, the cluster's waits for it. */
  lemma {:induction false} JammedForEver(s: Sys, steps: seq<Step>, k: Key, fk: Key)
    requires Jam(s, k, fk)
    ensures Jam(Exec(s, steps), k, fk)
    ensures k in Exec(s, steps).kube.clusters && fk in Exec(s, steps).kube.deployments
  {
    hide Next;
    if steps != [] {
      JammedForEver(s, steps[..|steps| - 1], k, fk);
      JammedStep(Exec(s, steps[..|steps| - 1]), steps[|steps| - 1], k, fk);
    }
  }

  /** The first pass of a fresh cluster, whose patch is lost: the network is
      allocated and the deployment taken over, and the cluster records neither. */
  function LostFirstPass(s: Sys, k: Key, rep: C.Replies): Sys {
    PatchCluster(ActCluster(LoadCluster(s, k), k, rep, false), k, false)
  }

  /** The deployment controller adds its finalizer. */
  function FirstDeploymentPass(s: Sys, fk: Key, rep: F.Replies): Sys {
    PatchDeployment(ActDeployment(ActDeployment(LoadDeployment(s, fk), fk, rep, false), fk, rep, false), fk, true)
  }

  predicate Adoptable(s: Sys, k: Key, fk: Key) {
    && k in s.kube.clusters && k !in s.cruns && k in s.cbooks && fk in s.kube.deployments && fk !in s.fruns
    && s.kube.clusters[k].finalizer && s.kube.clusters[k].netId.None? && s.kube.clusters[k].deletion.None?
    && s.kube.clusters[k].fwRef == Some(fk.name) && fk.ns == k.ns
    && s.kube.deployments[fk].owner.None? && s.kube.deployments[fk].deletion.None?
    && F.TemplateKey(fk, s.kube.deployments[fk]) in s.kube.templates
  }

  predicate Adopting(s: Sys, rep: C.Replies) {
    NetworkAnswer(s.metal, rep.net).Some? && rep.getDeployment && rep.update
  }

  lemma LostPassAdopts(s: Sys, k: Key, fk: Key, rep: C.Replies)
    requires Adoptable(s, k, fk) && Adopting(s, rep)
    ensures var t := LostFirstPass(s, k, rep);
      && t.kube.clusters == s.kube.clusters && t.kube.templates == s.kube.templates
      && k !in t.cruns && t.fruns == s.fruns && fk in t.kube.deployments
      && t.kube.deployments[fk] == s.kube.deployments[fk].(owner := Some(k), clusterLabel := Some(k.name))
  {
    hide C.RunUp, UpBook, NetworkAnswer, Adopting, Spends, SpendsFor, C.Adopt, C.Reconcile;
    var c := s.kube.clusters[k];
    FirstRunAdopts(s, k, fk, c, rep);
  }

  lemma FirstRunAdopts(s: Sys, k: Key, fk: Key, c: Cluster, rep: C.Replies)
    requires Adoptable(s, k, fk) && Adopting(s, rep) && c == s.kube.clusters[k]
    ensures C.RunUp(k, c, s.kube.deployments, s.metal, rep, false).deployments
         == s.kube.deployments[fk := s.kube.deployments[fk].(owner := Some(k), clusterLabel := Some(k.name))]
  {
    hide Spends, SpendsFor, C.EnsureIP;
  }

  lemma FinalizerAdded(s: Sys, k: Key, fk: Key, rep: F.Replies)
    requires k in s.kube.clusters && fk in s.kube.deployments && fk !in s.fruns && s.kube.clusters[k].netId.None?
    requires s.kube.deployments[fk].owner == Some(k) && s.kube.deployments[fk].deletion.None?
    requires F.TemplateKey(fk, s.kube.deployments[fk]) in s.kube.templates
    ensures var t := FirstDeploymentPass(s, fk, rep);
      && t.kube.clusters == s.kube.clusters && t.cruns == s.cruns && fk !in t.fruns && fk in t.kube.deployments
      && t.kube.deployments[fk].finalizer && t.kube.deployments[fk].deletion.None?
      && t.kube.deployments[fk].owner == Some(k)
  {
    var d, c := s.kube.deployments[fk], s.kube.clusters[k];
    FirstRunFinalizes(fk, d, k, c, s.kube.templates[F.TemplateKey(fk, d)], MachinesOf(s.kube, k) != {},
        s.kube.templates, s.metal, rep);
    FC.Uninterrupted(s, fk, rep, false, true);
    hide F.Run, LoadDeployment, ActDeployment, PatchDeployment, MachinesOf;
  }

  lemma FirstRunFinalizes(k: Key, d: Deployment, ck: Key, c: Cluster, t: Template, left: bool, ts: F.Templates,
                          metal: Metal, rep: F.Replies)
    requires d.deletion.None? && c.netId.None?
    ensures var o := F.Run(k, d, ck, c, t, left, ts, metal, rep, false); !o.panicked && o.obj.finalizer
  {
    hide F.Allocate, F.Delete;
  }

  /** The jam is reached from every state in which a cluster is about to take over
      its deployment for the first time: one lost patch, and the request to delete
      the cluster before another pass. */
  lemma JamArises(s: Sys, k: Key, fk: Key, crep: C.Replies, frep: F.Replies)
    requires Adoptable(s, k, fk) && Adopting(s, crep)
    ensures Jam(DeleteCluster(FirstDeploymentPass(LostFirstPass(s, k, crep), fk, frep), k), k, fk)
  {
    hide LostFirstPass, FirstDeploymentPass, Adopting;
    LostPassAdopts(s, k, fk, crep);
    FinalizerAdded(LostFirstPass(s, k, crep), k, fk, frep);
  }

  // ------------------------------------------------ the other ways to be stuck

  /** A cluster without a firewall deployment reference never passes its guard. */
  predicate NoReference(s: Sys, k: Key) {
    && k in s.kube.clusters && s.kube.clusters[k].finalizer && s.kube.clusters[k].fwRef.None?
    && !T.PastGuard(k, s.cruns)
  }

  predicate TearingDown(s: Sys, k: Key) {
    k in s.cruns && L.Torn(s.cruns[k])
  }

  /** The recorded network is gone, the provider does not accept freeing it again, and
      no run is about to drop the record. */
  predicate NetworkLost(s: Sys, k: Key) {
    && k in s.kube.clusters && s.kube.clusters[k].finalizer && s.kube.clusters[k].netId.Some? && !s.metal.lenient
    && s.kube.clusters[k].netId.value !in s.metal.nets && s.kube.clusters[k].netId.value in s.metal.spentNets
    && !TearingDown(s, k)
  }

  /** Only a run that has passed the guard, and only by a teardown that succeeds, gets
      ready to drop the finalizer. */
  lemma UpNotTorn(s: Sys, k: Key, rep: C.Replies, paused: bool)
    requires Inv(s) && k in s.cruns && s.cruns[k].CLoaded? && k in s.cbooks && (paused || s.cruns[k].c.deletion.None?)
    ensures !T.PastGuard(k, ActClusterUp(s, k, rep, paused).cruns)
  {
    CS.RunFacts(s, k);
    CS.RunUpProvisions(k, s.cruns[k].c, s.kube.deployments, s.metal, rep, paused);
    hide Inv, C.RunUp, UpBook, Deserted, ClusterBooked, Gated, C.Adopt;
  }

  lemma GuardNotTorn(s: Sys, k: Key, rep: C.Replies)
    requires k in s.cruns && s.cruns[k].CLoaded?
    ensures var t := ActClusterGuard(s, k, rep);
      !TearingDown(t, k) && (s.cruns[k].c.fwRef.None? ==> !T.PastGuard(k, t.cruns))
  {
    SameReference(s.cruns[k].c);
    hide C.Guard, C.Begin, MachinesOf;
  }

  lemma TeardownFails(s: Sys, k: Key, rep: C.Replies)
    requires k in s.cruns && s.cruns[k].CCleared? && s.cruns[k].c.netId.Some?
    requires s.cruns[k].c.netId.value !in s.metal.nets && !s.metal.lenient
    ensures !TearingDown(ActClusterTeardown(s, k, rep), k)
  {
    SameReference(s.cruns[k].c);
    FailingTeardown(C.Begin(s.cruns[k].c, false), s.kube.deployments, s.metal, rep);
    hide C.Teardown, C.Begin;
  }

  lemma FailingTeardown(c: Cluster, deps: C.Deployments, m: Metal, rep: C.Replies)
    requires c.netId.Some? && c.netId.value !in m.nets && !m.lenient
    ensures C.Teardown(c, deps, m, rep).failed
  {}

  lemma ActStuck(s: Sys, k: Key, rep: C.Replies, paused: bool)
    requires Inv(s)
    ensures var t := ActCluster(s, k, rep, paused);
      && (NoReference(s, k) ==> !T.PastGuard(k, t.cruns))
      && (NetworkLost(s, k) ==> !TearingDown(t, k))
  {
    if k in s.cruns {
      CS.RunFacts(s, k);
      hide Inv, Deserted, ClusterBooked, Gated, PlainCluster, ActClusterUp, ActClusterGuard, ActClusterTeardown;
      if s.cruns[k].CCleared? {
        if NetworkLost(s, k) { TeardownFails(s, k, rep); }
      } else if s.cruns[k].CLoaded? {
        if paused || s.cruns[k].c.deletion.None? { UpNotTorn(s, k, rep, paused); } else { GuardNotTorn(s, k, rep); }
      }
    }
  }

  lemma RunStuck(s: Sys, step: Step, k: Key)
    requires Inv(s)
    ensures var t := Next(s, step);
      && (NoReference(s, k) ==> !T.PastGuard(k, t.cruns))
      && (NetworkLost(s, k) ==> !TearingDown(t, k))
  {
    if !OnClusters(step) {
      ClusterFrame(s, step);
      hide Inv, Next;
    } else if step.k != k {
      L.Elsewhere(s, step, k);
      hide Inv, Next;
    } else if step.SActCluster? {
      ActStuck(s, k, step.crep, step.paused);
      hide Inv, ActCluster, NoReference, NetworkLost, T.PastGuard, TearingDown;
    } else {
      hide Inv;
      OtherStepNotTorn(s, step);
      hide Next;
    }
  }

  lemma OtherStepNotTorn(s: Sys, step: Step)
    requires OnClusters(step) && !step.SActCluster?
    ensures var t := Next(s, step);
      (T.PastGuard(step.k, t.cruns) ==> T.PastGuard(step.k, s.cruns))
          && (TearingDown(t, step.k) ==> TearingDown(s, step.k))
  {
    hide MergeCluster, CreateCluster, DeleteCluster;
  }

  /** The object stays with its finalizer, and keeps reference and network. */
  lemma ObjectStuck(s: Sys, step: Step, k: Key)
    requires Inv(s) && k in s.kube.clusters && s.kube.clusters[k].finalizer && !TearingDown(s, k)
    ensures H.Remains(k, s, Next(s, step)) && Next(s, step).kube.clusters[k].fwRef == s.kube.clusters[k].fwRef
    ensures s.kube.clusters[k].netId.Some? ==> Next(s, step).kube.clusters[k].netId == s.kube.clusters[k].netId
  {
    hide Next;
    if !H.Remains(k, s, Next(s, step)) {
      H.OnlyPatchDropsCluster(s, step, k);
      PatchNeedsTorn(s, k);
    } else {
      H.NextKeepsPlace(s, step, k);
    }
    hide Inv;
  }

  lemma PatchNeedsTorn(s: Sys, k: Key)
    requires Inv(s) && k in s.kube.clusters && s.kube.clusters[k].finalizer
    requires k in PatchCluster(s, k, true).kube.clusters && !PatchCluster(s, k, true).kube.clusters[k].finalizer
    ensures TearingDown(s, k)
  {
    if k in s.cruns && s.cruns[k].CActed? {
      CS.RunFacts(s, k);
      hide Inv, Deserted, ClusterBooked, Gated, PlainCluster;
    }
  }

  lemma LenienceStays(s: Sys, step: Step)
    requires Inv(s)
    ensures Next(s, step).metal.lenient == s.metal.lenient
  {
    if !step.SActCluster? { MetalFrame(s, step); }
    hide Inv, ActCluster;
  }

  /** Stuck for ever: without a reference, or with its network gone and a provider that
      minds, a cluster keeps its finalizer whatever runs, replies and users do. */
  lemma {:induction false} StuckForEver(s: Sys, steps: seq<Step>, k: Key)
    requires Inv(s) && (NoReference(s, k) || NetworkLost(s, k))
    ensures var t := Exec(s, steps);
      Inv(t) && (NoReference(s, k) ==> NoReference(t, k)) && (NetworkLost(s, k) ==> NetworkLost(t, k))
    ensures k in Exec(s, steps).kube.clusters && Exec(s, steps).kube.clusters[k].finalizer
  {
    hide Inv, Next;
    if steps != [] {
      var before, step := steps[..|steps| - 1], steps[|steps| - 1];
      var t := Exec(s, before);
      StuckForEver(s, before, k);
      R.NextInv(t, step);
      RunStuck(t, step, k);
      ObjectStuck(t, step, k);
      N.NextNoReissue(t, step);
      LenienceStays(t, step);
    }
  }

  /** A lost patch after a teardown leads there when the provider minds. */
  lemma LostTeardownSticks(s: Sys, k: Key, rep: C.Replies)
    requires Inv(s) && k in s.cruns && s.cruns[k].CCleared? && !s.metal.lenient
    requires s.kube.clusters[k].netId.Some? && s.kube.clusters[k].netId.value in s.metal.nets
    requires s.kube.clusters[k].netId.value in s.metal.spentNets
    requires rep.findIP && rep.freeIP.Freed? && rep.freeNet.Freed?
    ensures NetworkLost(PatchCluster(ActCluster(s, k, rep, false), k, false), k)
  {
    CS.RunFacts(s, k);
    hide Inv, ClusterBooked, Gated, PlainCluster, C.Teardown, Deserted, MergeCluster;
    TornDownNetwork(s, k, rep);
    hide ActCluster;
  }

  lemma TornDownNetwork(s: Sys, k: Key, rep: C.Replies)
    requires k in s.cruns && s.cruns[k].CCleared? && k in s.cbooks
    requires s.cruns[k].c.netId.Some? && s.cruns[k].c.netId.value in s.metal.nets
    requires rep.findIP && rep.freeIP.Freed? && rep.freeNet.Freed?
    ensures var t := ActCluster(s, k, rep, false);
      && t.kube == s.kube && k in t.cbooks && k in t.cruns && t.cruns[k].CActed?
      && s.cruns[k].c.netId.value !in t.metal.nets && t.metal.spentNets == s.metal.spentNets
  {
    SameReference(s.cruns[k].c);
    hide C.Teardown, C.Begin;
    TeardownFreesNetwork(C.Begin(s.cruns[k].c, false), s.kube.deployments, s.metal, rep);
  }

  /** What a user has asked for when no run is under way for cluster or deployment: the
      cluster and its machines are being deleted, the template is there, and nobody else
      has the deployment. */
  predicate Asked(s: Sys, g: L.Goal) {
    && L.Leaving(s.kube.machines, g) && g.k in s.kube.clusters && g.k !in s.cruns && g.fk !in s.fruns
    && var c := s.kube.clusters[g.k];
       && c.deletion.Some? && c.finalizer && c.project == g.project && g.fk.ns == g.k.ns
       && (c.fwRef.None? || c.fwRef == Some(g.fk.name))
       && (g.fk in s.kube.deployments ==>
             && F.TemplateKey(g.fk, s.kube.deployments[g.fk]) in s.kube.templates
             && (s.kube.deployments[g.fk].owner.None? || s.kube.deployments[g.fk].owner == Some(g.k)))
  }

  /** The cluster has no network, and its deployment neither a finalizer yet nor a request
      for its deletion. */
  predicate Undecided(s: Sys, g: L.Goal) {
    && g.k in s.kube.clusters && s.kube.clusters[g.k].netId.None? && s.kube.clusters[g.k].fwRef.Some?
    && g.fk in s.kube.deployments && s.kube.deployments[g.fk].owner == Some(g.k)
    && !s.kube.deployments[g.fk].finalizer && s.kube.deployments[g.fk].deletion.None?
  }

  /** When a deletion ends. It does not, for ever, without a reference, with the network
      gone and a provider that minds, or jammed. Which way it goes is undecided while the
      deployment of a cluster without network has neither finalizer nor request. In every
      other case it is under way, so every calm and fair path ends it. */
  lemma EndsUnlessStuck(s: Sys, g: L.Goal)
    requires Reached(s) && Asked(s, g)
    ensures L.Underway(s, g)
       <==> !NoReference(s, g.k) && !NetworkLost(s, g.k) && !Jam(s, g.k, g.fk) && !Undecided(s, g)
  {
    R.ReachedInv(s);
    N.ReachedAccounted(s);
    AskedCluster(s, g);
    if s.kube.clusters[g.k].fwRef.Some? { AskedDeployment(s, g); }
    hide Inv, Reached, L.ClusterState, L.DeploymentState, N.Accounted, NetworkLost, Jam, L.Leaving;
  }

  lemma AskedCluster(s: Sys, g: L.Goal)
    requires Inv(s) && N.Accounted(s) && Asked(s, g)
    ensures L.ClusterState(s.kube.clusters, s.cruns, g.fk !in s.kube.deployments, s.metal, g)
       <==> !NoReference(s, g.k) && !NetworkLost(s, g.k)
  {
    assert s.kube.clusters[g.k].netId.Some? ==> s.kube.clusters[g.k].netId.value in s.metal.spentNets;
    hide Inv, L.Leaving, N.Accounted;
  }

  lemma AskedDeployment(s: Sys, g: L.Goal)
    requires Inv(s) && Asked(s, g) && s.kube.clusters[g.k].fwRef.Some?
    ensures L.DeploymentState(s, g) <==> !Jam(s, g.k, g.fk) && !Undecided(s, g)
  {
    if g.fk in s.kube.deployments { DS.OwnerFacts(s, g.fk); }
    hide Inv, L.Leaving, NoFirewallsOf, OwnerOk;
  }

  // ------------------------------------------------- both ways out of the undecided

  /** If the deployment controller comes first it adds its finalizer, and that jams. */
  lemma UndecidedJams(s: Sys, g: L.Goal, rep: F.Replies)
    requires Asked(s, g) && Undecided(s, g)
    ensures Jam(FirstDeploymentPass(s, g.fk, rep), g.k, g.fk)
  {
    FinalizerAdded(s, g.k, g.fk, rep);
    hide FirstDeploymentPass, L.Leaving;
  }

  /** If the request for its deletion comes first the deletion is under way. */
  lemma RequestDecides(s: Sys, g: L.Goal)
    requires Asked(s, g) && Undecided(s, g)
    ensures L.Underway(DeleteDeployment(s, g.fk), g)
  {
    hide L.Leaving;
  }

  /** Without machines that request comes from the cluster controller itself. */
  lemma GuardDecides(s: Sys, g: L.Goal, rep: C.Replies)
    requires Inv(s) && Asked(s, g) && Undecided(s, g)
    requires MachinesOf(s.kube, g.k) == {} && L.GoodForCluster(rep)
    ensures L.Underway(ActCluster(LoadCluster(s, g.k), g.k, rep, false), g)
  {
    var s1, c := LoadCluster(s, g.k), s.kube.clusters[g.k];
    CS.LoadClusterInv(s, g.k);
    assert s1.cruns[g.k] == CLoaded(c) && g.k in s1.cbooks by { CS.RunFacts(s1, g.k); }
    hide Inv, LoadCluster, ActCluster, MachinesOf;
    GuardTakesWhateverIsNamed(s1, g.k, g.fk, rep);
    GuardEffects(s1, g.k, g.fk, rep);
    GuardLeavesRun(s1, g.k, rep);
    hide L.GoodForCluster, L.Leaving;
    DecidedBy(s, ActCluster(s1, g.k, rep, false), g);
  }

  lemma GuardLeavesRun(s: Sys, k: Key, rep: C.Replies)
    requires k in s.cruns && s.cruns[k].CLoaded? && k in s.cbooks && s.cruns[k].c.deletion.Some?
    requires s.cruns[k].c.fwRef.Some? && C.DeploymentKey(k, s.cruns[k].c) in s.kube.deployments
    ensures var t := ActCluster(s, k, rep, false).cruns; var c := s.cruns[k].c;
      k in t && t[k].CActed? && t[k].before == c && t[k].after.finalizer == c.finalizer && t[k].after.netId == c.netId
  {
    SameReference(s.cruns[k].c);
    hide C.Begin, MachinesOf, C.Guard;
    GuardStopsAt(k, C.Begin(s.cruns[k].c, false), MachinesOf(s.kube, k) != {}, s.kube.deployments, rep, s.now);
  }

  lemma GuardStopsAt(k: Key, c: Cluster, left: bool, ds: Deployments, rep: C.Replies, now: Time)
    requires c.fwRef.Some? && C.DeploymentKey(k, c) in ds
    ensures C.Guard(k, c, left, ds, rep, now).1.Stop?
  {}

  lemma DecidedBy(s: Sys, t: Sys, g: L.Goal)
    requires Asked(s, g) && Undecided(s, g) && t.kube.machines == s.kube.machines && t.kube.clusters == s.kube.clusters
    requires g.fk in t.kube.deployments && t.kube.deployments[g.fk].deletion.Some?
    requires t.kube.deployments[g.fk] == s.kube.deployments[g.fk].(deletion := t.kube.deployments[g.fk].deletion)
    requires t.fruns == s.fruns && g.k in t.cruns && t.cruns[g.k].CActed?
    requires var r, c := t.cruns[g.k], s.kube.clusters[g.k];
      r.before == c && r.after.finalizer == c.finalizer && r.after.netId == c.netId
    ensures L.Underway(t, g)
  {
    hide L.Leaving;
  }

  /** So from there a calm and fair path to the end exists as well. */
  lemma UndecidedCanEnd(s: Sys, g: L.Goal) returns (p: CR.Path, cuts: seq<nat>)
    requires Reached(s) && Asked(s, g) && Undecided(s, g)
    ensures CR.IsPath(p) && p.states[0] == s && T.Fair(p, g, cuts) && L.Gone(p.states[cuts[|cuts| - 1]], g)
    ensures forall i | 0 <= i < |p.steps| :: L.Calm(p.states[i], g, p.steps[i])
  {
    hide Reached, Inv, L.Underway, L.Calm, Next, L.Leaving;
    R.ReachedInv(s);
    RequestDecides(s, g);
    RequestIsCalm(s, g);
    p, cuts := FN.EndsAfter(s, g, SDeleteDeployment(g.fk));
    hide Asked, Undecided;
  }

  lemma RequestIsCalm(s: Sys, g: L.Goal)
    requires Asked(s, g) && Undecided(s, g)
    ensures var step := SDeleteDeployment(g.fk); var t := Next(s, step);
      && L.Calm(s, g, step) && t == DeleteDeployment(s, g.fk)
      && t.kube.machines == s.kube.machines && g.fk in t.kube.deployments && g.k in t.kube.clusters
  {
    HostFrame(s, SDeleteDeployment(g.fk));
    hide L.Leaving;
    FN.SameHostsFresh(s, Next(s, SDeleteDeployment(g.fk)), g);
    hide L.Fresh;
  }
}

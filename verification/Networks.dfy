/** A cluster gives up the record of a network or of an address, and its finalizer,
    only when the provider has the network and the address no more. */
module Networks {
  import opened Names
  import opened Store
  import opened Metal
  import opened Protocol
  import opened Invariant
  import opened StepFrames
  import R = Reachable
  import H = History
  import CS = ClusterSteps
  import C = ClusterSpec

  type Clusters = map<Key, Cluster>
  type Runs = map<Key, ClusterRun>

  /** What a cluster records is out of what the provider hands out. */
  predicate Known(c: Cluster, m: Metal) {
    (c.netId.Some? ==> c.netId.value in m.spentNets) && (c.cpIp.Some? ==> c.cpIp.value in m.spentIps)
  }

  predicate AllKnown(cs: Clusters, m: Metal) {
    forall k | k in cs :: Known(cs[k], m)
  }

  /** A given address that is static belongs to the user and stays. */
  predicate AddressGone(ip: string, m: Metal) {
    ip in m.ips ==> m.ips[ip] == Static
  }

  /** A run that is about to record a network has had it handed out; one that is
      about to clear a record has had the network, or the address, freed. */
  predicate RunSettled(r: ClusterRun, m: Metal) {
    r.CActed? ==>
      && (r.newNet ==> r.after.netId.Some? && r.after.netId.value in m.spentNets)
      && (r.before.netId.Some? && r.after.netId.None? ==> r.before.netId.value !in m.nets)
      && (r.after.cpIp == r.before.cpIp
          || (r.before.cpIp.Some? && r.after.cpIp.None? && AddressGone(r.before.cpIp.value, m)))
      && (r.before.finalizer && !r.after.finalizer ==> r.after.netId.None? && r.after.cpIp.None?)
  }

  predicate Settled(runs: Runs, m: Metal) {
    forall k | k in runs :: RunSettled(runs[k], m)
  }

  predicate Accounted(s: Sys) {
    AllKnown(s.kube.clusters, s.metal) && Settled(s.cruns, s.metal)
  }

  /** Names are never taken back, and a name handed out before is not handed out
      again. */
  predicate NoReissue(m: Metal, m': Metal) {
    && m.spentNets <= m'.spentNets && m.spentIps <= m'.spentIps
    && (forall n | n in m'.nets && n in m.spentNets :: n in m.nets)
    && (forall a | a in m'.ips && a in m.spentIps :: a in m.ips && m'.ips[a] == m.ips[a])
  }

  lemma NetworkNoReissue(c: Cluster, deps: C.Deployments, m: Metal, rep: C.Replies)
    ensures NoReissue(m, C.EnsureNetwork(c, deps, m, rep).metal)
  {
    hide Spends, SpendsFor;
  }

  lemma AddressNoReissue(a: C.Outcome, rep: C.Replies)
    ensures NoReissue(a.metal, C.EnsureEndpoint(a, rep).metal)
  {
    hide Spends, SpendsFor;
  }

  lemma NoReissueOn(a: Metal, b: Metal, c: Metal)
    requires NoReissue(a, b) && NoReissue(b, c)
    ensures NoReissue(a, c) && NoReissue(a, a)
  {}

  lemma UpNoReissue(k: Key, c: Cluster, deps: C.Deployments, m: Metal, rep: C.Replies, paused: bool)
    requires paused || c.deletion.None?
    ensures NoReissue(m, C.RunUp(k, c, deps, m, rep, paused).metal)
  {
    var a := C.EnsureNetwork(C.Begin(c, false), deps, m, rep);
    var b := C.EnsureDeployment(k, a, rep);
    NetworkNoReissue(C.Begin(c, false), deps, m, rep);
    AddressNoReissue(b, rep);
    NoReissueOn(m, a.metal, C.EnsureEndpoint(b, rep).metal);
    hide C.EnsureNetwork, C.EnsureDeployment, C.EnsureEndpoint, Spends, SpendsFor, C.Adopt, C.Begin, NoReissue;
  }

  lemma TeardownNoReissue(c: Cluster, deps: C.Deployments, m: Metal, rep: C.Replies)
    ensures NoReissue(m, C.Teardown(c, deps, m, rep).metal)
  {
    hide C.Teardown;
  }

  lemma SameNoReissue(m: Metal)
    ensures NoReissue(m, m)
  {}

  lemma ActNoReissue(s: Sys, k: Key, rep: C.Replies, paused: bool)
    ensures NoReissue(s.metal, ActCluster(s, k, rep, paused).metal)
  {
    hide C.Guard, C.Teardown, C.RunUp, UpRun, UpBook, MachinesOf, C.Begin, NoReissue;
    SameNoReissue(s.metal);
    if k in s.cruns && k in s.cbooks {
      if s.cruns[k].CCleared? {
        TeardownNoReissue(C.Begin(s.cruns[k].c, false), s.kube.deployments, s.metal, rep);
      } else if s.cruns[k].CLoaded? && (paused || s.cruns[k].c.deletion.None?) {
        UpNoReissue(k, s.cruns[k].c, s.kube.deployments, s.metal, rep, paused);
      }
    }
  }

  // ------------------------------------------------------- what a run promises

  lemma BeginKeeps(c: Cluster, paused: bool)
    ensures var b := C.Begin(c, paused); b.netId == c.netId && b.cpIp == c.cpIp && b.finalizer == c.finalizer
  {}

  /** Provisioning clears no record, and what it newly records was handed out. */
  lemma UpSettled(k: Key, c: Cluster, deps: C.Deployments, m: Metal, rep: C.Replies, paused: bool)
    requires paused || c.deletion.None?
    ensures var o := C.RunUp(k, c, deps, m, rep, paused); RunSettled(UpRun(c, o, m), o.metal)
  {
    BeginKeeps(c, false);
    hide C.Reconcile, C.Adopt, Spends, C.Begin;
  }

  lemma TeardownSettled(c: Cluster, deps: C.Deployments, m: Metal, rep: C.Replies)
    ensures var o := C.Teardown(C.Begin(c, false), deps, m, rep);
      RunSettled(CActed(c, o.obj, false, false), o.metal)
  {
    BeginKeeps(c, false);
    hide C.Teardown, C.Begin;
  }

  lemma GuardSettled(c: Cluster, m: Metal)
    ensures RunSettled(CActed(c, C.Begin(c, false), false, false), m)
  {}

  /** A run under way agrees with what is stored. */
  predicate RunSeen(c: Cluster, r: ClusterRun) {
    r.CActed? ==> r.before.netId == c.netId && r.before.cpIp == c.cpIp
  }

  predicate RunsSeen(cs: Clusters, runs: Runs) {
    forall k | k in runs :: k in cs && RunSeen(cs[k], runs[k])
  }

  lemma RunsAreSeen(s: Sys)
    requires Inv(s)
    ensures RunsSeen(s.kube.clusters, s.cruns)
  {
    hide Plain, Homes, Owners, Covered, Held, MachineBooks, ClusterBooks, MachineRuns, DeploymentRuns, Gates, Deserted;
  }

  lemma SettledOn(c: Cluster, r: ClusterRun, m: Metal, m': Metal)
    requires RunSettled(r, m) && NoReissue(m, m') && Known(c, m) && RunSeen(c, r)
    ensures RunSettled(r, m')
  {}

  /** The other runs keep their promises, and records stay known. */
  lemma OthersSettled(cs: Clusters, runs: Runs, m: Metal, m': Metal, k: Key, r: ClusterRun)
    requires AllKnown(cs, m) && Settled(runs, m) && NoReissue(m, m') && RunsSeen(cs, runs) && RunSettled(r, m')
    ensures AllKnown(cs, m') && Settled(runs[k := r], m')
  {
    forall d | d in runs && d != k
      ensures RunSettled(runs[d], m')
    {
      SettledOn(cs[d], runs[d], m, m');
    }
  }

  // ------------------------------------------------------------------ every step

  lemma UpAccounted(s: Sys, k: Key, rep: C.Replies, paused: bool)
    requires Accounted(s) && RunsSeen(s.kube.clusters, s.cruns) && k in s.cruns && s.cruns[k].CLoaded? && k in s.cbooks
    requires paused || s.cruns[k].c.deletion.None?
    ensures Accounted(ActClusterUp(s, k, rep, paused))
  {
    var c := s.cruns[k].c;
    var o := C.RunUp(k, c, s.kube.deployments, s.metal, rep, paused);
    UpNoReissue(k, c, s.kube.deployments, s.metal, rep, paused);
    UpSettled(k, c, s.kube.deployments, s.metal, rep, paused);
    hide C.RunUp, UpRun, UpBook, AllKnown, Settled, NoReissue, RunsSeen, RunSettled;
    OthersSettled(s.kube.clusters, s.cruns, s.metal, o.metal, k, UpRun(c, o, s.metal));
  }

  lemma TeardownAccounted(s: Sys, k: Key, rep: C.Replies)
    requires Accounted(s) && RunsSeen(s.kube.clusters, s.cruns) && k in s.cruns && s.cruns[k].CCleared?
    ensures Accounted(ActClusterTeardown(s, k, rep))
  {
    var c := s.cruns[k].c;
    var o := C.Teardown(C.Begin(c, false), s.kube.deployments, s.metal, rep);
    TeardownNoReissue(C.Begin(c, false), s.kube.deployments, s.metal, rep);
    TeardownSettled(c, s.kube.deployments, s.metal, rep);
    hide C.Teardown, AllKnown, Settled, NoReissue, RunsSeen, RunSettled, C.Begin;
    OthersSettled(s.kube.clusters, s.cruns, s.metal, o.metal, k, CActed(c, o.obj, false, false));
  }

  lemma GuardAccounted(s: Sys, k: Key, rep: C.Replies)
    requires Accounted(s) && k in s.cruns && s.cruns[k].CLoaded?
    ensures Accounted(ActClusterGuard(s, k, rep))
  {
    GuardSettled(s.cruns[k].c, s.metal);
    hide C.Guard, C.Begin, MachinesOf, Known;
  }

  lemma ActAccounted(s: Sys, k: Key, rep: C.Replies, paused: bool)
    requires Inv(s) && Accounted(s)
    ensures Accounted(ActCluster(s, k, rep, paused))
  {
    RunsAreSeen(s);
    hide Inv, Accounted, RunsSeen, ActClusterUp, ActClusterGuard, ActClusterTeardown;
    if k in s.cruns && k in s.cbooks {
      if s.cruns[k].CCleared? {
        TeardownAccounted(s, k, rep);
      } else if s.cruns[k].CLoaded? {
        if paused || s.cruns[k].c.deletion.None? { UpAccounted(s, k, rep, paused); } else { GuardAccounted(s, k, rep); }
      }
    }
  }

  /** What a patch makes of the record. */
  lemma PatchedRecord(s: Sys, k: Key)
    requires Inv(s) && k in s.cruns && s.cruns[k].CActed?
    ensures k in s.kube.clusters && k in s.cbooks
    ensures var r, c := s.cruns[k], s.kube.clusters[k]; var c' := MergeCluster(c, r.before, r.after);
      && RunSeen(c, r) && r.before.finalizer == c.finalizer
      && c'.netId == r.after.netId && c'.cpIp == r.after.cpIp && c'.finalizer == r.after.finalizer
      && (c'.netId == c.netId || c'.netId.None? || r.newNet)
  {
    CS.RunFacts(s, k);
    hide Inv, Deserted, PlainCluster, Gated, ClusterBooked;
  }

  lemma PatchAccounted(s: Sys, k: Key, applied: bool)
    requires Inv(s) && Accounted(s)
    ensures Accounted(PatchCluster(s, k, applied))
  {
    if k in s.cruns && s.cruns[k].CActed? {
      PatchedRecord(s, k);
      assert RunSettled(s.cruns[k], s.metal) && Known(s.kube.clusters[k], s.metal);
      var c' := MergeCluster(s.kube.clusters[k], s.cruns[k].before, s.cruns[k].after);
      assert Known(c', s.metal);
      hide Inv, MergeCluster, AllKnown, Settled, RunSettled, Known, RunSeen;
      PatchedKnown(s.kube.clusters, s.cruns, s.metal, k, c');
    }
  }

  lemma PatchedKnown(cs: Clusters, runs: Runs, m: Metal, k: Key, c': Cluster)
    requires AllKnown(cs, m) && Settled(runs, m) && Known(c', m)
    ensures AllKnown(cs[k := c'], m) && Settled(runs - {k}, m)
  {}

  lemma ObjectAccounted(s: Sys, k: Key)
    requires Accounted(s)
    ensures Accounted(LoadCluster(s, k)) && Accounted(VanishCluster(s, k)) && Accounted(DeleteCluster(s, k))
  {
    LoadAccounted(s, k);
    DeleteAccounted(s, k);
    hide LoadCluster, DeleteCluster, Known, RunSettled;
  }

  lemma LoadAccounted(s: Sys, k: Key)
    requires Accounted(s)
    ensures Accounted(LoadCluster(s, k))
  {
    hide Known;
  }

  lemma DeleteAccounted(s: Sys, k: Key)
    requires Accounted(s)
    ensures Accounted(DeleteCluster(s, k))
  {
    hide RunSettled, MachinesOf;
  }

  lemma ReserveKnows(m: Metal, c: Cluster)
    ensures NoReissue(m, Reserve(m, c)) && Known(c, Reserve(m, c))
  {}

  lemma NewAccounted(s: Sys, k: Key, c: Cluster)
    requires Inv(s) && Accounted(s)
    ensures Accounted(CreateCluster(s, k, c))
  {
    RunsAreSeen(s);
    ReserveKnows(s.metal, c);
    hide Inv, Reserve, NoReissue, RunsSeen, Settled, Known, RunSettled;
    if CreateCluster(s, k, c) != s {
      SettledByMore(s.kube.clusters, s.cruns, s.metal, Reserve(s.metal, c));
    }
  }

  lemma SettledByMore(cs: Clusters, runs: Runs, m: Metal, m': Metal)
    requires AllKnown(cs, m) && Settled(runs, m) && NoReissue(m, m') && RunsSeen(cs, runs)
    ensures AllKnown(cs, m') && Settled(runs, m')
  {
    forall d | d in runs
      ensures RunSettled(runs[d], m')
    {
      SettledOn(cs[d], runs[d], m, m');
    }
  }

  lemma ClusterStepAccounted(s: Sys, step: Step)
    requires Inv(s) && Accounted(s) && OnClusters(step)
    ensures Accounted(Next(s, step))
  {
    hide Inv, Accounted, Next, LoadCluster, ActCluster, PatchCluster, VanishCluster, CreateCluster, DeleteCluster;
    UnfoldsCluster(s, step);
    match step
    case SLoadCluster(k) => ObjectAccounted(s, k);
    case SActCluster(k, rep, paused) => ActAccounted(s, k, rep, paused);
    case SPatchCluster(k, applied) => PatchAccounted(s, k, applied);
    case SVanishCluster(k) => ObjectAccounted(s, k);
    case SCreateCluster(k, c) => NewAccounted(s, k, c);
    case SDeleteCluster(k) => ObjectAccounted(s, k);
  }

  lemma NextAccounted(s: Sys, step: Step)
    requires Inv(s) && Accounted(s)
    ensures Accounted(Next(s, step))
  {
    hide Inv, Next, Accounted;
    if OnClusters(step) {
      ClusterStepAccounted(s, step);
    } else {
      ClusterFrame(s, step);
      MetalFrame(s, step);
      SameAccounted(s, Next(s, step));
    }
  }

  lemma SameAccounted(s: Sys, t: Sys)
    requires Accounted(s) && t.kube.clusters == s.kube.clusters && t.cruns == s.cruns
    requires t.metal == s.metal.(hosts := t.metal.hosts)
    ensures Accounted(t)
  {}

  // ------------------------------------------------------------------ conclusion

  lemma {:induction false} RunAccounted(states: seq<Sys>, steps: seq<Step>, i: nat)
    requires IsRun(states, steps) && i <= |steps|
    ensures Accounted(states[i])
  {
    hide Next, Inv;
    if i > 0 {
      hide Init, Accounted;
      RunAccounted(states, steps, i - 1);
      R.RunInv(states, steps, i - 1);
      NextAccounted(states[i - 1], steps[i - 1]);
    }
  }

  lemma ReachedAccounted(s: Sys)
    requires Reached(s)
    ensures Accounted(s)
  {
    hide Accounted, Next, Init;
    var states, steps :| IsRun(states, steps) && states[|steps|] == s;
    RunAccounted(states, steps, |steps|);
  }

  /** Nothing of what cluster `c` records is left with the provider, but a static
      address. */
  predicate NothingHeld(c: Cluster, m: Metal) {
    && (c.netId.Some? ==> c.netId.value !in m.nets && c.netId.value in m.spentNets)
    && (c.cpIp.Some? ==> AddressGone(c.cpIp.value, m) && c.cpIp.value in m.spentIps)
  }

  /** The finalizer of a cluster covers its network and its given address, whether the
      network was allocated or named by the user: the finalizer goes only by a patch,
      and at that moment the provider has neither of them. */
  lemma FinalizerCoversRecord(s: Sys, step: Step, k: Key)
    requires Reached(s) && k in s.kube.clusters && s.kube.clusters[k].finalizer
    requires var t := Next(s, step); k in t.kube.clusters ==> !t.kube.clusters[k].finalizer
    ensures step == SPatchCluster(k, true) && NothingHeld(s.kube.clusters[k], s.metal)
    ensures var t := Next(s, step);
      k in t.kube.clusters && t.kube.clusters[k].netId.None? && t.kube.clusters[k].cpIp.None? && t.metal == s.metal
  {
    hide Reached, Inv, Next, Accounted, NothingHeld;
    R.ReachedInv(s);
    ReachedAccounted(s);
    H.OnlyPatchDropsCluster(s, step, k);
    UnfoldsCluster(s, step);
    DropsSettled(s, k);
    hide PatchCluster;
  }

  lemma DropsSettled(s: Sys, k: Key)
    requires Inv(s) && Accounted(s) && k in s.kube.clusters && s.kube.clusters[k].finalizer
    requires k in PatchCluster(s, k, true).kube.clusters && !PatchCluster(s, k, true).kube.clusters[k].finalizer
    ensures NothingHeld(s.kube.clusters[k], s.metal)
    ensures var t := PatchCluster(s, k, true);
      t.kube.clusters[k].netId.None? && t.kube.clusters[k].cpIp.None? && t.metal == s.metal
  {
    hide Inv;
    assert k in s.cruns && s.cruns[k].CActed?;
    PatchedRecord(s, k);
    assert RunSettled(s.cruns[k], s.metal) && Known(s.kube.clusters[k], s.metal);
    hide MergeCluster;
  }

  /** What a patch drops of the record on the way there is gone as well, and a network
      that had been allocated is counted as given back. */
  lemma ClearedIsGivenBack(s: Sys, k: Key)
    requires Reached(s) && k in s.kube.clusters && k in PatchCluster(s, k, true).kube.clusters
    ensures var c, t := s.kube.clusters[k], PatchCluster(s, k, true); var c' := t.kube.clusters[k];
      && (c.netId.Some? && c'.netId != c.netId ==>
            c'.netId.None? && c.netId.value !in s.metal.nets && c.netId.value in s.metal.spentNets
            && k in s.cbooks && (s.cbooks[k].autoNet ==> t.cbooks[k].netCleared == s.cbooks[k].netCleared + 1))
      && (c.cpIp.Some? && c'.cpIp != c.cpIp ==>
            c'.cpIp.None? && AddressGone(c.cpIp.value, s.metal) && c.cpIp.value in s.metal.spentIps)
  {
    R.ReachedInv(s);
    ReachedAccounted(s);
    hide Reached;
    if k in s.cruns && s.cruns[k].CActed? {
      PatchedRecord(s, k);
      NewNetworkOnlyWithout(s, k);
      hide Inv, MergeCluster;
      assert RunSettled(s.cruns[k], s.metal) && Known(s.kube.clusters[k], s.metal);
    }
  }

  lemma NewNetworkOnlyWithout(s: Sys, k: Key)
    requires Inv(s) && k in s.cruns && s.cruns[k].CActed?
    ensures k in s.kube.clusters && (s.cruns[k].newNet ==> s.kube.clusters[k].netId.None?)
  {
    CS.RunFacts(s, k);
    hide Inv, Deserted, PlainCluster, Gated, ClusterBooked;
  }

  lemma NextNoReissue(s: Sys, step: Step)
    requires Inv(s)
    ensures NoReissue(s.metal, Next(s, step).metal)
  {
    if step.SActCluster? {
      hide Inv, ActCluster, NoReissue;
      ActNoReissue(s, step.k, step.crep, step.paused);
    } else {
      MetalFrame(s, step);
      hide Inv, Next;
    }
  }

  /** And it stays away: what is gone is not handed out again. */
  lemma {:induction false} GivenBackForGood(s: Sys, steps: seq<Step>, c: Cluster)
    requires Inv(s) && NothingHeld(c, s.metal)
    ensures Inv(Exec(s, steps)) && NothingHeld(c, Exec(s, steps).metal)
  {
    hide Inv, Next;
    if steps != [] {
      var t := Exec(s, steps[..|steps| - 1]);
      GivenBackForGood(s, steps[..|steps| - 1], c);
      R.NextInv(t, steps[|steps| - 1]);
      NextNoReissue(t, steps[|steps| - 1]);
    }
  }
}

/** The steps of the cluster controller and of cluster objects keep the
    invariant. */
module ClusterSteps {
  import opened Names
  import opened Store
  import opened Metal
  import opened Protocol
  import opened Invariant
  import opened Frames
  import D = DeploymentSteps
  import C = ClusterSpec

  type Runs = map<Key, ClusterRun>
  type Books = map<Key, ClusterBook>

  function NewNet(k: Key, runs: Runs): bool {
    k in runs && runs[k].CActed? && runs[k].newNet
  }

  function NewIp(k: Key, runs: Runs): bool {
    k in runs && runs[k].CActed? && runs[k].newIp
  }

  lemma DropRun(cs: Clusters, ms: Machines, ds: Deployments, runs: Runs, k: Key)
    requires ClusterRuns(cs, ms, ds, runs)
    ensures ClusterRuns(cs, ms, ds, runs - {k})
  {}

  lemma SetRun(cs: Clusters, ms: Machines, ds: Deployments, runs: Runs, k: Key, r: ClusterRun)
    requires ClusterRuns(cs, ms, ds, runs - {k}) && k in cs && ClusterRunOk(k, r, cs[k], ms, ds)
    ensures ClusterRuns(cs, ms, ds, runs[k := r])
  {}

  lemma SetBook(cs: Clusters, runs: Runs, books: Books, k: Key, r: ClusterRun, b: ClusterBook)
    requires ClusterBooks(cs, runs, books)
    requires k in cs && ClusterBooked(cs[k], b, r.CActed? && r.newNet, r.CActed? && r.newIp)
    ensures ClusterBooks(cs, runs[k := r], books[k := b])
  {}

  lemma DropBook(cs: Clusters, runs: Runs, books: Books, k: Key, b: ClusterBook)
    requires ClusterBooks(cs, runs, books) && k in cs && ClusterBooked(cs[k], b, false, false)
    ensures ClusterBooks(cs, runs - {k}, books[k := b])
  {}

  lemma RunFacts(s: Sys, k: Key)
    requires Inv(s) && k in s.cruns
    ensures k in s.kube.clusters && k in s.cbooks && PlainCluster(k, s.kube.clusters[k]) && Gated(s.kube.clusters[k])
    ensures ClusterRunOk(k, s.cruns[k], s.kube.clusters[k], s.kube.machines, s.kube.deployments)
    ensures ClusterBooked(s.kube.clusters[k], s.cbooks[k], NewNet(k, s.cruns), NewIp(k, s.cruns))
  {
    hide Covered, Held, MachineBooks, MachineRuns, DeploymentRuns, Homes, Owners;
  }

  lemma LoadClusterInv(s: Sys, k: Key)
    requires Inv(s)
    ensures Inv(LoadCluster(s, k))
  {
    hide Plain, Covered, Held, MachineBooks, MachineRuns, ClusterRuns, DeploymentRuns, Homes, Gates, Owners;
    if k in s.kube.clusters && k !in s.cruns {
      var r := CLoaded(s.kube.clusters[k]);
      DropRun(s.kube.clusters, s.kube.machines, s.kube.deployments, s.cruns, k);
      SetRun(s.kube.clusters, s.kube.machines, s.kube.deployments, s.cruns, k, r);
    }
  }

  // ------------------------------------------------------------- provisioning

  /** The books after an allocation that is recorded, or lost at once. */
  lemma SpentOnce(spent: set<string>, spent': set<string>, g: Grant)
    requires Spends(spent, spent', g)
    ensures |spent' - spent| == One(spent' != spent)
  {
    if spent' != spent {
      assert spent' - spent == {g.id};
    } else {
      assert spent' - spent == {};
    }
  }

  predicate Provisions(k: Key, c: Cluster, o: C.Outcome, m: Metal, rep: C.Replies) {
    && C.SameCluster(o.obj, c) && C.KeepsPlace(c.(finalizer := o.obj.finalizer), o.obj)
    && (c.finalizer ==> o.obj.finalizer)
    && o.metal.hosts == m.hosts
    && Spends(m.spentNets, o.metal.spentNets, rep.net) && Spends(m.spentIps, o.metal.spentIps, rep.ip)
    && (c.netId.None? && o.obj.netId.Some? ==> o.metal.spentNets != m.spentNets)
    && (o.metal.spentNets != m.spentNets ==> c.netId.None? && c.finalizer)
    && (o.metal.spentIps != m.spentIps ==> c.endpoint.host == "" && c.finalizer)
    && (o.obj.endpoint != c.endpoint && o.metal.spentIps != m.spentIps ==> o.obj.endpoint.host != "")
    && (o.obj.ready && !c.ready ==> o.obj.netId.Some? && o.obj.endpoint.host != "")
  }

  lemma RunUpProvisions(k: Key, c: Cluster, ds: Deployments, m: Metal, rep: C.Replies, paused: bool)
    requires paused || c.deletion.None?
    requires c.cpIp != Some("")
    ensures Provisions(k, c, C.RunUp(k, c, ds, m, rep, paused), m, rep)
    ensures var o := C.RunUp(k, c, ds, m, rep, paused);
      o.deployments == ds
      || (c.finalizer && c.fwRef.Some? && C.Adopt(k, ds, C.DeploymentKey(k, c), rep) == Some(o.deployments))
  {
    hide C.Reconcile, C.Adopt;
  }

  lemma AdoptionOwners(k: Key, fk: Key, cs: Clusters, ds: Deployments, ds': Deployments, rep: C.Replies)
    requires Owners(cs, ds) && C.Adopt(k, ds, fk, rep) == Some(ds') && OwnerOk(fk, k, cs)
    ensures Owners(cs, ds') && ds'.Keys == ds.Keys && GainsOnly(Some(k), ds, ds')
    ensures forall d | d in ds :: DeploymentKept(ds[d], ds'[d])
    ensures forall d | d in ds && ds[d].owner.Some? :: ds'[d] == ds[d]
  {}

  /** Adopting the referenced deployment keeps every part. */
  lemma Adoption(s: Sys, k: Key, c: Cluster, ds': Deployments, rep: C.Replies)
    requires Inv(s) && k in s.cruns && s.cruns[k] == CLoaded(c) && c.finalizer && c.fwRef.Some?
    requires C.Adopt(k, s.kube.deployments, C.DeploymentKey(k, c), rep) == Some(ds')
    ensures Plain(s.kube.clusters, ds', s.metal.hosts) && Owners(s.kube.clusters, ds')
    ensures Covered(s.kube.clusters, ds', s.metal.hosts)
    ensures ClusterRuns(s.kube.clusters, s.kube.machines, ds', s.cruns)
    ensures DeploymentRuns(s.kube.clusters, ds', s.metal.hosts, s.fruns)
  {
    RunFacts(s, k);
    hide Owners, Covered, Held, MachineBooks, ClusterBooks, MachineRuns, ClusterRuns, DeploymentRuns, Homes, Gates,
      C.Adopt;
    AdoptionOwners(k, C.DeploymentKey(k, c), s.kube.clusters, s.kube.deployments, ds', rep);
    hide GainsOnly;
    D.ByDeployments(s, ds', Some(k));
    D.RunsByDeployments(s.kube.clusters, s.kube.deployments, ds', s.metal.hosts, s.fruns);
  }

  /** The run and the book that provisioning leaves. */
  lemma UpKept(k: Key, c: Cluster, o: C.Outcome, m: Metal, rep: C.Replies, cc: Cluster, b: ClusterBook,
               ms: Machines, ds: Deployments)
    requires Provisions(k, c, o, m, rep) && ClusterBooked(cc, b, false, false) && StableCluster(cc, c)
    ensures var r := UpRun(c, o, m);
      ClusterRunOk(k, r, cc, ms, ds) && ClusterBooked(cc, UpBook(b, c, o, m), r.newNet, r.newIp)
  {
    SpentOnce(m.spentNets, o.metal.spentNets, rep.net);
    SpentOnce(m.spentIps, o.metal.spentIps, rep.ip);
  }

  lemma ActClusterUpInv(s: Sys, k: Key, rep: C.Replies, paused: bool)
    requires Inv(s) && k in s.cruns && s.cruns[k].CLoaded? && k in s.cbooks
    requires paused || s.cruns[k].c.deletion.None?
    ensures Inv(ActClusterUp(s, k, rep, paused))
  {
    RunFacts(s, k);
    hide Plain, Owners, Covered, Held, MachineBooks, ClusterBooks, MachineRuns, ClusterRuns, DeploymentRuns, Homes,
      Gates;
    hide C.RunUp, C.Adopt, ClusterBooked, UpBook;
    var c, cc := s.cruns[k].c, s.kube.clusters[k];
    var o := C.RunUp(k, c, s.kube.deployments, s.metal, rep, paused);
    RunUpProvisions(k, c, s.kube.deployments, s.metal, rep, paused);
    if o.deployments != s.kube.deployments {
      Adoption(s, k, c, o.deployments, rep);
    }
    UpKept(k, c, o, s.metal, rep, cc, s.cbooks[k], s.kube.machines, o.deployments);
    hide ClusterRunOk, StableCluster, Provisions;
    var r, b := UpRun(c, o, s.metal), UpBook(s.cbooks[k], c, o, s.metal);
    DropRun(s.kube.clusters, s.kube.machines, o.deployments, s.cruns, k);
    SetRun(s.kube.clusters, s.kube.machines, o.deployments, s.cruns, k, r);
    SetBook(s.kube.clusters, s.cruns, s.cbooks, k, r, b);
  }

  // --------------------------------------------------- guard and teardown

  /** The guard lets through only when no machine object and no deployment of the
      cluster is left. */
  lemma ClearMeansDeserted(s: Sys, k: Key, c: Cluster, rep: C.Replies)
    requires Homes(s.kube.clusters, s.kube.machines, s.mbooks) && Owners(s.kube.clusters, s.kube.deployments)
    requires k in s.kube.clusters && StableCluster(s.kube.clusters[k], c)
    requires C.Guard(k, C.Begin(c, false), MachinesOf(s.kube, k) != {}, s.kube.deployments, rep, s.now).1.Clear?
    ensures Deserted(k, s.kube.machines, s.kube.deployments) && c.finalizer
  {
    forall u | u in s.kube.machines
      ensures s.kube.machines[u].cluster != k
    {
      assert u !in MachinesOf(s.kube, k);
    }
    forall d | d in s.kube.deployments
      ensures s.kube.deployments[d].owner != Some(k)
    {
      assert s.kube.deployments[d].owner == Some(k) ==> d == C.DeploymentKey(k, C.Begin(c, false));
    }
  }

  /** Requesting the deletion of a deployment keeps every part. */
  lemma DeletionRequest(s: Sys, fk: Key)
    requires Inv(s) && fk in s.kube.deployments && s.kube.deployments[fk].deletion.None?
    ensures Inv(s.(kube := s.kube.(deployments :=
      s.kube.deployments[fk := s.kube.deployments[fk].(deletion := Some(s.now))])))
  {
    D.DeleteDeploymentInv(s, fk);
    hide Inv;
  }

  lemma ChangeRun(s: Sys, k: Key, r: ClusterRun)
    requires Inv(s) && k in s.cruns && !s.cruns[k].CActed? && k in s.kube.clusters
    requires !(r.CActed? && (r.newNet || r.newIp))
    requires ClusterRunOk(k, r, s.kube.clusters[k], s.kube.machines, s.kube.deployments)
    ensures Inv(s.(cruns := s.cruns[k := r])) && Inv(s.(cruns := s.cruns - {k}))
  {
    ChangedRuns(s, k, r);
    hide Plain, Owners, Covered, Held, MachineBooks, ClusterBooks, MachineRuns, ClusterRuns, DeploymentRuns, Homes,
      Gates;
  }

  lemma ChangedRuns(s: Sys, k: Key, r: ClusterRun)
    requires Inv(s) && k in s.cruns && !s.cruns[k].CActed? && k in s.kube.clusters
    requires !(r.CActed? && (r.newNet || r.newIp))
    requires ClusterRunOk(k, r, s.kube.clusters[k], s.kube.machines, s.kube.deployments)
    ensures ClusterRuns(s.kube.clusters, s.kube.machines, s.kube.deployments, s.cruns[k := r])
    ensures ClusterRuns(s.kube.clusters, s.kube.machines, s.kube.deployments, s.cruns - {k})
    ensures ClusterBooks(s.kube.clusters, s.cruns[k := r], s.cbooks)
    ensures ClusterBooks(s.kube.clusters, s.cruns - {k}, s.cbooks)
  {
    hide Plain, Owners, Covered, Held, MachineBooks, ClusterBooks, MachineRuns, ClusterRuns, DeploymentRuns, Homes,
      Gates, ClusterRunOk;
    DropRun(s.kube.clusters, s.kube.machines, s.kube.deployments, s.cruns, k);
    SetRun(s.kube.clusters, s.kube.machines, s.kube.deployments, s.cruns, k, r);
    SameBook(s.kube.clusters, s.cruns, s.cbooks, k, r);
  }

  /** A run with nothing to record is replaced by another one, or ends. */
  lemma SameBook(cs: Clusters, runs: Runs, books: Books, k: Key, r: ClusterRun)
    requires ClusterBooks(cs, runs, books) && !NewNet(k, runs) && !NewIp(k, runs)
    requires !(r.CActed? && (r.newNet || r.newIp))
    ensures ClusterBooks(cs, runs[k := r], books) && ClusterBooks(cs, runs - {k}, books)
  {}

  /** The guard's effect on the store: none, or one deletion request. */
  predicate Requests(ds: Deployments, ds': Deployments, now: Time) {
    || ds' == ds
    || exists fk :: fk in ds && ds[fk].deletion.None? && ds' == ds[fk := ds[fk].(deletion := Some(now))]
  }

  /** A run that only marks the object as not paused leaves nothing to account for. */
  lemma BeginOk(k: Key, c: Cluster, cc: Cluster, ms: Machines, ds: Deployments)
    requires StableCluster(cc, c)
    ensures ClusterRunOk(k, CActed(c, C.Begin(c, false), false, false), cc, ms, ds)
  {}

  lemma RequestInv(s: Sys, ds': Deployments)
    requires Inv(s) && Requests(s.kube.deployments, ds', s.now)
    ensures Inv(s.(kube := s.kube.(deployments := ds')))
  {
    hide Inv;
    if ds' != s.kube.deployments {
      var fk :| fk in s.kube.deployments && s.kube.deployments[fk].deletion.None?
             && ds' == s.kube.deployments[fk := s.kube.deployments[fk].(deletion := Some(s.now))];
      DeletionRequest(s, fk);
    }
  }

  lemma GuardStops(s: Sys, k: Key, c: Cluster, ds': Deployments)
    requires Inv(s) && k in s.cruns && s.cruns[k] == CLoaded(c) && Requests(s.kube.deployments, ds', s.now)
    ensures var s1 := s.(kube := s.kube.(deployments := ds'));
      && Inv(s1.(cruns := s.cruns - {k}))
      && Inv(s1.(cruns := s.cruns[k := CActed(c, C.Begin(c, false), false, false)]))
  {
    RunFacts(s, k);
    hide Inv, ClusterBooked, Gated, PlainCluster, Requests;
    BeginOk(k, c, s.kube.clusters[k], s.kube.machines, ds');
    hide StableCluster, ClusterRunOk, C.Begin;
    RequestInv(s, ds');
    ChangeRun(s.(kube := s.kube.(deployments := ds')), k, CActed(c, C.Begin(c, false), false, false));
  }

  lemma ActClusterGuardInv(s: Sys, k: Key, rep: C.Replies)
    requires Inv(s) && k in s.cruns && s.cruns[k].CLoaded? && s.cruns[k].c.deletion.Some?
    ensures Inv(ActClusterGuard(s, k, rep))
  {
    RunFacts(s, k);
    var c := s.cruns[k].c;
    hide C.Guard, MachinesOf, ClusterBooked;
    var (deps, v) := C.Guard(k, C.Begin(c, false), MachinesOf(s.kube, k) != {}, s.kube.deployments, rep, s.now);
    if v.Clear? {
      ClearMeansDeserted(s, k, c, rep);
      hide Inv;
      ChangeRun(s, k, CCleared(c));
    } else {
      hide Inv, C.Begin, C.DeploymentKey;
      assert Requests(s.kube.deployments, deps, s.now);
      GuardStops(s, k, c, deps);
    }
  }

  lemma ActClusterTeardownInv(s: Sys, k: Key, rep: C.Replies)
    requires Inv(s) && k in s.cruns && s.cruns[k].CCleared?
    ensures Inv(ActClusterTeardown(s, k, rep))
  {
    RunFacts(s, k);
    var c := s.cruns[k].c;
    var o := C.Teardown(C.Begin(c, false), s.kube.deployments, s.metal, rep);
    hide Inv, C.Teardown, ClusterBooked;
    var r := CActed(c, o.obj, false, false);
    ChangeRun(s, k, r);
    SameHostsInv(s.(cruns := s.cruns[k := r]), o.metal);
  }

  /** The invariant does not speak of networks and addresses of the provider. */
  lemma SameHostsInv(s: Sys, m: Metal)
    requires Inv(s) && m.hosts == s.metal.hosts
    ensures Inv(s.(metal := m))
  {
    hide Plain, Owners, Covered, Held, MachineBooks, ClusterBooks, MachineRuns, ClusterRuns, DeploymentRuns, Homes,
      Gates;
  }

  lemma ActClusterInv(s: Sys, k: Key, rep: C.Replies, paused: bool)
    requires Inv(s)
    ensures Inv(ActCluster(s, k, rep, paused))
  {
    hide Inv, ActClusterUp, ActClusterGuard, ActClusterTeardown;
    if k !in s.cruns || k !in s.cbooks || s.cruns[k].CActed? {
    } else if s.cruns[k].CCleared? {
      ActClusterTeardownInv(s, k, rep);
    } else if paused || s.cruns[k].c.deletion.None? {
      ActClusterUpInv(s, k, rep, paused);
    } else {
      ActClusterGuardInv(s, k, rep);
    }
  }

  // ----------------------------------------------------- cluster objects change

  /** A cluster nothing belongs to may vanish; a kept one keeps its place. */
  lemma PatchedCluster(k: Key, r: ClusterRun, c: Cluster, ms: Machines, ds: Deployments)
    requires r.CActed? && ClusterRunOk(k, r, c, ms, ds) && PlainCluster(k, c) && Gated(c)
    ensures var c' := MergeCluster(c, r.before, r.after);
      && PlainCluster(k, c') && Gated(c')
      && (Deserted(k, ms, ds) || ClusterKept(c, c'))
      && (c'.netId.None? ==> c.netId.None? || Deserted(k, ms, ds))
      && (r.newNet ==> c'.netId.Some? && c.netId.None?)
      && (r.newIp ==> c'.endpoint.host != "" && c.endpoint.host == "")
      && (c.endpoint.host != "" ==> c'.endpoint.host != "")
  {}

  lemma OneCluster(s: Sys, k: Key, c': Cluster)
    requires Inv(s) && PlainCluster(k, c') && Gated(c')
    requires k in s.kube.clusters ==>
      Deserted(k, s.kube.machines, s.kube.deployments) || ClusterKept(s.kube.clusters[k], c')
    ensures ClustersEvolve(s.kube.clusters, s.kube.clusters[k := c'], s.kube.machines, s.kube.deployments)
  {
    hide Owners, Covered, Held, MachineBooks, ClusterBooks, MachineRuns, ClusterRuns, DeploymentRuns, Homes, Deserted,
      ClusterKept;
    assert forall d | d in s.kube.clusters :: ClusterKept(s.kube.clusters[d], s.kube.clusters[d]) by {
      EveryClusterKeepsItself();
    }
  }

  lemma EveryClusterKeepsItself()
    ensures forall c :: ClusterKept(c, c)
  {}

  lemma WithoutRun(cs: Clusters, ms: Machines, ds: Deployments, runs: Runs, k: Key, c': Cluster)
    requires ClusterRuns(cs, ms, ds, runs)
    ensures ClusterRuns(cs[k := c'], ms, ds, runs - {k})
    ensures ClusterRuns(cs - {k}, ms, ds, runs - {k})
  {}

  lemma WithBook(cs: Clusters, runs: Runs, books: Books, k: Key, c': Cluster, b: ClusterBook)
    requires ClusterBooks(cs, runs, books) && ClusterBooked(c', b, false, false)
    ensures ClusterBooks(cs[k := c'], runs - {k}, books[k := b])
  {}

  lemma PatchClusterApplied(s: Sys, k: Key)
    requires Inv(s) && k in s.cruns && s.cruns[k].CActed?
    ensures Inv(PatchCluster(s, k, true))
  {
    RunFacts(s, k);
    var r, c := s.cruns[k], s.kube.clusters[k];
    PatchedCluster(k, r, c, s.kube.machines, s.kube.deployments);
    hide Plain, Owners, Covered, Held, MachineBooks, ClusterBooks, MachineRuns, ClusterRuns, DeploymentRuns, Homes,
      Gates;
    hide MergeCluster, ClusterRunOk, PlainCluster, Gated, Deserted, ClusterKept;
    var c' := MergeCluster(c, r.before, r.after);
    OneCluster(s, k, c');
    ByClusters(s, s.kube.clusters[k := c']);
    WithoutRun(s.kube.clusters, s.kube.machines, s.kube.deployments, s.cruns, k, c');
    var s' := PatchCluster(s, k, true);
    WithBook(s.kube.clusters, s.cruns, s.cbooks, k, c', s'.cbooks[k]);
  }

  lemma PatchClusterLost(s: Sys, k: Key)
    requires Inv(s) && k in s.cruns && s.cruns[k].CActed?
    ensures Inv(PatchCluster(s, k, false))
  {
    RunFacts(s, k);
    hide Plain, Owners, Covered, Held, MachineBooks, ClusterBooks, MachineRuns, ClusterRuns, DeploymentRuns, Homes,
      Gates;
    hide MergeCluster, ClusterRunOk, PlainCluster, Gated;
    DropRun(s.kube.clusters, s.kube.machines, s.kube.deployments, s.cruns, k);
    DropBook(s.kube.clusters, s.cruns, s.cbooks, k, PatchCluster(s, k, false).cbooks[k]);
  }

  lemma PatchClusterInv(s: Sys, k: Key, applied: bool)
    requires Inv(s)
    ensures Inv(PatchCluster(s, k, applied))
  {
    hide Inv;
    if k in s.cruns && s.cruns[k].CActed? && k in s.kube.clusters && k in s.cbooks {
      if applied { PatchClusterApplied(s, k); } else { PatchClusterLost(s, k); }
    }
  }

  /** A cluster without finalizer that is being deleted has nothing left. */
  lemma VanishingIsDeserted(s: Sys, k: Key)
    requires Inv(s) && k in s.kube.clusters && !Staying(s.kube.clusters[k])
    ensures Deserted(k, s.kube.machines, s.kube.deployments)
  {
    hide Plain, Covered, Held, MachineBooks, ClusterBooks, MachineRuns, ClusterRuns, DeploymentRuns, Gates;
  }

  lemma WithoutCluster(s: Sys, k: Key)
    requires Inv(s) && k in s.kube.clusters && Deserted(k, s.kube.machines, s.kube.deployments)
    ensures ClustersEvolve(s.kube.clusters, s.kube.clusters - {k}, s.kube.machines, s.kube.deployments)
  {
    hide Owners, Covered, Held, MachineBooks, ClusterBooks, MachineRuns, ClusterRuns, DeploymentRuns, Homes, Deserted,
      ClusterKept;
    EveryClusterKeepsItself();
  }

  lemma VanishClusterInv(s: Sys, k: Key)
    requires Inv(s)
    ensures Inv(VanishCluster(s, k))
  {
    hide Plain, Owners, Covered, Held, MachineBooks, ClusterBooks, MachineRuns, ClusterRuns, DeploymentRuns, Homes,
      Gates;
    hide ClustersEvolve, Deserted;
    if k in s.kube.clusters && s.kube.clusters[k].deletion.Some? && !s.kube.clusters[k].finalizer {
      VanishingIsDeserted(s, k);
      WithoutCluster(s, k);
      ByClusters(s, s.kube.clusters - {k});
      WithoutRun(s.kube.clusters, s.kube.machines, s.kube.deployments, s.cruns, k, s.kube.clusters[k]);
      if k in s.cruns { IdleWithoutFinalizer(s, k); }
      BookGone(s.kube.clusters, s.cruns, s.cbooks, k);
    }
  }

  lemma IdleWithoutFinalizer(s: Sys, k: Key)
    requires Inv(s) && k in s.cruns && k in s.kube.clusters && !s.kube.clusters[k].finalizer
    ensures !NewNet(k, s.cruns) && !NewIp(k, s.cruns)
  {
    RunFacts(s, k);
    hide Inv, Deserted, ClusterBooked, PlainCluster, Gated;
  }

  /** A cluster that goes has no network left, so its book can be closed. */
  lemma BookGone(cs: Clusters, runs: Runs, books: Books, k: Key)
    requires ClusterBooks(cs, runs, books) && k in cs && !cs[k].finalizer
    requires !NewNet(k, runs) && !NewIp(k, runs)
    ensures k in books && ClusterBooks(cs - {k}, runs - {k}, books[k := CloseBook(books[k])])
  {}

  lemma CreateClusterInv(s: Sys, k: Key, c: Cluster)
    requires Inv(s)
    ensures Inv(CreateCluster(s, k, c))
  {
    if CreateCluster(s, k, c) == s {
      assert Inv(s);
    } else {
      var b := if k in s.cbooks then s.cbooks[k] else BLANK;
      AddCluster(s, k, c);
      hide Inv;
      var s1 := s.(kube := s.kube.(clusters := s.kube.clusters[k := c]), cbooks := s.cbooks[k := b]);
      SameHostsInv(s1, Reserve(s.metal, c));
    }
  }

  lemma AddCluster(s: Sys, k: Key, c: Cluster)
    requires Inv(s) && CreateCluster(s, k, c) != s
    ensures Inv(s.(kube := s.kube.(clusters := s.kube.clusters[k := c]),
                   cbooks := s.cbooks[k := if k in s.cbooks then s.cbooks[k] else BLANK]))
  {
    hide Plain, Owners, Covered, Held, MachineBooks, ClusterBooks, MachineRuns, ClusterRuns, DeploymentRuns, Homes,
      Gates;
    hide Reserve;
    BookReopened(s, k, c);
    OneCluster(s, k, c);
    ByClusters(s, s.kube.clusters[k := c]);
    assert k !in s.cruns by { RunsHaveClusters(s); }
    WithoutRun(s.kube.clusters, s.kube.machines, s.kube.deployments, s.cruns, k, c);
    WithBook(s.kube.clusters, s.cruns, s.cbooks, k, c, if k in s.cbooks then s.cbooks[k] else BLANK);
    assert s.cruns - {k} == s.cruns;
  }

  lemma BookReopened(s: Sys, k: Key, c: Cluster)
    requires Inv(s) && k !in s.kube.clusters
    ensures ClusterBooked(c, if k in s.cbooks then s.cbooks[k] else BLANK, false, false)
  {
    hide Plain, Owners, Covered, Held, MachineBooks, MachineRuns, ClusterRuns, DeploymentRuns, Homes, Gates;
  }

  lemma RunsHaveClusters(s: Sys)
    requires Inv(s)
    ensures s.cruns.Keys <= s.kube.clusters.Keys
  {
    hide Plain, Owners, Covered, Held, MachineBooks, ClusterBooks, MachineRuns, DeploymentRuns, Homes, Gates;
  }

  lemma DeletedRuns(cs: Clusters, ms: Machines, ds: Deployments, runs: Runs, k: Key, now: Time)
    requires ClusterRuns(cs, ms, ds, runs) && k in cs && cs[k].deletion.None?
    ensures ClusterRuns(cs[k := cs[k].(deletion := Some(now))], ms, ds, runs)
  {}

  lemma DeletedBooks(cs: Clusters, runs: Runs, books: Books, k: Key, now: Time)
    requires ClusterBooks(cs, runs, books) && k in cs
    ensures ClusterBooks(cs[k := cs[k].(deletion := Some(now))], runs, books)
  {}

  lemma DeleteClusterInv(s: Sys, k: Key)
    requires Inv(s)
    ensures Inv(DeleteCluster(s, k))
  {
    if DeleteCluster(s, k) != s {
      var c' := s.kube.clusters[k].(deletion := Some(s.now));
      assert PlainCluster(k, c') && Gated(c') by {
        hide Owners, Covered, Held, MachineBooks, ClusterBooks, MachineRuns, ClusterRuns, DeploymentRuns, Homes;
      }
      if !s.kube.clusters[k].finalizer {
        UnownedIsDeserted(s, k);
      }
      hide Plain, Owners, Covered, Held, MachineBooks, ClusterBooks, MachineRuns, ClusterRuns, DeploymentRuns, Homes,
        Gates;
      hide PlainCluster, Gated, Deserted;
      OneCluster(s, k, c');
      ByClusters(s, s.kube.clusters[k := c']);
      DeletedRuns(s.kube.clusters, s.kube.machines, s.kube.deployments, s.cruns, k, s.now);
      DeletedBooks(s.kube.clusters, s.cruns, s.cbooks, k, s.now);
    }
  }

  lemma UnownedIsDeserted(s: Sys, k: Key)
    requires Inv(s) && k in s.kube.clusters && !s.kube.clusters[k].finalizer && MachinesOf(s.kube, k) == {}
    ensures Deserted(k, s.kube.machines, s.kube.deployments)
  {
    hide Plain, Covered, Held, MachineBooks, ClusterBooks, MachineRuns, ClusterRuns, DeploymentRuns, Gates, Homes;
    forall u | u in s.kube.machines
      ensures s.kube.machines[u].cluster != k
    {
      assert u !in MachinesOf(s.kube, k);
    }
  }
}

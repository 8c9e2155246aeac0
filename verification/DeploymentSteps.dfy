/** The steps of the firewall deployment controller and of firewall deployment
    objects keep the invariant. */
module DeploymentSteps {
  import opened Names
  import opened Store
  import opened Metal
  import opened Protocol
  import opened Invariant
  import opened Frames
  import F = FirewallSpec

  type Runs = map<Key, DeploymentRun>

  lemma DropRun(cs: Clusters, ds: Deployments, hs: Hosts, runs: Runs, k: Key)
    requires DeploymentRuns(cs, ds, hs, runs)
    ensures DeploymentRuns(cs, ds, hs, runs - {k})
  {}

  lemma SetRun(cs: Clusters, ds: Deployments, hs: Hosts, runs: Runs, k: Key, r: DeploymentRun)
    requires DeploymentRuns(cs, ds, hs, runs - {k}) && k in ds && DeploymentRunOk(k, r, ds[k], cs, hs)
    ensures DeploymentRuns(cs, ds, hs, runs[k := r])
  {}

  lemma LoadDeploymentInv(s: Sys, k: Key)
    requires Inv(s)
    ensures Inv(LoadDeployment(s, k))
  {
    hide Plain, Covered, Held, MachineBooks, ClusterBooks, MachineRuns, ClusterRuns, DeploymentRuns, Homes, Gates,
      Owners;
    var ds, cs := s.kube.deployments, s.kube.clusters;
    if k in ds && ds[k].owner.Some? && ds[k].owner.value in cs && F.TemplateKey(k, ds[k]) in s.kube.templates {
      var ck := ds[k].owner.value;
      var r := FLoaded(ds[k], ck, cs[ck], s.kube.templates[F.TemplateKey(k, ds[k])]);
      DropRun(cs, ds, s.metal.hosts, s.fruns, k);
      SetRun(cs, ds, s.metal.hosts, s.fruns, k, r);
    }
  }

  // ---------------------------------------------------------------- acting

  /** What a run of the firewall deployment controller starts from. */
  predicate Starts(s: Sys, k: Key, d: Deployment, ck: Key, c: Cluster) {
    && k in s.kube.deployments && StableDeployment(s.kube.deployments[k], d) && d.owner == Some(ck)
    && ck in s.kube.clusters && ClusterSeen(s.kube.clusters[ck], c)
    && Lacks(c.partition, '/') && DnsLabel(k.ns) && DnsLabel(ck.ns)
  }

  lemma RunStarts(s: Sys, k: Key)
    requires Inv(s) && k in s.fruns && !s.fruns[k].FActed?
    ensures Starts(s, k, s.fruns[k].d, s.fruns[k].ck, s.fruns[k].c)
    ensures s.fruns[k].FCleared? ==> s.fruns[k].d.finalizer && s.fruns[k].d.deletion.Some?
  {
    hide Homes, Owners, Covered, Held, MachineBooks, ClusterBooks, MachineRuns, ClusterRuns, Gates;
  }

  /** The firewalls a deletion finds are all there are of the deployment, and
      they are all its own. */
  lemma SearchIsExact(s: Sys, k: Key, d: Deployment, ck: Key, c: Cluster, id: string)
    requires Plain(s.kube.clusters, s.kube.deployments, s.metal.hosts)
    requires Covered(s.kube.clusters, s.kube.deployments, s.metal.hosts)
    requires Starts(s, k, d, ck, c) && c.netId.Some? && id in s.metal.hosts
    ensures id in Matching(s.metal, c.partition, c.project, FirewallTags(c.netId.value, ck, k))
       <==> s.metal.hosts[id].origin.ByDeployment? && s.metal.hosts[id].origin.deployment == k
  {
    var h := s.metal.hosts[id];
    assert HostCovered(h, s.kube.clusters, s.kube.deployments);
    var tags := FirewallTags(c.netId.value, ck, k);
    match h.origin
    case ByDeployment(ck', k', n') =>
      FirewallTagsIsolate(n', ck', k', c.netId.value, ck, k);
    case ByMachine(_) =>
    case Foreign =>
      assert tags[3].key == DeploymentResource && tags[3] !in h.tags;
  }

  /** A deletion that drops the finalizer leaves no firewall of the deployment. */
  lemma DeletionReclaims(s: Sys, k: Key, d: Deployment, ck: Key, c: Cluster, order: seq<string>, frees: seq<Release>)
    requires Plain(s.kube.clusters, s.kube.deployments, s.metal.hosts)
    requires Covered(s.kube.clusters, s.kube.deployments, s.metal.hosts)
    requires Starts(s, k, d, ck, c) && c.netId.Some?
    requires Lists(order, Matching(s.metal, c.partition, c.project, FirewallTags(c.netId.value, ck, k)))
    ensures FewerHosts(s.metal.hosts, F.FreeFirst(s.metal, order, frees, |order|).hosts)
    ensures F.FreeFirst(s.metal, order, frees, |order|)
         == s.metal.(hosts := F.FreeFirst(s.metal, order, frees, |order|).hosts)
    ensures F.ErrorsFirst(s.metal, order, frees, |order|) == [] ==>
      NoFirewallsOf(k, F.FreeFirst(s.metal, order, frees, |order|).hosts)
  {
    F.LoopFrees(s.metal, order, frees, |order|);
    if F.ErrorsFirst(s.metal, order, frees, |order|) == [] {
      F.NoErrorsFreeAll(s.metal, order, frees);
      var hs' := F.FreeFirst(s.metal, order, frees, |order|).hosts;
      forall id | id in hs' && hs'[id].origin.ByDeployment?
        ensures hs'[id].origin.deployment != k
      {
        SearchIsExact(s, k, d, ck, c, id);
      }
    }
  }

  lemma RecordFewer(s: Sys, s': Sys, k: Key, r: DeploymentRun)
    requires Inv(s) && k in s.kube.deployments
    requires s' == s.(kube := s.kube.(templates := s'.kube.templates), metal := s'.metal, fruns := s.fruns[k := r])
    requires s'.metal == s.metal.(hosts := s'.metal.hosts) && FewerHosts(s.metal.hosts, s'.metal.hosts)
    requires DeploymentRunOk(k, r, s.kube.deployments[k], s.kube.clusters, s'.metal.hosts)
    ensures Inv(s')
  {
    hide Plain, Covered, Held, MachineBooks, ClusterBooks, MachineRuns, ClusterRuns, DeploymentRuns, Homes, Gates,
      Owners;
    hide DeploymentRunOk, FewerHosts;
    ByFewerHosts(s, s'.metal.hosts);
    DropRun(s.kube.clusters, s.kube.deployments, s'.metal.hosts, s.fruns, k);
    SetRun(s.kube.clusters, s.kube.deployments, s'.metal.hosts, s.fruns, k, r);
  }

  lemma CoveredByFirewall(cs: Clusters, ds: Deployments, hs: Hosts, id: string, h: Host)
    requires Covered(cs, ds, hs) && HostCovered(h, cs, ds)
    ensures Covered(cs, ds, hs[id := h])
  {}

  lemma HeldByOther(cs: Clusters, ms: Machines, hs: Hosts, runs: map<nat, MachineRun>, books: map<nat, MachineBook>,
                    id: string, h: Host)
    requires Held(cs, ms, hs, runs, books) && !h.origin.ByMachine?
    ensures Held(cs, ms, hs[id := h], runs, books)
  {}

  lemma RecordMore(s: Sys, s': Sys, k: Key, r: DeploymentRun, id: string, h: Host)
    requires Inv(s) && k in s.kube.deployments && id !in s.metal.hosts
    requires s' == s.(kube := s.kube.(templates := s'.kube.templates), metal := s'.metal, fruns := s.fruns[k := r])
    requires s'.metal == s.metal.(hosts := s.metal.hosts[id := h])
    requires h.origin.ByDeployment? && h.origin.deployment == k && Lacks(Deref(h.partition), '/')
    requires HostCovered(h, s.kube.clusters, s.kube.deployments)
    requires DeploymentRunOk(k, r, s.kube.deployments[k], s.kube.clusters, s'.metal.hosts)
    ensures Inv(s')
  {
    hide Covered, Held, MachineBooks, ClusterBooks, MachineRuns, ClusterRuns, DeploymentRuns, Homes, Gates, Owners;
    hide DeploymentRunOk, HostCovered;
    CoveredByFirewall(s.kube.clusters, s.kube.deployments, s.metal.hosts, id, h);
    HeldByOther(s.kube.clusters, s.kube.machines, s.metal.hosts, s.mruns, s.mbooks, id, h);
    MachineRunsByMore(s.kube.clusters, s.kube.machines, s.metal.hosts, id, h, s.mruns, s.mbooks, s.now);
    DropRun(s.kube.clusters, s.kube.deployments, s.metal.hosts, s.fruns, k);
    DeploymentRunsByMore(s.kube.clusters, s.kube.deployments, s.metal.hosts, id, h, s.fruns - {k});
    SetRun(s.kube.clusters, s.kube.deployments, s'.metal.hosts, s.fruns, k, r);
  }

  /** A new firewall is covered by the deployment that has just asked for it. */
  lemma NewFirewallCovered(s: Sys, k: Key, d: Deployment, ck: Key, c: Cluster, t: Template, report: Report)
    requires Starts(s, k, d, ck, c) && d.finalizer && c.netId.Some? && t.rules.Some?
    ensures HostCovered(F.FirewallHost(k, ck, c, c.netId.value, t, report), s.kube.clusters, s.kube.deployments)
  {}

  lemma ActUpInv(s: Sys, k: Key, rep: F.Replies, paused: bool)
    requires Inv(s) && k in s.fruns && s.fruns[k].FLoaded? && (paused || s.fruns[k].d.deletion.None?)
    ensures Inv(ActDeploymentUp(s, k, rep, paused))
  {
    RunStarts(s, k);
    hide Inv, F.RunUp, F.FirewallHost;
    var r, s' := s.fruns[k], ActDeploymentUp(s, k, rep, paused);
    var o := F.RunUp(k, r.d, r.ck, r.c, r.t, s.kube.templates, s.metal, rep, paused);
    if o.metal != s.metal {
      var h := F.FirewallHost(k, r.ck, r.c, r.c.netId.value, r.t, rep.report);
      NewFirewallCovered(s, k, r.d, r.ck, r.c, r.t, rep.report);
      FirewallIs(k, r.ck, r.c, r.c.netId.value, r.t, rep.report);
      RecordMore(s, s', k, FActed(r.d, o.obj), rep.alloc.id, h);
    } else {
      RecordFewer(s, s', k, FActed(r.d, o.obj));
    }
  }

  lemma FirewallIs(k: Key, ck: Key, c: Cluster, net: string, t: Template, report: Report)
    requires t.rules.Some? && Lacks(c.partition, '/')
    ensures var h := F.FirewallHost(k, ck, c, net, t, report);
      h.origin.ByDeployment? && h.origin.deployment == k && Lacks(Deref(h.partition), '/')
  {}

  lemma ActGuardInv(s: Sys, k: Key, rep: F.Replies)
    requires Inv(s) && k in s.fruns && s.fruns[k].FLoaded? && s.fruns[k].d.deletion.Some?
    ensures Inv(ActDeploymentGuard(s, k, rep))
  {
    RunStarts(s, k);
    hide Inv, MachinesOf, DnsLabel, Lacks;
    var r, s' := s.fruns[k], ActDeploymentGuard(s, k, rep);
    RecordFewer(s, s', k, s'.fruns[k]);
  }

  lemma ActReclaimInv(s: Sys, k: Key, rep: F.Replies)
    requires Inv(s) && k in s.fruns && s.fruns[k].FCleared?
    ensures Inv(ActDeploymentReclaim(s, k, rep))
  {
    RunStarts(s, k);
    var r, s' := s.fruns[k], ActDeploymentReclaim(s, k, rep);
    var d := F.Begin(r.d, false);
    var o := F.Reclaim(k, d, r.ck, r.c, s.kube.templates, s.metal, rep);
    hide F.Reclaim, Covered, Plain, Held, MachineBooks, ClusterBooks, MachineRuns, ClusterRuns, DeploymentRuns, Homes,
      Gates, Owners;
    if o.metal != s.metal || !o.obj.finalizer {
      DeletionReclaims(s, k, r.d, r.ck, r.c, rep.search.value, rep.frees);
    }
    if o.panicked {
      DropRun(s.kube.clusters, s.kube.deployments, s.metal.hosts, s.fruns, k);
    } else {
      RecordFewer(s, s', k, FActed(r.d, o.obj));
    }
  }

  lemma ActDeploymentInv(s: Sys, k: Key, rep: F.Replies, paused: bool)
    requires Inv(s)
    ensures Inv(ActDeployment(s, k, rep, paused))
  {
    hide Inv, ActDeploymentUp, ActDeploymentGuard, ActDeploymentReclaim;
    if k in s.fruns && !s.fruns[k].FActed? {
      if s.fruns[k].FCleared? {
        ActReclaimInv(s, k, rep);
      } else if paused || s.fruns[k].d.deletion.None? {
        ActUpInv(s, k, rep, paused);
      } else {
        ActGuardInv(s, k, rep);
      }
    }
  }

  /** A run takes hosts away or adds one firewall, and touches nothing else of
      the provider. */
  predicate Reshapes(k: Key, m: Metal, m': Metal, g: Grant) {
    && m' == m.(hosts := m'.hosts)
    && (FewerHosts(m.hosts, m'.hosts)
        || (&& !g.Denied? && g.id !in m.hosts && g.id in m'.hosts && m'.hosts == m.hosts[g.id := m'.hosts[g.id]]
            && m'.hosts[g.id].origin.ByDeployment? && m'.hosts[g.id].origin.deployment == k))
  }

  lemma ReclaimReshapes(s: Sys, k: Key, d: Deployment, ck: Key, c: Cluster, rep: F.Replies)
    requires Inv(s) && Starts(s, k, d, ck, c)
    ensures Reshapes(k, s.metal, F.Reclaim(k, F.Begin(d, false), ck, c, s.kube.templates, s.metal, rep).metal,
        rep.alloc)
  {
    var o := F.Reclaim(k, F.Begin(d, false), ck, c, s.kube.templates, s.metal, rep);
    hide F.Reclaim, Held, MachineBooks, ClusterBooks, MachineRuns, ClusterRuns, DeploymentRuns, Homes, Gates, Owners,
      Covered, Plain;
    if o.metal != s.metal {
      DeletionReclaims(s, k, d, ck, c, rep.search.value, rep.frees);
    }
  }

  lemma UpReshapes(s: Sys, k: Key, r: DeploymentRun, rep: F.Replies, paused: bool)
    requires r.FLoaded? && (paused || r.d.deletion.None?)
    ensures Reshapes(k, s.metal, F.RunUp(k, r.d, r.ck, r.c, r.t, s.kube.templates, s.metal, rep, paused).metal,
        rep.alloc)
  {
    hide F.RunUp;
  }

  lemma ActReshapes(s: Sys, k: Key, rep: F.Replies, paused: bool)
    requires Inv(s)
    ensures Reshapes(k, s.metal, ActDeployment(s, k, rep, paused).metal, rep.alloc)
  {
    hide Inv, F.RunUp, F.Reclaim, F.Guard, F.Begin, Reshapes, MachinesOf, Starts;
    SameShape(k, s.metal, rep.alloc);
    if k in s.fruns && !s.fruns[k].FActed? {
      var r := s.fruns[k];
      RunStarts(s, k);
      if r.FCleared? {
        ReclaimReshapes(s, k, r.d, r.ck, r.c, rep);
      } else if paused || r.d.deletion.None? {
        UpReshapes(s, k, r, rep, paused);
      }
    }
  }

  lemma SameShape(k: Key, m: Metal, g: Grant)
    ensures Reshapes(k, m, m, g)
  {}

  // ------------------------------------------------- deployment objects change

  /** The parts that speak of deployments, apart from the runs for those that
      change. */
  lemma ByDeployments(s: Sys, ds': Deployments, gainer: Option<Key>)
    requires Inv(s) && DeploymentsEvolve(s.kube.deployments, ds', s.kube.clusters, s.metal.hosts)
    requires GainsOnly(gainer, s.kube.deployments, ds') && NotClearing(gainer, s.cruns)
    ensures Plain(s.kube.clusters, ds', s.metal.hosts)
    ensures Owners(s.kube.clusters, ds')
    ensures Covered(s.kube.clusters, ds', s.metal.hosts)
    ensures ClusterRuns(s.kube.clusters, s.kube.machines, ds', s.cruns)
  {
    hide Covered, Held, MachineBooks, ClusterBooks, MachineRuns, ClusterRuns, DeploymentRuns, Homes, Gates, Owners;
    CoveredByDeployments(s.kube.clusters, s.kube.deployments, ds', s.metal.hosts);
    ClusterRunsByDeployments(gainer, s.kube.clusters, s.kube.machines, s.kube.deployments, ds', s.cruns);
  }

  lemma RunsByDeployments(cs: Clusters, ds: Deployments, ds': Deployments, hs: Hosts, runs: Runs)
    requires DeploymentRuns(cs, ds, hs, runs)
    requires forall d | d in runs && d in ds ::
      d in ds' && (ds[d].owner.Some? ==> StableDeployment(ds'[d], ds[d]))
    ensures DeploymentRuns(cs, ds', hs, runs)
  {
    hide DeploymentRunOk, StableDeployment;
    forall d | d in runs
      ensures d in ds' && DeploymentRunOk(d, runs[d], ds'[d], cs, hs)
    {
      RunByDeployment(d, runs[d], ds[d], ds'[d], cs, hs);
    }
  }

  /** A run goes on seeing an object that has stayed stable since. */
  lemma RunByDeployment(k: Key, r: DeploymentRun, d: Deployment, d': Deployment, cs: Clusters, hs: Hosts)
    requires DeploymentRunOk(k, r, d, cs, hs) && (d.owner.Some? ==> StableDeployment(d', d))
    ensures DeploymentRunOk(k, r, d', cs, hs)
  {
    hide NoFirewallsOf, ClusterSeen, F.SameDeployment;
  }

  predicate Changes(s: Sys, k: Key, d': Deployment) {
    && DnsLabel(k.ns) && (d'.finalizer ==> d'.owner.Some?)
    && if k in s.kube.deployments
       then var d := s.kube.deployments[k];
            d'.owner == d.owner && (d.finalizer ==> d'.finalizer || NoFirewallsOf(k, s.metal.hosts))
       else d'.owner.None?
  }

  /** One deployment object appears or changes, and its owner does not; the run
      for it ends unless the object stays stable. */
  lemma ChangeDeployment(s: Sys, k: Key, d': Deployment, runs: Runs)
    requires Inv(s) && Changes(s, k, d')
    requires DeploymentRuns(s.kube.clusters, s.kube.deployments[k := d'], s.metal.hosts, runs)
    ensures Inv(s.(kube := s.kube.(deployments := s.kube.deployments[k := d']), fruns := runs))
  {
    hide Covered, Held, MachineBooks, ClusterBooks, MachineRuns, ClusterRuns, DeploymentRuns, Homes, Gates, Owners,
      Plain, Changes, NoFirewallsOf;
    ChangedOwners(s, k, d');
    ByDeployments(s, s.kube.deployments[k := d'], None);
  }

  lemma ChangedOwners(s: Sys, k: Key, d': Deployment)
    requires Inv(s) && Changes(s, k, d')
    ensures DeploymentsEvolve(s.kube.deployments, s.kube.deployments[k := d'], s.kube.clusters, s.metal.hosts)
    ensures GainsOnly(None, s.kube.deployments, s.kube.deployments[k := d'])
  {
    hide Covered, Held, MachineBooks, ClusterBooks, MachineRuns, ClusterRuns, DeploymentRuns, Homes, Gates,
      NoFirewallsOf;
  }

  lemma RemoveDeployment(s: Sys, k: Key, runs: Runs)
    requires Inv(s) && NoFirewallsOf(k, s.metal.hosts)
    requires DeploymentRuns(s.kube.clusters, s.kube.deployments - {k}, s.metal.hosts, runs)
    ensures Inv(s.(kube := s.kube.(deployments := s.kube.deployments - {k}), fruns := runs))
  {
    var ds' := s.kube.deployments - {k};
    assert Owners(s.kube.clusters, ds') by {
      hide Covered, Held, MachineBooks, ClusterBooks, MachineRuns, ClusterRuns, DeploymentRuns, Homes, Gates,
        NoFirewallsOf, Plain;
    }
    assert forall d | d in ds' :: DnsLabel(d.ns) by {
      hide Covered, Held, MachineBooks, ClusterBooks, MachineRuns, ClusterRuns, DeploymentRuns, Homes, Gates,
        NoFirewallsOf, Owners;
    }
    hide Covered, Held, MachineBooks, ClusterBooks, MachineRuns, ClusterRuns, DeploymentRuns, Homes, Gates, Owners,
      Plain;
    ByDeployments(s, ds', None);
  }

  lemma RunFacts(s: Sys, k: Key)
    requires Inv(s) && k in s.fruns
    ensures k in s.kube.deployments && DnsLabel(k.ns)
    ensures DeploymentRunOk(k, s.fruns[k], s.kube.deployments[k], s.kube.clusters, s.metal.hosts)
  {
    hide Covered, Held, MachineBooks, ClusterBooks, MachineRuns, ClusterRuns, Homes, Gates, Owners;
  }

  lemma OwnerFacts(s: Sys, k: Key)
    requires Inv(s) && k in s.kube.deployments
    ensures DnsLabel(k.ns)
    ensures s.kube.deployments[k].finalizer ==> s.kube.deployments[k].owner.Some?
    ensures s.kube.deployments[k].owner.Some? ==> OwnerOk(k, s.kube.deployments[k].owner.value, s.kube.clusters)
    ensures !s.kube.deployments[k].finalizer ==> NoFirewallsOf(k, s.metal.hosts)
  {
    hide Held, MachineBooks, ClusterBooks, MachineRuns, ClusterRuns, DeploymentRuns, Homes, Gates;
    forall id | id in s.metal.hosts && s.metal.hosts[id].origin.ByDeployment? && !s.kube.deployments[k].finalizer
      ensures s.metal.hosts[id].origin.deployment != k
    {
      assert HostCovered(s.metal.hosts[id], s.kube.clusters, s.kube.deployments);
    }
  }

  lemma WithoutRun(cs: Clusters, ds: Deployments, hs: Hosts, runs: Runs, k: Key, d': Deployment)
    requires DeploymentRuns(cs, ds, hs, runs)
    ensures DeploymentRuns(cs, ds[k := d'], hs, runs - {k})
    ensures DeploymentRuns(cs, ds - {k}, hs, runs - {k})
  {}

  lemma PatchDeploymentInv(s: Sys, k: Key, applied: bool)
    requires Inv(s)
    ensures Inv(PatchDeployment(s, k, applied))
  {
    if k in s.fruns && s.fruns[k].FActed? && k in s.kube.deployments {
      RunFacts(s, k);
      OwnerFacts(s, k);
      var d' := MergeDeployment(s.kube.deployments[k], s.fruns[k].before, s.fruns[k].after);
      assert Changes(s, k, d');
      hide Covered, Held, MachineBooks, ClusterBooks, MachineRuns, ClusterRuns, DeploymentRuns, Homes, Gates, Owners,
        Plain;
      hide MergeDeployment, Changes, DeploymentRunOk, NoFirewallsOf;
      if applied {
        WithoutRun(s.kube.clusters, s.kube.deployments, s.metal.hosts, s.fruns, k, d');
        ChangeDeployment(s, k, d', s.fruns - {k});
      } else {
        DropRun(s.kube.clusters, s.kube.deployments, s.metal.hosts, s.fruns, k);
      }
    }
  }

  lemma VanishDeploymentInv(s: Sys, k: Key)
    requires Inv(s)
    ensures Inv(VanishDeployment(s, k))
  {
    hide Covered, Held, MachineBooks, ClusterBooks, MachineRuns, ClusterRuns, DeploymentRuns, Homes, Gates, Owners,
      Plain;
    if k in s.kube.deployments && s.kube.deployments[k].deletion.Some? && !s.kube.deployments[k].finalizer {
      OwnerFacts(s, k);
      WithoutRun(s.kube.clusters, s.kube.deployments, s.metal.hosts, s.fruns, k, s.kube.deployments[k]);
      RemoveDeployment(s, k, s.fruns - {k});
    }
  }

  lemma CreateDeploymentInv(s: Sys, k: Key, d: Deployment)
    requires Inv(s)
    ensures Inv(CreateDeployment(s, k, d))
  {
    hide Covered, Held, MachineBooks, ClusterBooks, MachineRuns, ClusterRuns, DeploymentRuns, Homes, Gates, Owners,
      Plain;
    if k !in s.kube.deployments {
      RunsByDeployments(s.kube.clusters, s.kube.deployments, s.kube.deployments[k := d], s.metal.hosts, s.fruns);
      if CreateDeployment(s, k, d) != s {
        ChangeDeployment(s, k, d, s.fruns);
      }
    }
  }

  lemma DeleteDeploymentInv(s: Sys, k: Key)
    requires Inv(s)
    ensures Inv(DeleteDeployment(s, k))
  {
    hide Covered, Held, MachineBooks, ClusterBooks, MachineRuns, ClusterRuns, DeploymentRuns, Homes, Gates, Owners,
      Plain;
    if k in s.kube.deployments && s.kube.deployments[k].deletion.None? {
      OwnerFacts(s, k);
      var d' := s.kube.deployments[k].(deletion := Some(s.now));
      RunsByDeployments(s.kube.clusters, s.kube.deployments, s.kube.deployments[k := d'], s.metal.hosts, s.fruns);
      ChangeDeployment(s, k, d', s.fruns);
    }
  }

  lemma DropRefInv(s: Sys, k: Key)
    requires Inv(s)
    ensures Inv(DropRef(s, k))
  {
    hide Covered, Held, MachineBooks, ClusterBooks, MachineRuns, ClusterRuns, DeploymentRuns, Homes, Gates, Owners,
      Plain;
    if k in s.kube.deployments {
      OwnerFacts(s, k);
      var d' := s.kube.deployments[k].(ref := None);
      RunsByDeployments(s.kube.clusters, s.kube.deployments, s.kube.deployments[k := d'], s.metal.hosts, s.fruns);
      ChangeDeployment(s, k, d', s.fruns);
    }
  }
}

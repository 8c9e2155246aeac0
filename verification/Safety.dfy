/** Safety over all runs: teardown order, conservation of firewalls, accounting
    of machines, networks and addresses, provisioning gates. */
module Safety {
  import opened Names
  import opened Store
  import opened Metal
  import opened Protocol
  import opened Invariant
  import opened Frames
  import opened StepFrames
  import R = Reachable
  import CS = ClusterSteps
  import DS = DeploymentSteps
  import M = MachineSpec
  import C = ClusterSpec
  import F = FirewallSpec
  import Requests

  // ------------------------------------------------------- teardown order

  /** A provider machine asked for by an object of cluster `k`. */
  predicate MachineOf(h: Host, k: Key, books: map<nat, MachineBook>) {
    h.origin.ByMachine? && h.origin.uid in books && books[h.origin.uid].cluster == k
  }

  /** Cluster `k` has given up everything but what lost patches and lost answers
      have orphaned, and those are no more than were lost. */
  predicate TornDown(s: Sys, k: Key) {
    && Deserted(k, s.kube.machines, s.kube.deployments)
    && (forall id | id in s.metal.hosts && s.metal.hosts[id].origin.ByDeployment? ::
          s.metal.hosts[id].origin.cluster != k)
    && (forall id | id in s.metal.hosts && MachineOf(s.metal.hosts[id], k, s.mbooks) ::
          id in s.mbooks[s.metal.hosts[id].origin.uid].orphans)
    && (forall u | u in s.mbooks :: |s.mbooks[u].orphans| <= s.mbooks[u].lost)
  }

  lemma DesertedIsTornDown(s: Sys, k: Key)
    requires Inv(s) && Deserted(k, s.kube.machines, s.kube.deployments)
    ensures TornDown(s, k)
  {
    hide Plain, Owners, Gates, ClusterBooks, MachineRuns, ClusterRuns, DeploymentRuns;
    var hs := s.metal.hosts;
    forall id | id in hs && hs[id].origin.ByDeployment?
      ensures hs[id].origin.cluster != k
    {
      assert HostCovered(hs[id], s.kube.clusters, s.kube.deployments);
    }
    forall id | id in hs && MachineOf(hs[id], k, s.mbooks)
      ensures id in s.mbooks[hs[id].origin.uid].orphans
    {
      assert HostHeld(id, hs[id], hs[id].origin.uid, s.kube.clusters, s.kube.machines, s.mruns, s.mbooks);
    }
    forall u | u in s.mbooks
      ensures |s.mbooks[u].orphans| <= s.mbooks[u].lost
    {
      assert Booked(u, s.mbooks[u], s.kube.machines, s.mruns);
    }
  }

  /** Networks and addresses of the provider go only by a teardown. */
  predicate KeepsPlaces(s: Sys, t: Sys) {
    s.metal.nets.Keys <= t.metal.nets.Keys && s.metal.ips.Keys <= t.metal.ips.Keys
  }

  lemma UpKeepsPlaces(s: Sys, k: Key, rep: C.Replies, paused: bool)
    requires k in s.cruns && s.cruns[k].CLoaded? && k in s.cbooks
    requires paused || s.cruns[k].c.deletion.None?
    ensures KeepsPlaces(s, ActClusterUp(s, k, rep, paused))
  {
    hide UpRun, UpBook, C.RunUp;
    UpKeepsKeys(k, s.cruns[k].c, s.kube.deployments, s.metal, rep, paused);
  }

  lemma UpKeepsKeys(k: Key, c: Cluster, deps: C.Deployments, metal: Metal, rep: C.Replies, paused: bool)
    requires paused || c.deletion.None?
    ensures var m := C.RunUp(k, c, deps, metal, rep, paused).metal;
      metal.nets.Keys <= m.nets.Keys && metal.ips.Keys <= m.ips.Keys
  {
    hide C.Adopt, C.EnsureDeployment;
  }

  lemma OnlyTeardown(s: Sys, step: Step)
    requires Inv(s) && !KeepsPlaces(s, Next(s, step))
    ensures step.SActCluster? && step.k in s.cruns && s.cruns[step.k].CCleared?
  {
    if !step.SActCluster? {
      MetalFrame(s, step);
    }
    hide Inv, KeepsPlaces, ActCluster;
    SameMetal(s, Next(s, step));
    if step.SActCluster? {
      OnlyClearedTearsDown(s, step.k, step.crep, step.paused);
    }
  }

  lemma OnlyClearedTearsDown(s: Sys, k: Key, rep: C.Replies, paused: bool)
    ensures KeepsPlaces(s, ActCluster(s, k, rep, paused)) || (k in s.cruns && s.cruns[k].CCleared?)
  {
    hide ActClusterUp, ActClusterTeardown, C.Guard, KeepsPlaces;
    SameMetal(s, s);
    if k in s.cruns && k in s.cbooks && s.cruns[k].CLoaded? {
      if paused || s.cruns[k].c.deletion.None? {
        UpKeepsPlaces(s, k, rep, paused);
      } else {
        SameMetal(s, ActClusterGuard(s, k, rep));
      }
    }
  }

  lemma SameMetal(s: Sys, t: Sys)
    ensures t.metal.nets == s.metal.nets && t.metal.ips == s.metal.ips ==> KeepsPlaces(s, t)
  {}

  /** The step that takes networks or addresses away: it acts for a cluster that has
      been torn down, and takes only what that cluster records. */
  lemma TeardownStep(s: Sys, step: Step)
    requires Inv(s) && !KeepsPlaces(s, Next(s, step))
    ensures step.SActCluster? && step.k in s.kube.clusters && s.kube.clusters[step.k].finalizer && TornDown(s, step.k)
    ensures var c, m, m' := s.kube.clusters[step.k], s.metal, Next(s, step).metal;
      && (m'.nets != m.nets ==> c.netId.Some? && m'.nets == m.nets - {c.netId.value})
      && (m'.ips != m.ips ==>
            && c.cpIp.Some? && c.cpIp.value in m.ips && m.ips[c.cpIp.value] == Ephemeral
            && m'.ips == m.ips - {c.cpIp.value})
  {
    OnlyTeardown(s, step);
    ClearedFacts(s, step.k);
    DesertedIsTornDown(s, step.k);
    TakesRecorded(s, step.k, step.crep, step.paused);
    hide Inv, TornDown, Deserted, ActCluster;
  }

  lemma TakesRecorded(s: Sys, k: Key, rep: C.Replies, paused: bool)
    requires k in s.cruns && s.cruns[k].CCleared?
    ensures var c, m, m' := s.cruns[k].c, s.metal, ActCluster(s, k, rep, paused).metal;
      && (m'.nets != m.nets ==> c.netId.Some? && m'.nets == m.nets - {c.netId.value})
      && (m'.ips != m.ips ==>
            && c.cpIp.Some? && c.cpIp.value in m.ips && m.ips[c.cpIp.value] == Ephemeral
            && m'.ips == m.ips - {c.cpIp.value})
  {
    hide C.Teardown;
  }

  /** Teardown order: whenever a network is freed, in whatever interleaving, its
      cluster has no machine object, no firewall deployment and no firewall left,
      and every provider machine left over is an orphan of a lost patch. */
  lemma TeardownOrder(s: Sys, step: Step, n: string)
    requires Reached(s)
    requires n in s.metal.nets && n !in Next(s, step).metal.nets
    ensures
      && step.SActCluster? && step.k in s.kube.clusters
      && s.kube.clusters[step.k].netId == Some(n) && s.kube.clusters[step.k].finalizer
      && TornDown(s, step.k)
  {
    hide Inv, Reached, Next, TornDown;
    R.ReachedInv(s);
    TeardownStep(s, step);
  }

  lemma ClearedFacts(s: Sys, k: Key)
    requires Inv(s) && k in s.cruns && s.cruns[k].CCleared?
    ensures k in s.kube.clusters && s.kube.clusters[k].finalizer
    ensures s.kube.clusters[k].netId == s.cruns[k].c.netId && s.kube.clusters[k].cpIp == s.cruns[k].c.cpIp
    ensures Deserted(k, s.kube.machines, s.kube.deployments)
  {
    hide Plain, Homes, Owners, Covered, Held, MachineBooks, ClusterBooks, MachineRuns, DeploymentRuns, Gates;
  }

  /** A provider machine of ours on network `n`, or a firewall whose node network it is. */
  predicate OnNetwork(h: Host, n: string) {
    match h.origin
    case ByMachine(_) => n in h.networks
    case ByDeployment(_, _, net) => net == n
    case Foreign => false
  }

  function ClusterOf(h: Host, books: map<nat, MachineBook>): Key
    requires !h.origin.Foreign? && (h.origin.ByMachine? ==> h.origin.uid in books)
  {
    if h.origin.ByMachine? then books[h.origin.uid].cluster else h.origin.cluster
  }

  predicate Orphaned(id: string, h: Host, books: map<nat, MachineBook>) {
    h.origin.ByMachine? && h.origin.uid in books && id in books[h.origin.uid].orphans
  }

  /** In every reached state a host of ours that is no orphan runs on the network that
      its own cluster records. */
  lemma HostsOnTheirNetwork(s: Sys, id: string, n: string)
    requires Reached(s) && id in s.metal.hosts && OnNetwork(s.metal.hosts[id], n)
    requires !Orphaned(id, s.metal.hosts[id], s.mbooks)
    ensures s.metal.hosts[id].origin.ByMachine? ==> s.metal.hosts[id].origin.uid in s.mbooks
    ensures var ck := ClusterOf(s.metal.hosts[id], s.mbooks);
      ck in s.kube.clusters && s.kube.clusters[ck].netId == Some(n)
  {
    R.ReachedInv(s);
    hide Plain, Owners, Gates, MachineBooks, ClusterBooks, MachineRuns, ClusterRuns, DeploymentRuns, Reached;
    var h := s.metal.hosts[id];
    if h.origin.ByMachine? {
      assert HostHeld(id, h, h.origin.uid, s.kube.clusters, s.kube.machines, s.mruns, s.mbooks);
      hide Covered;
    } else {
      assert HostCovered(h, s.kube.clusters, s.kube.deployments);
      hide Held, Homes;
    }
  }

  /** So whenever a network is freed, whoever of ours is left on it belongs to another
      cluster, which records the same network. */
  lemma LeftOnFreedNetwork(s: Sys, step: Step, n: string, id: string)
    requires Reached(s) && n in s.metal.nets && n !in Next(s, step).metal.nets
    requires id in s.metal.hosts && OnNetwork(s.metal.hosts[id], n) && !Orphaned(id, s.metal.hosts[id], s.mbooks)
    ensures s.metal.hosts[id].origin.ByMachine? ==> s.metal.hosts[id].origin.uid in s.mbooks
    ensures var ck := ClusterOf(s.metal.hosts[id], s.mbooks);
      && step.SActCluster? && step.k in s.kube.clusters && s.kube.clusters[step.k].netId == Some(n)
      && ck != step.k && ck in s.kube.clusters && s.kube.clusters[ck].netId == Some(n)
  {
    hide Reached, Next;
    TeardownOrder(s, step, n);
    HostsOnTheirNetwork(s, id, n);
    hide Deserted;
  }

  // ------------------------------------------------- firewall conservation

  /** When a firewall deployment is gone, or has given up its finalizer, no live
      firewall answers any search by its tags: not those whose reference was lost
      with a patch, nor those whose reference was removed by hand. */
  lemma FirewallsConserved(s: Sys, k: Key, ck: Key, n: string, id: string)
    requires Reached(s) && DnsLabel(k.ns) && DnsLabel(ck.ns)
    requires && (k in s.kube.deployments ==> !s.kube.deployments[k].finalizer)
      && id in s.metal.hosts && s.metal.hosts[id].kind == Firewall
    ensures !HasAll(s.metal.hosts[id].tags, FirewallTags(n, ck, k))
  {
    R.ReachedInv(s);
    hide Homes, Held, MachineBooks, ClusterBooks, MachineRuns, ClusterRuns, DeploymentRuns, Gates, Owners, FirewallTags;
    var h := s.metal.hosts[id];
    assert HostCovered(h, s.kube.clusters, s.kube.deployments);
    match h.origin
    case ByDeployment(ck', k', n') => FirewallTagsIsolate(n', ck', k', n, ck, k);
    case ByMachine(_) =>
    case Foreign => NotNamed(h.tags, n, ck, k);
  }

  lemma NotNamed(tags: seq<Tag>, n: string, ck: Key, k: Key)
    requires NamesNoDeployment(tags)
    ensures !HasAll(tags, FirewallTags(n, ck, k))
  {
    var wanted := FirewallTags(n, ck, k)[3];
    assert wanted.key == DeploymentResource && wanted !in tags;
  }

  /** The tags a deployment deletes by are the tags its firewalls were created
      with, in every run: the node network is not replaced in between. */
  lemma DeletionTagsAreCreationTags(s: Sys, id: string)
    requires Reached(s) && id in s.metal.hosts && s.metal.hosts[id].origin.ByDeployment?
    ensures var h := s.metal.hosts[id]; var k := h.origin.deployment;
      && k in s.kube.deployments && s.kube.deployments[k].owner == Some(h.origin.cluster)
      && h.origin.cluster in s.kube.clusters && s.kube.clusters[h.origin.cluster].netId.Some?
      && h.tags == FirewallTags(s.kube.clusters[h.origin.cluster].netId.value, h.origin.cluster, k)
  {
    R.ReachedInv(s);
    hide Homes, Held, MachineBooks, ClusterBooks, MachineRuns, ClusterRuns, DeploymentRuns, Gates, Owners, Plain;
    assert HostCovered(s.metal.hosts[id], s.kube.clusters, s.kube.deployments);
  }

  /** The deployment controller frees only firewalls of the deployment it runs for,
      and only behind the guard of a deletion. */
  lemma FreesOwnFirewalls(s: Sys, k: Key, rep: F.Replies, paused: bool, id: string)
    requires Reached(s)
    requires id in s.metal.hosts && id !in ActDeployment(s, k, rep, paused).metal.hosts
    ensures k in s.fruns && s.fruns[k].FCleared? && s.fruns[k].d.deletion.Some?
    ensures s.metal.hosts[id].origin.ByDeployment? && s.metal.hosts[id].origin.deployment == k
  {
    R.ReachedInv(s);
    hide Reached, Inv;
    OnlyReclaimFrees(s, k, rep, paused, id);
    ReclaimsOwn(s, k, rep, id);
  }

  lemma OnlyReclaimFrees(s: Sys, k: Key, rep: F.Replies, paused: bool, id: string)
    requires id in s.metal.hosts && id !in ActDeployment(s, k, rep, paused).metal.hosts
    ensures k in s.fruns && s.fruns[k].FCleared? && id !in ActDeploymentReclaim(s, k, rep).metal.hosts
  {
    hide F.RunUp, F.Guard, ActDeploymentReclaim, F.FirewallHost;
  }

  lemma ReclaimsOwn(s: Sys, k: Key, rep: F.Replies, id: string)
    requires Inv(s) && k in s.fruns && s.fruns[k].FCleared?
    requires id in s.metal.hosts && id !in ActDeploymentReclaim(s, k, rep).metal.hosts
    ensures s.fruns[k].d.deletion.Some?
    ensures s.metal.hosts[id].origin.ByDeployment? && s.metal.hosts[id].origin.deployment == k
  {
    DS.RunStarts(s, k);
    var r := s.fruns[k];
    var o := F.Reclaim(k, F.Begin(r.d, false), r.ck, r.c, s.kube.templates, s.metal, rep);
    hide Homes, Owners, Held, MachineBooks, ClusterBooks, MachineRuns, ClusterRuns, DeploymentRuns, Gates, F.Reclaim,
      Covered, Plain;
    F.LoopFrees(s.metal, rep.search.value, rep.frees, |rep.search.value|);
    assert id in Elems(rep.search.value);
    DS.SearchIsExact(s, k, r.d, r.ck, r.c, id);
  }

  /** Addresses: whenever one is freed, it is the one the cluster was given in
      `controlPlaneIP`, it is not a static one, and the cluster is torn down. An
      address that was acquired automatically is never freed. */
  lemma OnlyGivenAddressesAreFreed(s: Sys, step: Step, ip: string)
    requires Reached(s)
    requires ip in s.metal.ips && ip !in Next(s, step).metal.ips
    ensures
      && step.SActCluster? && step.k in s.kube.clusters
      && s.kube.clusters[step.k].cpIp == Some(ip) && s.metal.ips[ip] == Ephemeral
      && TornDown(s, step.k)
  {
    hide Inv, Reached, Next, TornDown;
    R.ReachedInv(s);
    TeardownStep(s, step);
  }

  // ------------------------------------------------------------- accounting

  /** Machine accounting: over every run, the provider machines allocated for one
      object are the one it records, those lost with patches or answers, and at
      most one that a patch under way will record. */
  lemma MachineAccounting(s: Sys, u: nat)
    requires Reached(s) && u in s.mbooks
    ensures var b := s.mbooks[u];
      && |b.orphans| <= b.lost && b.allocs <= 1 + b.lost
      && (u in s.kube.machines ==>
            && b.allocs == One(s.kube.machines[u].providerID != "") + b.lost + |Pending(u, s.mruns)|
            && (u !in s.mruns ==> b.allocs == One(s.kube.machines[u].providerID != "") + b.lost))
  {
    R.ReachedInv(s);
    hide Plain, Homes, Owners, Covered, Held, ClusterBooks, ClusterRuns, DeploymentRuns, Gates, Reached;
    assert Booked(u, s.mbooks[u], s.kube.machines, s.mruns);
    if u in s.kube.machines && Pending(u, s.mruns) != {} {
      assert MachineRunOk(u, s.mruns[u], s.kube.machines[u], s.kube.clusters, s.metal.hosts, s.mbooks[u].orphans,
          s.now);
    }
  }

  /** A patch under way that will record a network, or an address. */
  function NetToRecord(s: Sys, k: Key): nat {
    One(k in s.cruns && s.cruns[k].CActed? && s.cruns[k].newNet)
  }

  function IpToRecord(s: Sys, k: Key): nat {
    One(k in s.cruns && s.cruns[k].CActed? && s.cruns[k].newIp)
  }

  /** Network and address accounting, at every moment and also once the cluster is
      gone: the networks allocated for it are the one it records, the one a patch under
      way will record, those lost with patches and answers, and those a teardown has
      given back; once it is gone none is left but lost ones. Addresses acquired for it
      are never given back: at most one is recorded, and a cluster that goes leaves it
      behind. */
  lemma ClusterAccounting(s: Sys, k: Key)
    requires Reached(s)
    ensures k in s.kube.clusters ==> k in s.cbooks
    ensures k in s.cbooks ==> var b := s.cbooks[k];
      && b.netAllocs == One(b.autoNet) + NetToRecord(s, k) + b.netLost + b.netCleared
      && b.ipAllocs == One(b.autoHost) + IpToRecord(s, k) + b.ipLost + b.ipLeft
      && (b.autoNet ==> k in s.kube.clusters && s.kube.clusters[k].netId.Some?)
      && (b.autoHost ==> k in s.kube.clusters && s.kube.clusters[k].endpoint.host != "")
      && (k !in s.kube.clusters ==>
            b.netAllocs == b.netLost + b.netCleared && b.ipAllocs == b.ipLost + b.ipLeft)
  {
    R.ReachedInv(s);
    CS.RunsHaveClusters(s);
    hide Plain, Homes, Owners, Covered, Held, MachineBooks, MachineRuns, ClusterRuns, DeploymentRuns, Gates, Reached;
  }

  /** The finalizer of a cluster covers the network that was allocated for it. */
  lemma FinalizerCoversNetwork(s: Sys, k: Key)
    requires Reached(s) && k in s.cbooks && s.cbooks[k].autoNet
    ensures k in s.kube.clusters && s.kube.clusters[k].finalizer && s.kube.clusters[k].netId.Some?
  {
    R.ReachedInv(s);
    hide Plain, Homes, Owners, Covered, Held, MachineBooks, MachineRuns, ClusterRuns, DeploymentRuns, Gates, Reached;
  }

  // ------------------------------------------------- finalizers cover resources

  /** A provider machine of ours that is no orphan has its object, with finalizer,
      and the object knows it or is about to record it. */
  lemma FinalizerCoversMachine(s: Sys, id: string)
    requires Reached(s) && id in s.metal.hosts && s.metal.hosts[id].origin.ByMachine?
    ensures var u := s.metal.hosts[id].origin.uid;
      && u in s.mbooks
      && (id in s.mbooks[u].orphans
          || (u in s.kube.machines && s.kube.machines[u].finalizer
              && (Records(s.kube.machines[u], id) || id in Pending(u, s.mruns))))
  {
    R.ReachedInv(s);
    hide Plain, Homes, Owners, Covered, MachineBooks, ClusterBooks, MachineRuns, ClusterRuns, DeploymentRuns, Gates,
      Reached;
    assert HostHeld(id, s.metal.hosts[id], s.metal.hosts[id].origin.uid, s.kube.clusters, s.kube.machines, s.mruns,
        s.mbooks);
  }

  /** The cluster object outlives its machine objects and the deployments it owns,
      so the machine controller never finds its cluster gone. */
  lemma ClusterOutlives(s: Sys)
    requires Reached(s)
    ensures
      && (forall u | u in s.kube.machines ::
            && s.kube.machines[u].cluster in s.kube.clusters
            && Staying(s.kube.clusters[s.kube.machines[u].cluster]))
      && (forall k | k in s.kube.deployments && s.kube.deployments[k].finalizer ::
            && s.kube.deployments[k].owner.Some?
            && s.kube.deployments[k].owner.value in s.kube.clusters
            && s.kube.clusters[s.kube.deployments[k].owner.value].finalizer)
  {
    R.ReachedInv(s);
    hide Plain, Covered, Held, MachineBooks, ClusterBooks, MachineRuns, ClusterRuns, DeploymentRuns, Gates, Reached;
  }

  // --------------------------------------------------------- provisioning gates

  /** Every provider machine is allocated on the network and behind the endpoint
      that are stored on the cluster at that moment, with a bootstrap secret and
      while no provider id is stored. It is what the stored objects ask for. */
  lemma MachineGates(s: Sys, u: nat, rep: M.Replies, paused: bool, id: string)
    requires Reached(s)
    requires id !in s.metal.hosts && id in ActMachine(s, u, rep, paused).metal.hosts
    ensures u in s.kube.machines && s.kube.machines[u].cluster in s.kube.clusters
    ensures var h, m := ActMachine(s, u, rep, paused).metal.hosts[id], s.kube.machines[u];
      var c := s.kube.clusters[m.cluster];
      && m.providerID == "" && m.finalizer && m.secret.Some? && c.endpoint.host != ""
      && Requests.AsksForMachine(h, u, m, c)
  {
    R.ReachedInv(s);
    hide Reached, Inv, Requests.AsksForMachine, ActMachine;
    Requests.MachineRequested(s, u, rep, paused, id);
    MSRunStarts(s, u);
    SameRequest(u, ActMachine(s, u, rep, paused).metal.hosts[id], s.mruns[u].m, s.kube.machines[u], s.mruns[u].c,
        s.kube.clusters[s.kube.machines[u].cluster]);
  }

  /** The request is the same for what was read and for what is stored. */
  lemma SameRequest(u: nat, h: Host, m: Machine, m': Machine, c: Cluster, c': Cluster)
    requires Requests.AsksForMachine(h, u, m, c) && ClusterSeen(c', c)
    requires m' == m.(deletion := m'.deletion, secret := m'.secret)
    ensures Requests.AsksForMachine(h, u, m', c')
  {
    hide Requests.MachineTexts, RenderAll;
  }

  /** The snapshot a machine run acts on agrees with what is stored. */
  lemma MSRunStarts(s: Sys, u: nat)
    requires Inv(s)
    ensures u in s.mruns && s.mruns[u].MLoaded? ==>
      && u in s.kube.machines && s.kube.machines[u].cluster in s.kube.clusters
      && s.kube.machines[u] ==
         s.mruns[u].m.(deletion := s.kube.machines[u].deletion, secret := s.kube.machines[u].secret)
      && (s.mruns[u].m.secret.Some? ==> s.kube.machines[u].secret.Some?)
      && ClusterSeen(s.kube.clusters[s.kube.machines[u].cluster], s.mruns[u].c)
  {
    hide Plain, Homes, Owners, Covered, Held, MachineBooks, ClusterBooks, ClusterRuns, DeploymentRuns, Gates;
    if u in s.mruns && s.mruns[u].MLoaded? {
      assert MachineRunOk(u, s.mruns[u], s.kube.machines[u], s.kube.clusters, s.metal.hosts, s.mbooks[u].orphans,
          s.now);
    }
  }

  /** Every firewall is allocated for an object with finalizer that stores no reference,
      and is what the template that was read and the stored cluster ask for: with its
      rules, on its networks and the stored node network. */
  lemma FirewallGates(s: Sys, k: Key, rep: F.Replies, paused: bool, id: string)
    requires Reached(s)
    requires id !in s.metal.hosts && id in ActDeployment(s, k, rep, paused).metal.hosts
    ensures k in s.fruns && s.fruns[k].FLoaded? && k in s.kube.deployments && s.kube.deployments[k].owner.Some?
    ensures s.kube.deployments[k].owner.value in s.kube.clusters
    ensures var h, d := ActDeployment(s, k, rep, paused).metal.hosts[id], s.kube.deployments[k];
      && d.finalizer && d.ref.None?
      && Requests.AsksForFirewall(h, k, d.owner.value, s.kube.clusters[d.owner.value], s.fruns[k].t)
  {
    R.ReachedInv(s);
    hide Reached, Inv, Requests.AsksForFirewall, ActDeployment;
    Requests.FirewallRequested(s, k, rep, paused, id);
    DS.RunFacts(s, k);
    var r, h := s.fruns[k], ActDeployment(s, k, rep, paused).metal.hosts[id];
    SameFirewall(h, k, r.ck, r.c, s.kube.clusters[r.ck], r.t);
  }

  lemma SameFirewall(h: Host, k: Key, ck: Key, c: Cluster, c': Cluster, t: Template)
    requires Requests.AsksForFirewall(h, k, ck, c, t) && ClusterSeen(c', c)
    ensures Requests.AsksForFirewall(h, k, ck, c', t)
  {
    hide Requests.FirewallTexts, RenderAll, Requests.SameRules;
  }

  /** A cluster that is ready and not being deleted has its network and endpoint
      stored; a provisioned machine has its provider id stored. */
  lemma ReadyMeansPlaced(s: Sys)
    requires Reached(s)
    ensures
      && (forall k | k in s.kube.clusters && s.kube.clusters[k].ready && s.kube.clusters[k].deletion.None? ::
            s.kube.clusters[k].netId.Some? && s.kube.clusters[k].endpoint.host != "")
      && (forall u | u in s.kube.machines && s.kube.machines[u].provisioned :: s.kube.machines[u].providerID != "")
  {
    R.ReachedInv(s);
    hide Plain, Homes, Owners, Covered, Held, MachineBooks, ClusterBooks, MachineRuns, ClusterRuns, DeploymentRuns,
      Reached;
  }
}

/** What holds in every reachable state of the protocol. Each part names the
    components of the state it speaks about. */
module Invariant {
  import opened Names
  import opened Store
  import opened Metal
  import opened Protocol
  import M = MachineSpec
  import C = ClusterSpec
  import F = FirewallSpec

  type Clusters = map<Key, Cluster>
  type Machines = map<nat, Machine>
  type Deployments = map<Key, Deployment>
  type Hosts = map<string, Host>

  // ------------------------------------------------------------ stored objects

  /** Names and partitions are such that the provider id and the qualified names
      can be read back. */
  predicate PlainCluster(k: Key, c: Cluster) {
    DnsLabel(k.ns) && Lacks(c.partition, '/') && c.cpIp != Some("")
  }

  predicate Plain(cs: Clusters, ds: Deployments, hs: Hosts) {
    && (forall k | k in cs :: PlainCluster(k, cs[k]))
    && (forall k | k in ds :: DnsLabel(k.ns))
    && (forall id | id in hs :: Lacks(Deref(hs[id].partition), '/'))
  }

  predicate Staying(c: Cluster) {
    c.finalizer || c.deletion.None?
  }

  /** A machine object has its cluster, and that cluster cannot vanish. */
  predicate Homes(cs: Clusters, ms: Machines, books: map<nat, MachineBook>) {
    forall u | u in ms ::
      && ms[u].cluster in cs && Staying(cs[ms[u].cluster])
      && u in books && books[u].cluster == ms[u].cluster
  }

  predicate OwnerOk(k: Key, ck: Key, cs: Clusters) {
    ck in cs && cs[ck].finalizer && cs[ck].fwRef == Some(k.name) && ck.ns == k.ns
  }

  /** A firewall deployment's owner exists, refers to it and cannot vanish. */
  predicate Owners(cs: Clusters, ds: Deployments) {
    forall k | k in ds ::
      && (ds[k].finalizer ==> ds[k].owner.Some?)
      && (ds[k].owner.Some? ==> OwnerOk(k, ds[k].owner.value, cs))
  }

  /** Every firewall of ours is covered: its deployment object still exists with
      its finalizer, and a search by that deployment finds the firewall. */
  predicate FirewallCovered(h: Host, cs: Clusters, ds: Deployments)
    requires h.origin.ByDeployment?
  {
    var ck, k, n := h.origin.cluster, h.origin.deployment, h.origin.net;
    && h.kind == Firewall && h.tags == FirewallTags(n, ck, k) && n in h.networks && h.rules.Some?
    && k in ds && ds[k].finalizer && ds[k].owner == Some(ck)
    && ck in cs && cs[ck].netId == Some(n)
    && h.project == cs[ck].project && h.partition == Some(cs[ck].partition)
  }

  predicate HostCovered(h: Host, cs: Clusters, ds: Deployments) {
    match h.origin
    case ByDeployment(_, _, _) => FirewallCovered(h, cs, ds)
    case ByMachine(_) => h.kind == Worker
    case Foreign => NamesNoDeployment(h.tags)
  }

  predicate Covered(cs: Clusters, ds: Deployments, hs: Hosts) {
    forall id | id in hs :: HostCovered(hs[id], cs, ds)
  }

  /** Ready clusters have a place to run in; provisioned machines are recorded. */
  predicate Gated(c: Cluster) {
    c.ready && c.deletion.None? ==> c.netId.Some? && c.endpoint.host != ""
  }

  predicate Gates(cs: Clusters, ms: Machines) {
    && (forall k | k in cs :: Gated(cs[k]))
    && (forall u | u in ms :: ms[u].provisioned ==> ms[u].providerID != "")
  }

  // ------------------------------------------------------ machines, accounting

  function Pending(u: nat, runs: map<nat, MachineRun>): set<string> {
    if u in runs && runs[u].MActed? then runs[u].pending else {}
  }

  predicate Records(m: Machine, id: string) {
    m.providerID != "" && M.RecordedID(m) == id
  }

  /** A provider machine of ours is an orphan, or it runs on the node network of its
      cluster, and its object still exists with its finalizer and knows it or is about
      to record it. */
  predicate HostHeld(id: string, h: Host, u: nat, cs: Clusters, ms: Machines,
                     runs: map<nat, MachineRun>, books: map<nat, MachineBook>) {
    && u in books
    && (id in books[u].orphans
        || (&& u in ms && ms[u].finalizer && ms[u].cluster in cs && h.project == cs[ms[u].cluster].project
            && cs[ms[u].cluster].netId.Some? && h.networks == [cs[ms[u].cluster].netId.value]
            && (Records(ms[u], id) || id in Pending(u, runs))))
  }

  predicate Held(cs: Clusters, ms: Machines, hs: Hosts,
                 runs: map<nat, MachineRun>, books: map<nat, MachineBook>) {
    forall id | id in hs && hs[id].origin.ByMachine? ::
      HostHeld(id, hs[id], hs[id].origin.uid, cs, ms, runs, books)
  }

  function One(b: bool): nat {
    if b then 1 else 0
  }

  predicate Booked(u: nat, b: MachineBook, ms: Machines, runs: map<nat, MachineRun>) {
    && |b.orphans| <= b.lost
    && (if u in ms
        then b.allocs == One(ms[u].providerID != "") + b.lost + |Pending(u, runs)|
        else b.allocs <= 1 + b.lost)
  }

  predicate MachineBooks(ms: Machines, runs: map<nat, MachineRun>, books: map<nat, MachineBook>) {
    forall u | u in books :: Booked(u, books[u], ms, runs)
  }

  // ------------------------------------------------------ clusters, accounting

  /** A network that was allocated for a cluster is held by its finalizer. */
  predicate ClusterBooked(c: Cluster, b: ClusterBook, newNet: bool, newIp: bool) {
    && b.netAllocs == One(b.autoNet) + b.netLost + b.netCleared + One(newNet)
    && (b.autoNet ==> c.netId.Some? && c.finalizer)
    && b.ipAllocs == One(b.autoHost) + b.ipLost + b.ipLeft + One(newIp)
    && (b.autoHost ==> c.endpoint.host != "")
  }

  /** The book of a cluster that is gone. */
  predicate BookClosed(b: ClusterBook) {
    && b.netAllocs == b.netLost + b.netCleared && !b.autoNet
    && b.ipAllocs == b.ipLost + b.ipLeft && !b.autoHost
  }

  predicate ClusterBooks(cs: Clusters, runs: map<Key, ClusterRun>, books: map<Key, ClusterBook>) {
    && (forall k | k in cs ::
          && k in books
          && ClusterBooked(cs[k], books[k], k in runs && runs[k].CActed? && runs[k].newNet,
                           k in runs && runs[k].CActed? && runs[k].newIp))
    && (forall k | k in books && k !in cs :: BookClosed(books[k]))
  }

  // ------------------------------------------------------------ runs under way

  predicate StableMachine(now: Machine, snap: Machine) {
    && now == snap.(secret := now.secret, deletion := now.deletion)
    && (snap.secret.Some? ==> now.secret.Some?)
    && (snap.deletion.Some? ==> now.deletion == snap.deletion)
  }

  predicate StableCluster(now: Cluster, snap: Cluster) {
    now == snap.(deletion := now.deletion) && (snap.deletion.Some? ==> now.deletion == snap.deletion)
  }

  predicate StableDeployment(now: Deployment, snap: Deployment) {
    && now == snap.(deletion := now.deletion, ref := now.ref)
    && (snap.deletion.Some? ==> now.deletion == snap.deletion)
    && (now.ref == snap.ref || now.ref.None?)
    && snap.owner.Some?
  }

  /** What another controller has read of a cluster stays true while it matters. */
  predicate ClusterSeen(now: Cluster, snap: Cluster) {
    && now.project == snap.project && now.partition == snap.partition
    && (snap.netId.Some? ==> now.netId == snap.netId)
    && (snap.endpoint.host != "" ==> now.endpoint == snap.endpoint)
  }

  predicate Released(u: nat, hs: Hosts, orphans: set<string>) {
    forall id | id in hs && hs[id].origin == ByMachine(u) :: id in orphans
  }

  predicate MachineRunOk(u: nat, r: MachineRun, m: Machine, cs: Clusters, hs: Hosts, orphans: set<string>, now: Time) {
    match r
    case MLoaded(b, c) =>
      StableMachine(m, b) && m.cluster in cs && ClusterSeen(cs[m.cluster], c)
    case MActed(b, a, pending) =>
      && StableMachine(m, b) && M.SameMachine(a, b) && M.KeepsID(b, a)
      && (pending != {} ==> b.finalizer && a.finalizer && b.providerID == "" && a.providerID != "")
      && (b.providerID == "" && a.providerID != "" ==> pending == {M.RecordedID(a)})
      && (b.finalizer && !a.finalizer ==>
            && b.deletion.Some? && Released(u, hs, orphans)
            && (b.controlPlane ==> now > b.deletion.value + GRACE))
  }

  predicate MachineRuns(cs: Clusters, ms: Machines, hs: Hosts, runs: map<nat, MachineRun>,
                        books: map<nat, MachineBook>, now: Time) {
    forall u | u in runs ::
      u in ms && u in books && MachineRunOk(u, runs[u], ms[u], cs, hs, books[u].orphans, now)
  }

  /** No machine object and no firewall deployment belongs to the cluster. */
  predicate Deserted(k: Key, ms: Machines, ds: Deployments) {
    && (forall u | u in ms :: ms[u].cluster != k)
    && (forall d | d in ds :: ds[d].owner != Some(k))
  }

  predicate ClusterRunOk(k: Key, r: ClusterRun, c: Cluster, ms: Machines, ds: Deployments) {
    match r
    case CLoaded(b) => StableCluster(c, b)
    case CCleared(b) => StableCluster(c, b) && b.finalizer && b.deletion.Some? && Deserted(k, ms, ds)
    case CActed(b, a, newNet, newIp) =>
      && StableCluster(c, b) && C.SameCluster(b, a)
      && (b.endpoint.host != "" ==> a.endpoint == b.endpoint)
      && (a.cpIp == b.cpIp || a.cpIp.None?)
      && (b.netId.Some? ==> a.netId == b.netId || (a.netId.None? && b.finalizer && !a.finalizer))
      && (newNet <==> b.netId.None? && a.netId.Some?)
      && (newNet || newIp ==> b.finalizer && a.finalizer)
      && (newIp ==> b.endpoint.host == "" && a.endpoint.host != "")
      && (b.finalizer && !a.finalizer ==> b.deletion.Some? && a.netId.None? && Deserted(k, ms, ds))
      && (a.ready && !b.ready ==> a.netId.Some? && a.endpoint.host != "")
  }

  predicate ClusterRuns(cs: Clusters, ms: Machines, ds: Deployments, runs: map<Key, ClusterRun>) {
    forall k | k in runs :: k in cs && ClusterRunOk(k, runs[k], cs[k], ms, ds)
  }

  predicate NoFirewallsOf(k: Key, hs: Hosts) {
    forall id | id in hs && hs[id].origin.ByDeployment? :: hs[id].origin.deployment != k
  }

  predicate DeploymentRunOk(k: Key, r: DeploymentRun, d: Deployment, cs: Clusters, hs: Hosts) {
    match r
    case FLoaded(b, ck, c, t) =>
      StableDeployment(d, b) && b.owner == Some(ck) && ck in cs && ClusterSeen(cs[ck], c)
    case FCleared(b, ck, c, closing) =>
      && StableDeployment(d, b) && b.owner == Some(ck) && ck in cs && ClusterSeen(cs[ck], c)
      && b.finalizer && b.deletion.Some?
    case FActed(b, a) =>
      && StableDeployment(d, b) && F.SameDeployment(a, b) && (b.ref.Some? ==> a.ref == b.ref)
      && (b.finalizer && !a.finalizer ==> b.deletion.Some? && NoFirewallsOf(k, hs))
  }

  predicate DeploymentRuns(cs: Clusters, ds: Deployments, hs: Hosts, runs: map<Key, DeploymentRun>) {
    forall k | k in runs :: k in ds && DeploymentRunOk(k, runs[k], ds[k], cs, hs)
  }

  // ------------------------------------------------------------- the invariant

  predicate Inv(s: Sys) {
    && Plain(s.kube.clusters, s.kube.deployments, s.metal.hosts)
    && Homes(s.kube.clusters, s.kube.machines, s.mbooks)
    && Owners(s.kube.clusters, s.kube.deployments)
    && Covered(s.kube.clusters, s.kube.deployments, s.metal.hosts)
    && Gates(s.kube.clusters, s.kube.machines)
    && Held(s.kube.clusters, s.kube.machines, s.metal.hosts, s.mruns, s.mbooks)
    && MachineBooks(s.kube.machines, s.mruns, s.mbooks)
    && ClusterBooks(s.kube.clusters, s.cruns, s.cbooks)
    && MachineRuns(s.kube.clusters, s.kube.machines, s.metal.hosts, s.mruns, s.mbooks, s.now)
    && ClusterRuns(s.kube.clusters, s.kube.machines, s.kube.deployments, s.cruns)
    && DeploymentRuns(s.kube.clusters, s.kube.deployments, s.metal.hosts, s.fruns)
  }

  lemma InitInv(s: Sys)
    requires Init(s)
    ensures Inv(s)
  {}
}

/** How each part of the invariant survives a change of one component. */
module Frames {
  import opened Names
  import opened Store
  import opened Metal
  import opened Protocol
  import opened Invariant
  import M = MachineSpec
  import C = ClusterSpec
  import F = FirewallSpec

  // --------------------------------------------------------- clusters change

  /** A cluster something belongs to stays, and keeps what others rely on. */
  predicate ClusterKept(c: Cluster, c': Cluster) {
    && ClusterSeen(c', c) && c'.fwRef == c.fwRef && (c.finalizer ==> c'.finalizer) && (Staying(c) ==> Staying(c'))
  }

  predicate ClustersEvolve(cs: Clusters, cs': Clusters, ms: Machines, ds: Deployments) {
    && (forall k | k in cs' :: PlainCluster(k, cs'[k]) && Gated(cs'[k]))
    && (forall k | k in cs :: Deserted(k, ms, ds) || (k in cs' && ClusterKept(cs[k], cs'[k])))
  }

  lemma HomesByClusters(cs: Clusters, cs': Clusters, ms: Machines, ds: Deployments, books: map<nat, MachineBook>)
    requires ClustersEvolve(cs, cs', ms, ds) && Homes(cs, ms, books)
    ensures Homes(cs', ms, books)
  {}

  lemma OwnersByClusters(cs: Clusters, cs': Clusters, ms: Machines, ds: Deployments)
    requires ClustersEvolve(cs, cs', ms, ds) && Owners(cs, ds)
    ensures Owners(cs', ds)
  {}

  lemma CoveredByClusters(cs: Clusters, cs': Clusters, ms: Machines, ds: Deployments, hs: Hosts)
    requires ClustersEvolve(cs, cs', ms, ds) && Covered(cs, ds, hs)
    ensures Covered(cs', ds, hs)
  {}

  lemma HeldByClusters(cs: Clusters, cs': Clusters, ms: Machines, ds: Deployments, hs: Hosts,
                       runs: map<nat, MachineRun>, books: map<nat, MachineBook>)
    requires ClustersEvolve(cs, cs', ms, ds) && Held(cs, ms, hs, runs, books)
    ensures Held(cs', ms, hs, runs, books)
  {}

  lemma MachineRunsByClusters(cs: Clusters, cs': Clusters, ms: Machines, ds: Deployments, hs: Hosts,
                              runs: map<nat, MachineRun>, books: map<nat, MachineBook>, now: Time)
    requires ClustersEvolve(cs, cs', ms, ds) && MachineRuns(cs, ms, hs, runs, books, now)
    ensures MachineRuns(cs', ms, hs, runs, books, now)
  {}

  lemma DeploymentRunsByClusters(cs: Clusters, cs': Clusters, ms: Machines, ds: Deployments, hs: Hosts,
                                 runs: map<Key, DeploymentRun>)
    requires ClustersEvolve(cs, cs', ms, ds) && DeploymentRuns(cs, ds, hs, runs)
    ensures DeploymentRuns(cs', ds, hs, runs)
  {}

  /** The parts that speak of clusters, apart from the runs and books of the
      cluster controller itself. */
  lemma ByClusters(s: Sys, cs': Clusters)
    requires Inv(s) && ClustersEvolve(s.kube.clusters, cs', s.kube.machines, s.kube.deployments)
    ensures Plain(cs', s.kube.deployments, s.metal.hosts)
    ensures Homes(cs', s.kube.machines, s.mbooks)
    ensures Owners(cs', s.kube.deployments)
    ensures Covered(cs', s.kube.deployments, s.metal.hosts)
    ensures Gates(cs', s.kube.machines)
    ensures Held(cs', s.kube.machines, s.metal.hosts, s.mruns, s.mbooks)
    ensures MachineRuns(cs', s.kube.machines, s.metal.hosts, s.mruns, s.mbooks, s.now)
    ensures DeploymentRuns(cs', s.kube.deployments, s.metal.hosts, s.fruns)
  {
    hide Homes, Owners, Covered, Held, MachineRuns, DeploymentRuns, MachineBooks, ClusterBooks, ClusterRuns;
    HomesByClusters(s.kube.clusters, cs', s.kube.machines, s.kube.deployments, s.mbooks);
    OwnersByClusters(s.kube.clusters, cs', s.kube.machines, s.kube.deployments);
    CoveredByClusters(s.kube.clusters, cs', s.kube.machines, s.kube.deployments, s.metal.hosts);
    HeldByClusters(s.kube.clusters, cs', s.kube.machines, s.kube.deployments, s.metal.hosts, s.mruns, s.mbooks);
    MachineRunsByClusters(s.kube.clusters, cs', s.kube.machines, s.kube.deployments, s.metal.hosts, s.mruns, s.mbooks,
        s.now);
    DeploymentRunsByClusters(s.kube.clusters, cs', s.kube.machines, s.kube.deployments, s.metal.hosts, s.fruns);
  }

  // ------------------------------------------------------ deployments change

  predicate DeploymentKept(d: Deployment, d': Deployment) {
    (d.finalizer ==> d'.finalizer) && (d.owner.Some? ==> d'.owner == d.owner)
  }

  predicate DeploymentsEvolve(ds: Deployments, ds': Deployments, cs: Clusters, hs: Hosts) {
    && (forall k | k in ds' :: DnsLabel(k.ns))
    && Owners(cs, ds')
    && (forall k | k in ds :: NoFirewallsOf(k, hs) || (k in ds' && DeploymentKept(ds[k], ds'[k])))
  }

  lemma CoveredByDeployments(cs: Clusters, ds: Deployments, ds': Deployments, hs: Hosts)
    requires DeploymentsEvolve(ds, ds', cs, hs) && Covered(cs, ds, hs)
    ensures Covered(cs, ds', hs)
  {}

  /** No cluster but `gainer` gains deployments. */
  predicate GainsOnly(gainer: Option<Key>, ds: Deployments, ds': Deployments) {
    forall d | d in ds' && ds'[d].owner.Some? && ds'[d].owner != gainer ::
      d in ds && ds[d].owner == ds'[d].owner
  }

  predicate NotClearing(gainer: Option<Key>, runs: map<Key, ClusterRun>) {
    gainer.Some? && gainer.value in runs ==> match runs[gainer.value]
      case CLoaded(_) => true
      case CCleared(_) => false
      case CActed(b, a, _, _) => b.finalizer ==> a.finalizer
  }

  lemma ClusterRunsByDeployments(gainer: Option<Key>, cs: Clusters, ms: Machines, ds: Deployments, ds': Deployments,
                                 runs: map<Key, ClusterRun>)
    requires GainsOnly(gainer, ds, ds') && NotClearing(gainer, runs) && ClusterRuns(cs, ms, ds, runs)
    ensures ClusterRuns(cs, ms, ds', runs)
  {
    forall k | k in runs && gainer != Some(k) && Deserted(k, ms, ds)
      ensures Deserted(k, ms, ds')
    {}
  }

  // --------------------------------------------------------- machines change

  predicate MachinesEvolve(ms: Machines, ms': Machines) {
    && (forall u | u in ms' :: u in ms && ms'[u].cluster == ms[u].cluster
                               && (ms'[u].provisioned ==> ms'[u].providerID != ""))
  }

  lemma HomesByMachines(cs: Clusters, ms: Machines, ms': Machines, books: map<nat, MachineBook>)
    requires MachinesEvolve(ms, ms') && Homes(cs, ms, books)
    ensures Homes(cs, ms', books)
  {}

  lemma ClusterRunsByMachines(cs: Clusters, ms: Machines, ms': Machines, ds: Deployments, runs: map<Key, ClusterRun>)
    requires MachinesEvolve(ms, ms') && ClusterRuns(cs, ms, ds, runs)
    ensures ClusterRuns(cs, ms', ds, runs)
  {
    forall k | Deserted(k, ms, ds)
      ensures Deserted(k, ms', ds)
    {}
  }

  // ------------------------------------------------------------ hosts change

  predicate SameHost(h: Host, h': Host) {
    h' == h.(report := h'.report)
  }

  /** Hosts go or report something new. */
  predicate FewerHosts(hs: Hosts, hs': Hosts) {
    forall id | id in hs' :: id in hs && SameHost(hs[id], hs'[id])
  }

  lemma HeldByFewer(cs: Clusters, ms: Machines, hs: Hosts, hs': Hosts,
                    runs: map<nat, MachineRun>, books: map<nat, MachineBook>)
    requires FewerHosts(hs, hs') && Held(cs, ms, hs, runs, books)
    ensures Held(cs, ms, hs', runs, books)
  {}

  lemma CoveredByFewer(cs: Clusters, ds: Deployments, hs: Hosts, hs': Hosts)
    requires FewerHosts(hs, hs') && Covered(cs, ds, hs)
    ensures Covered(cs, ds, hs')
  {}

  lemma MachineRunsByFewer(cs: Clusters, ms: Machines, hs: Hosts, hs': Hosts, runs: map<nat, MachineRun>,
                           books: map<nat, MachineBook>, now: Time)
    requires FewerHosts(hs, hs') && MachineRuns(cs, ms, hs, runs, books, now)
    ensures MachineRuns(cs, ms, hs', runs, books, now)
  {
    forall u | u in books && Released(u, hs, books[u].orphans)
      ensures Released(u, hs', books[u].orphans)
    {}
  }

  lemma DeploymentRunsByFewer(cs: Clusters, ds: Deployments, hs: Hosts, hs': Hosts, runs: map<Key, DeploymentRun>)
    requires FewerHosts(hs, hs') && DeploymentRuns(cs, ds, hs, runs)
    ensures DeploymentRuns(cs, ds, hs', runs)
  {
    forall k | NoFirewallsOf(k, hs)
      ensures NoFirewallsOf(k, hs')
    {}
  }

  lemma ByFewerHosts(s: Sys, hs': Hosts)
    requires Inv(s) && FewerHosts(s.metal.hosts, hs')
    ensures Plain(s.kube.clusters, s.kube.deployments, hs')
    ensures Covered(s.kube.clusters, s.kube.deployments, hs')
    ensures Held(s.kube.clusters, s.kube.machines, hs', s.mruns, s.mbooks)
    ensures MachineRuns(s.kube.clusters, s.kube.machines, hs', s.mruns, s.mbooks, s.now)
    ensures DeploymentRuns(s.kube.clusters, s.kube.deployments, hs', s.fruns)
  {
    hide Homes, Owners, Covered, Held, Gates, MachineRuns, DeploymentRuns, MachineBooks, ClusterBooks, ClusterRuns;
    CoveredByFewer(s.kube.clusters, s.kube.deployments, s.metal.hosts, hs');
    HeldByFewer(s.kube.clusters, s.kube.machines, s.metal.hosts, hs', s.mruns, s.mbooks);
    MachineRunsByFewer(s.kube.clusters, s.kube.machines, s.metal.hosts, hs', s.mruns, s.mbooks, s.now);
    DeploymentRunsByFewer(s.kube.clusters, s.kube.deployments, s.metal.hosts, hs', s.fruns);
  }

  /** A new host that is no provider machine of a released object and no firewall
      of a released deployment. */
  lemma MachineRunsByMore(cs: Clusters, ms: Machines, hs: Hosts, id: string, h: Host, runs: map<nat, MachineRun>,
                          books: map<nat, MachineBook>, now: Time)
    requires id !in hs && MachineRuns(cs, ms, hs, runs, books, now)
    requires h.origin.ByMachine? ==> h.origin.uid !in runs
    ensures MachineRuns(cs, ms, hs[id := h], runs, books, now)
  {
    forall u | u in books && u in runs && Released(u, hs, books[u].orphans)
      ensures Released(u, hs[id := h], books[u].orphans)
    {}
  }

  lemma DeploymentRunsByMore(cs: Clusters, ds: Deployments, hs: Hosts, id: string, h: Host, runs: map<Key,
                             DeploymentRun>)
    requires id !in hs && DeploymentRuns(cs, ds, hs, runs)
    requires h.origin.ByDeployment? ==> h.origin.deployment !in runs
    ensures DeploymentRuns(cs, ds, hs[id := h], runs)
  {
    forall k | k in runs && NoFirewallsOf(k, hs)
      ensures NoFirewallsOf(k, hs[id := h])
    {}
  }
}

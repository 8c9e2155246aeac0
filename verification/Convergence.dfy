/** What repeated runs of one controller do: a successful run is a fixed point,
    a deletion can be repeated, and the grace period of control-plane machines. */
module Convergence {
  import opened Names
  import opened Store
  import opened Metal
  import M = MachineSpec
  import C = ClusterSpec
  import F = FirewallSpec

  // ---------------------------------------------------- address projection

  /** Interfaces of two kinds show their addresses, each as a type of its own. */
  predicate Internal(n: Nic) {
    n.kind == Some(PrivatePrimaryUnshared)
  }

  predicate Outward(n: Nic) {
    n.kind == Some(External)
  }

  function Width(n: Nic): nat {
    if Internal(n) || Outward(n) then |n.ips| else 0
  }

  /** Where the addresses of interface `n` start. */
  function Offset(nics: seq<Nic>, n: nat): nat
    requires n <= |nics|
  {
    if n == 0 then 0 else Offset(nics, n - 1) + Width(nics[n - 1])
  }

  /** Place `p` of the list holds address `i` of the interface, with its type. */
  predicate Holding(s: seq<Address>, p: nat, n: Nic, i: nat) {
    && p < |s| && i < |n.ips|
    && (Internal(n) ==> s[p] == Address(InternalIP, n.ips[i]))
    && (Outward(n) ==> s[p] == Address(ExternalIP, n.ips[i]))
  }

  lemma OfNic(n: Nic)
    ensures |M.NicAddresses(n)| == Width(n)
  {}

  lemma OfNicAt(n: Nic, i: nat)
    requires i < Width(n)
    ensures Holding(M.NicAddresses(n), i, n, i)
  {}

  lemma Joined(a: seq<Address>, b: seq<Address>, p: nat, n: Nic, i: nat)
    ensures Holding(a, p, n, i) ==> Holding(a + b, p, n, i)
    ensures Holding(b, p, n, i) ==> Holding(a + b, |a| + p, n, i)
  {
    hide Internal, Outward;
  }

  /** The addresses of the first `n` interfaces. */
  function FirstOf(nics: seq<Nic>, n: nat): seq<Address>
    requires n <= |nics|
  {
    M.AllNicAddresses(nics[..n])
  }

  lemma FirstSteps(nics: seq<Nic>, n: nat)
    requires 0 < n <= |nics|
    ensures FirstOf(nics, n) == FirstOf(nics, n - 1) + M.NicAddresses(nics[n - 1])
  {
    assert nics[..n][..n - 1] == nics[..n - 1];
    hide M.NicAddresses;
  }

  lemma {:induction false} Flattened(nics: seq<Nic>, n: nat)
    requires n <= |nics|
    ensures |FirstOf(nics, n)| == Offset(nics, n)
    decreases n
  {
    if n > 0 {
      hide M.NicAddresses, Width, FirstOf;
      Flattened(nics, n - 1);
      FirstSteps(nics, n);
      OfNic(nics[n - 1]);
    }
  }

  lemma {:induction false} FlattenedAt(nics: seq<Nic>, n: nat, j: nat, i: nat)
    requires j < n <= |nics| && i < Width(nics[j])
    ensures Holding(FirstOf(nics, n), Offset(nics, j) + i, nics[j], i)
    decreases n
  {
    hide M.NicAddresses, M.AllNicAddresses, Width, FirstOf, Offset, Holding;
    FirstSteps(nics, n);
    Flattened(nics, n - 1);
    var before, last := FirstOf(nics, n - 1), M.NicAddresses(nics[n - 1]);
    if j < n - 1 {
      FlattenedAt(nics, n - 1, j, i);
      Joined(before, last, Offset(nics, j) + i, nics[j], i);
    } else {
      OfNicAt(nics[j], i);
      Joined(before, last, i, nics[j], i);
    }
  }

  lemma {:induction false} Covers(nics: seq<Nic>, n: nat, p: nat) returns (j: nat, i: nat)
    requires n <= |nics| && p < Offset(nics, n)
    ensures j < n && i < Width(nics[j]) && p == Offset(nics, j) + i
  {
    if p < Offset(nics, n - 1) {
      j, i := Covers(nics, n - 1, p);
    } else {
      j, i := n - 1, p - Offset(nics, n - 1);
    }
  }

  function Hostnames(r: Report): nat {
    if r.hostname.Some? then 1 else 0
  }

  /** The address list of a machine: its hostname, if it has one, then for every
      interface of one of the two kinds its addresses, in order: as internal ones for
      the private network, as external ones for external networks. */
  lemma AddressProjection(r: Report, j: nat, i: nat)
    requires j < |r.nics| && i < Width(r.nics[j])
    ensures var a, p := M.Addresses(r), Hostnames(r) + Offset(r.nics, j) + i;
      && |a| == Hostnames(r) + Offset(r.nics, |r.nics|) && p < |a|
      && (Internal(r.nics[j]) ==> a[p] == Address(InternalIP, r.nics[j].ips[i]))
      && (Outward(r.nics[j]) ==> a[p] == Address(ExternalIP, r.nics[j].ips[i]))
      && (r.hostname.Some? ==> a[0] == Address(HostName, r.hostname.value))
  {
    assert r.nics[..|r.nics|] == r.nics;
    FlattenedAt(r.nics, |r.nics|, j, i);
    Flattened(r.nics, |r.nics|);
    hide Offset, M.AllNicAddresses, Internal, Outward;
    assert |M.Addresses(r)| == Hostnames(r) + |FirstOf(r.nics, |r.nics|)|;
  }

  /** Nothing else is in the list: every position behind the hostname is that of
      one address of one interface of those kinds. */
  lemma NoOtherAddress(r: Report, p: nat) returns (j: nat, i: nat)
    requires Hostnames(r) <= p < |M.Addresses(r)|
    ensures j < |r.nics| && i < Width(r.nics[j]) && p == Hostnames(r) + Offset(r.nics, j) + i
    ensures (Internal(r.nics[j]) && M.Addresses(r)[p] == Address(InternalIP, r.nics[j].ips[i]))
         || (Outward(r.nics[j]) && M.Addresses(r)[p] == Address(ExternalIP, r.nics[j].ips[i]))
  {
    assert r.nics[..|r.nics|] == r.nics;
    Flattened(r.nics, |r.nics|);
    j, i := Covers(r.nics, |r.nics|, p - Hostnames(r));
    AddressProjection(r, j, i);
  }

  // ----------------------------------------------------------- labels and state

  /** What the provider says for a label, if anything. */
  function Reported(h: Host, l: Label): Option<string> {
    match l
    case HostnameLabel => h.report.hostname
    case ZoneLabel => h.partition
    case RackLabel => if h.report.rack == "" then None else Some(h.report.rack)
    case AsnLabel => h.report.asn
    case ChassisLabel => h.report.chassis
  }

  /** Alive, in no crash loop and with no failing reclaim. */
  predicate Sound(r: Report) {
    && r.liveliness == Some(Alive)
    && !(r.events.Some? && (r.events.value.crashLoop == Some(true) || r.events.value.failedReclaim == Some(true)))
  }

  /** The newest event is the machine phoning home. */
  predicate Booted(r: Report) {
    match r.events
    case None => false
    case Some(e) => e.log != [] && e.log[0] == Some(PhonedHome)
  }

  /** What object `m'` says of label `l` and of its state when `h`, known as `id`, is
      its machine. */
  predicate Shows(m: Machine, m': Machine, id: string, h: Host, l: Label) {
    && m'.providerID == "metal://" + Deref(h.partition) + "/" + id
    && m'.failure == m.failure && m'.finalizer == m.finalizer
    && (m'.ready <==> m.ready || Booted(h.report))
    && (m'.provisioned <==> m.provisioned || Booted(h.report))
    && m'.conds == m.conds[Paused := Cond(false, NotPaused)][MachineCreated := Cond(true, Created)]
         [MachineHealthy := if Sound(h.report) then Cond(true, Healthy) else Cond(false, NotHealthy)]
         [MachineReady := if Booted(h.report) then Cond(true, IsReady) else Cond(false, NotReady)]
    && (l in m'.labels <==> Reported(h, l).Some? || l in m.labels)
    && (Reported(h, l).Some? ==> m'.labels[l] == Reported(h, l).value)
    && (Reported(h, l).None? && l in m.labels ==> m'.labels[l] == m.labels[l])
    && m'.addresses == M.Addresses(h.report)
  }

  /** After a successful run the object shows the machine it records: it becomes ready
      and provisioned exactly when the newest event of the machine is its phoning home,
      the conditions say whether it is sound and has phoned home, every label is
      what the provider says for it, and stays as it was where the provider says nothing,
      the addresses are those of the machine, and the run asks to come again, after
      thirty seconds, exactly until both hold. */
  lemma ShowsTheMachine(uid: nat, m: Machine, c: Cluster, metal: Metal, rep: M.Replies, now: Time, l: Label)
    requires M.PlainPartitions(metal) && Lacks(c.partition, '/')
    requires m.finalizer && m.deletion.None? && !M.Run(uid, m, c, metal, rep, false, now).failed
    ensures var o := M.Run(uid, m, c, metal, rep, false, now); var id := M.RecordedID(o.obj);
      && o.obj.providerID != "" && id in o.metal.hosts && o.metal.hosts[id].project == c.project
      && Shows(m, o.obj, id, o.metal.hosts[id], l)
      && o.requeue == if Sound(o.metal.hosts[id].report) && Booted(o.metal.hosts[id].report)
                      then None else Some(30 * 1000)
  {
    var p := m.(conds := SetPaused(m.conds, false, NotPaused));
    var o := M.Run(uid, m, c, metal, rep, false, now);
    var id, h := if m.providerID != "" then M.RecordedID(m) else rep.alloc.id,
      if m.providerID != "" then metal.hosts[M.RecordedID(m)] else M.MachineHost(uid, p, c, c.netId.value, rep.report);
    PartitionOf(uid, p, c, rep.report);
    ObservedRun(uid, m, p, c, metal, rep, now, id, h);
    ObservedShows(m, p, id, h, l);
    assert M.RecordedID(o.obj) == id;
    hide M.Run, Shows, Sound, M.Observed, M.ObservedRequeue, Booted, DecodeProviderID, M.MachineHost;
  }

  lemma ObservedShows(m: Machine, p: Machine, id: string, h: Host, l: Label)
    requires p == m.(conds := SetPaused(m.conds, false, NotPaused))
    ensures Shows(m, M.Observed(p, id, h), id, h, l)
    ensures M.ObservedRequeue(h) == if Sound(h.report) && Booted(h.report) then None else Some(30 * 1000)
  {
    LabelShows(m.labels, h, l);
    hide M.Labelled, Reported, M.Addresses, DecodeProviderID;
  }

  lemma LabelShows(labels: map<Label, string>, h: Host, l: Label)
    ensures var r := M.Labelled(labels, h);
      && (l in r <==> Reported(h, l).Some? || l in labels)
      && (Reported(h, l).Some? ==> r[l] == Reported(h, l).value)
      && (Reported(h, l).None? && l in labels ==> r[l] == labels[l])
  {}

  /** A successful run has found, or been given, host `h` under `id` and records it. */
  lemma ObservedRun(uid: nat, m: Machine, p: Machine, c: Cluster, metal: Metal, rep: M.Replies, now: Time, id: string,
                    h: Host)
    requires m.finalizer && m.deletion.None? && p == m.(conds := SetPaused(m.conds, false, NotPaused))
    requires !M.Run(uid, m, c, metal, rep, false, now).failed
    requires m.providerID == "" ==>
      c.netId.Some? && id == rep.alloc.id && h == M.MachineHost(uid, p, c, c.netId.value, rep.report)
    requires m.providerID != "" ==> id == M.RecordedID(m) && id in metal.hosts && h == metal.hosts[id]
    ensures var o := M.Run(uid, m, c, metal, rep, false, now);
      && o.obj == M.Observed(p, id, h) && o.requeue == M.ObservedRequeue(h)
      && id in o.metal.hosts && o.metal.hosts[id] == h && (m.providerID != "" ==> h.project == c.project)
  {
    hide M.Observed, M.MachineHost, M.ObservedRequeue, DecodeProviderID;
  }

  // ------------------------------------------------------------ fixed points

  lemma LabelledAgain(labels: map<Label, string>, h: Host)
    ensures M.Labelled(M.Labelled(labels, h), h) == M.Labelled(labels, h)
  {}

  lemma ObservedAgain(m: Machine, id: string, h: Host)
    ensures M.Observed(M.Observed(m, id, h), id, h) == M.Observed(m, id, h)
  {
    LabelledAgain(m.labels, h);
    hide M.Labelled, M.Addresses, M.Troubles, M.HasPhonedHome, EncodeProviderID, DecodeProviderID;
  }

  /** A machine that was provisioned or looked up successfully stays as it is: the
      next run allocates nothing, and labels, addresses, conditions and provider
      id are those just stored. */
  lemma MachineFixedPoint(uid: nat, m: Machine, c: Cluster, metal: Metal, rep: M.Replies, rep': M.Replies, now: Time,
                          now': Time)
    requires M.PlainPartitions(metal) && Lacks(c.partition, '/')
    requires m.finalizer && m.deletion.None? && rep'.find
    requires !M.Run(uid, m, c, metal, rep, false, now).failed
    ensures var o := M.Run(uid, m, c, metal, rep, false, now);
      && o.obj.providerID != ""
      && M.Run(uid, o.obj, c, o.metal, rep', false, now') == M.Outcome(o.obj, o.metal, o.requeue, false)
  {
    hide M.Observed, M.MachineHost, M.ObservedRequeue;
    var p := m.(conds := SetPaused(m.conds, false, NotPaused));
    var id, h := if m.providerID != "" then M.RecordedID(m) else rep.alloc.id,
      if m.providerID != "" then metal.hosts[M.RecordedID(m)] else M.MachineHost(uid, p, c, c.netId.value, rep.report);
    assert M.Run(uid, m, c, metal, rep, false, now).obj == M.Observed(p, id, h);
    assert Lacks(Deref(h.partition), '/') && h.project == c.project by { PartitionOf(uid, p, c, rep.report); }
    ObservedAgain(p, id, h);
    KeepsPaused(p, id, h);
  }

  lemma PartitionOf(uid: nat, m: Machine, c: Cluster, report: Report)
    requires c.netId.Some?
    ensures var h := M.MachineHost(uid, m, c, c.netId.value, report);
      h.partition == Some(c.partition) && h.project == c.project
  {}

  lemma KeepsPaused(m: Machine, id: string, h: Host)
    requires m.conds == SetPaused(m.conds, false, NotPaused)
    ensures var o := M.Observed(m, id, h); o.(conds := SetPaused(o.conds, false, NotPaused)) == o
  {
    hide M.Addresses, M.Troubles, M.HasPhonedHome, EncodeProviderID, DecodeProviderID, M.Labelled;
  }

  predicate Holds(c: Cluster, t: CondType) {
    t in c.conds && c.conds[t] == Cond(true, Ensured)
  }

  /** What a successful provisioning leaves: every later one finds it in place. */
  predicate InPlace(c: Cluster, owned: bool) {
    && c.netId.Some? && c.ready && c.provisioned && Holds(c, NodeNetworkEnsured)
    && (c.fwRef.Some? ==> owned && Holds(c, DeploymentEnsured))
    && (c.endpoint.host == "" ==>
          c.cpIp == Some("") && c.endpoint == Endpoint("", 443) && Holds(c, ControlPlaneIPEnsured))
  }

  predicate Owned(k: Key, c: Cluster, deps: C.Deployments) {
    c.fwRef.Some? && C.DeploymentKey(k, c) in deps && deps[C.DeploymentKey(k, c)].owner == Some(k)
  }

  predicate SamePaused(c: Cluster, c': Cluster) {
    Paused in c.conds ==> Paused in c'.conds && c'.conds[Paused] == c.conds[Paused]
  }

  lemma NetworkInPlace(c: Cluster, deps: C.Deployments, metal: Metal, rep: C.Replies)
    ensures var a := C.EnsureNetwork(c, deps, metal, rep);
      !a.failed ==> Holds(a.obj, NodeNetworkEnsured) && SamePaused(c, a.obj)
  {
    hide Spends, SpendsFor;
  }

  lemma DeploymentInPlace(k: Key, a: C.Outcome, rep: C.Replies)
    ensures var b := C.EnsureDeployment(k, a, rep);
      !b.failed && a.obj.netId.Some? && Holds(a.obj, NodeNetworkEnsured) ==>
        && b.obj.netId.Some? && Holds(b.obj, NodeNetworkEnsured) && SamePaused(a.obj, b.obj)
        && (b.obj.fwRef.Some? ==> Owned(k, b.obj, b.deployments) && Holds(b.obj, DeploymentEnsured))
  {
    hide C.Adopt;
  }

  lemma EndpointInPlace(k: Key, b: C.Outcome, rep: C.Replies)
    requires b.obj.netId.Some? && Holds(b.obj, NodeNetworkEnsured)
    requires b.obj.fwRef.Some? ==> Owned(k, b.obj, b.deployments) && Holds(b.obj, DeploymentEnsured)
    ensures var o := C.EnsureEndpoint(b, rep);
      !o.failed ==> InPlace(o.obj, Owned(k, o.obj, o.deployments)) && SamePaused(b.obj, o.obj)
  {
    hide Spends, SpendsFor;
  }

  lemma ProvisionedIsInPlace(k: Key, c: Cluster, deps: C.Deployments, metal: Metal, rep: C.Replies)
    requires !C.Reconcile(k, c, deps, metal, rep).failed
    ensures var o := C.Reconcile(k, c, deps, metal, rep);
      InPlace(o.obj, Owned(k, o.obj, o.deployments)) && SamePaused(c, o.obj)
  {
    NetworkInPlace(c, deps, metal, rep);
    var a := C.EnsureNetwork(c, deps, metal, rep);
    DeploymentInPlace(k, a, rep);
    EndpointInPlace(k, C.EnsureDeployment(k, a, rep), rep);
    hide C.EnsureNetwork, C.EnsureDeployment, C.EnsureEndpoint, Spends, SpendsFor, C.Adopt, Owned, InPlace, Holds;
  }

  predicate Missing(c: Cluster, t: CondType) {
    t in c.conds && c.conds[t] == Cond(false, InternalError)
  }

  lemma NetworkMissing(c: Cluster, deps: C.Deployments, metal: Metal, rep: C.Replies)
    ensures var a := C.EnsureNetwork(c, deps, metal, rep);
      a.failed ==> a.obj.netId.None? && Missing(a.obj, NodeNetworkEnsured)
  {
    hide Spends, SpendsFor;
  }

  lemma DeploymentMissing(k: Key, a: C.Outcome, rep: C.Replies)
    requires a.obj.netId.Some? && Holds(a.obj, NodeNetworkEnsured)
    ensures var b := C.EnsureDeployment(k, a, rep);
      b.failed ==> b.obj.fwRef.Some? && Missing(b.obj, DeploymentEnsured) && Holds(b.obj, NodeNetworkEnsured)
  {
    hide C.Adopt;
  }

  lemma AddressMissing(b: C.Outcome, rep: C.Replies)
    ensures var o := C.EnsureEndpoint(b, rep);
      o.failed ==>
        && o.obj.endpoint.host == "" && Missing(o.obj, ControlPlaneIPEnsured)
        && (Holds(b.obj, NodeNetworkEnsured) ==> Holds(o.obj, NodeNetworkEnsured))
        && (Holds(b.obj, DeploymentEnsured) ==> Holds(o.obj, DeploymentEnsured))
  {
    hide Spends, SpendsFor, C.EnsureIP;
  }

  /** A provisioning that fails says where: the first of network, deployment and
      address that is not in place has its condition set to false, and those before
      it are in place. */
  lemma FailureShowsWhere(k: Key, c: Cluster, deps: C.Deployments, metal: Metal, rep: C.Replies)
    requires C.Reconcile(k, c, deps, metal, rep).failed
    ensures var o := C.Reconcile(k, c, deps, metal, rep).obj;
      || (o.netId.None? && Missing(o, NodeNetworkEnsured))
      || (Holds(o, NodeNetworkEnsured) && o.fwRef.Some? && Missing(o, DeploymentEnsured))
      || (Holds(o, NodeNetworkEnsured) && (o.fwRef.Some? ==> Holds(o, DeploymentEnsured))
          && o.endpoint.host == "" && Missing(o, ControlPlaneIPEnsured))
  {
    var a := C.EnsureNetwork(c, deps, metal, rep);
    NetworkMissing(c, deps, metal, rep);
    NetworkInPlace(c, deps, metal, rep);
    if !a.failed {
      var b := C.EnsureDeployment(k, a, rep);
      DeploymentMissing(k, a, rep);
      DeploymentInPlace(k, a, rep);
      AddressMissing(b, rep);
    }
    hide C.EnsureNetwork, C.EnsureDeployment, C.EnsureEndpoint, Spends, SpendsFor, C.Adopt, Owned, Holds, Missing;
  }

  lemma InPlaceStays(k: Key, c: Cluster, deps: C.Deployments, metal: Metal, rep: C.Replies)
    requires InPlace(c, Owned(k, c, deps)) && rep.getDeployment
    ensures C.Reconcile(k, c, deps, metal, rep) == C.Outcome(c, deps, metal, false)
  {
    hide Spends, SpendsFor;
  }

  /** A cluster that was provisioned successfully stays as it is: the next run
      allocates nothing and changes neither the object nor the deployment. */
  lemma ClusterFixedPoint(k: Key, c: Cluster, deps: C.Deployments, metal: Metal, rep: C.Replies, rep': C.Replies)
    requires c.finalizer && c.deletion.None? && rep'.getDeployment
    requires !C.RunUp(k, c, deps, metal, rep, false).failed
    ensures var o := C.RunUp(k, c, deps, metal, rep, false);
      C.RunUp(k, o.obj, o.deployments, o.metal, rep', false) == C.Outcome(o.obj, o.deployments, o.metal, false)
  {
    var p := C.Begin(c, false);
    ProvisionedIsInPlace(k, p, deps, metal, rep);
    var o := C.Reconcile(k, p, deps, metal, rep);
    InPlaceStays(k, o.obj, o.deployments, o.metal, rep');
    assert C.Begin(o.obj, false) == o.obj;
    hide C.Reconcile, Spends, SpendsFor, InPlace, C.Adopt;
  }

  /** A firewall deployment that was provisioned successfully stays as it is, with
      the template read again. */
  lemma DeploymentFixedPoint(k: Key, d: Deployment, ck: Key, c: Cluster, ts: F.Templates, metal: Metal,
                             rep: F.Replies, rep': F.Replies, left: bool)
    requires d.finalizer && d.deletion.None? && F.TemplateKey(k, d) in ts
    requires !F.Run(k, d, ck, c, ts[F.TemplateKey(k, d)], left, ts, metal, rep, false).failed
    ensures var o := F.Run(k, d, ck, c, ts[F.TemplateKey(k, d)], left, ts, metal, rep, false);
      && o.obj.ref.Some? && o.obj.ready && F.TemplateKey(k, d) in o.templates
      && F.Run(k, o.obj, ck, c, o.templates[F.TemplateKey(k, d)], left, o.templates, o.metal, rep', false)
         == F.Outcome(o.obj, o.templates, o.metal, false, false)
  {
    var b, t := F.Begin(d, false), ts[F.TemplateKey(k, d)];
    var o := F.Reconcile(k, b, ck, c, t, ts, metal, rep);
    ProvisionsOnly(k, d, ck, c, t, left, ts, metal, rep);
    ReconcileAgain(k, b, ck, c, ts, metal, rep, rep');
    ProvisionsOnly(k, o.obj, ck, c, o.templates[F.TemplateKey(k, d)], left, o.templates, o.metal, rep');
    assert F.Begin(o.obj, false) == o.obj;
    hide F.Run, F.Reconcile;
  }

  lemma ProvisionsOnly(k: Key, d: Deployment, ck: Key, c: Cluster, t: Template, left: bool, ts: F.Templates,
                       metal: Metal, rep: F.Replies)
    requires d.finalizer && d.deletion.None?
    ensures F.Run(k, d, ck, c, t, left, ts, metal, rep, false)
         == F.Reconcile(k, F.Begin(d, false), ck, c, t, ts, metal, rep)
  {
    hide F.Reconcile, F.Delete;
  }

  lemma ReconcileAgain(k: Key, d: Deployment, ck: Key, c: Cluster, ts: F.Templates, metal: Metal, rep: F.Replies,
                       rep': F.Replies)
    requires F.TemplateKey(k, d) in ts
    requires !F.Reconcile(k, d, ck, c, ts[F.TemplateKey(k, d)], ts, metal, rep).failed
    ensures var o := F.Reconcile(k, d, ck, c, ts[F.TemplateKey(k, d)], ts, metal, rep);
      && o.obj.ref.Some? && o.obj.ready && o.obj.conds == d.conds && o.obj.template == d.template
      && o.obj.deletion == d.deletion && F.TemplateKey(k, d) in o.templates
      && F.Reconcile(k, o.obj, ck, c, o.templates[F.TemplateKey(k, d)], o.templates, o.metal, rep')
         == F.Outcome(o.obj, o.templates, o.metal, false, false)
  {
    hide F.FirewallHost, EncodeProviderID, DecodeProviderID, F.NewFirewall;
  }

  /** The reference a deployment stores is read back by the same function as a
      provider id, and names the firewall that was allocated. */
  lemma ManagedRefDecodes(k: Key, d: Deployment, ck: Key, c: Cluster, t: Template, left: bool, ts: F.Templates,
                          metal: Metal, rep: F.Replies)
    requires d.finalizer && d.deletion.None? && d.ref.None? && Lacks(c.partition, '/')
    ensures var o := F.Run(k, d, ck, c, t, left, ts, metal, rep, false);
      !o.failed ==>
        && o.obj.ref.Some? && DecodeProviderID(o.obj.ref.value) !in metal.hosts
        && DecodeProviderID(o.obj.ref.value) in o.metal.hosts
        && o.metal.hosts[DecodeProviderID(o.obj.ref.value)].origin == ByDeployment(ck, k, Deref(c.netId))
  {
    if rep.alloc.Granted? { ProviderIDRoundTrip(Some(c.partition), rep.alloc.id); }
    ProvisionsOnly(k, d, ck, c, t, left, ts, metal, rep);
    hide F.Run, EncodeProviderID, DecodeProviderID, F.FirewallNetworks, F.Egress, F.Ingress, F.OwnTemplate;
  }

  // ----------------------------------------------------- repeated deletions

  /** A run for a deployment that is being deleted allocates nothing: whatever the
      search asks for, the firewalls that answer it become fewer, and the finalizer
      goes only when none of its own is left. */
  lemma ReclaimShrinks(k: Key, d: Deployment, ck: Key, c: Cluster, t: Template, left: bool, ts: F.Templates,
                       metal: Metal, rep: F.Replies, paused: bool, tags: seq<Tag>)
    requires d.deletion.Some? && d.finalizer
    ensures var o := F.Run(k, d, ck, c, t, left, ts, metal, rep, paused);
      && Matching(o.metal, c.partition, c.project, tags) <= Matching(metal, c.partition, c.project, tags)
      && (!o.obj.finalizer ==>
            c.netId.Some? && Matching(o.metal, c.partition, c.project, FirewallTags(c.netId.value, ck, k)) == {})
  {
    var o := F.Run(k, d, ck, c, t, left, ts, metal, rep, paused);
    if o.metal != metal || !o.obj.finalizer {
      var order, own := rep.search.value, FirewallTags(c.netId.value, ck, k);
      assert Elems(order) <= metal.hosts.Keys;
      F.LoopFrees(metal, order, rep.frees, |order|);
      if !o.obj.finalizer {
        F.NoErrorsFreeAll(metal, order, rep.frees);
        assert forall id | id in Matching(o.metal, c.partition, c.project, own) :: id in Elems(order);
      }
    }
    hide F.Run, FirewallTags, Matches, HasAll;
  }

  /** Partial failure of the loop, in terms of the live firewalls: those that stay
      are those whose free was refused. */
  lemma LoopLeavesRefused(metal: Metal, partition: string, project: string, tags: seq<Tag>, order: seq<string>,
                          frees: seq<Release>)
    requires Lists(order, Matching(metal, partition, project, tags))
    ensures forall id :: id in Matching(F.FreeFirst(metal, order, frees, |order|), partition, project, tags)
              <==> exists i :: 0 <= i < |order| && order[i] == id && F.ReleaseAt(frees, i).Refused?
  {
    hide Matches;
    assert Elems(order) <= metal.hosts.Keys;
    F.LoopFrees(metal, order, frees, |order|);
    var m := F.FreeFirst(metal, order, frees, |order|);
    forall id
      ensures id in Matching(m, partition, project, tags)
         <==> exists i :: 0 <= i < |order| && order[i] == id && F.ReleaseAt(frees, i).Refused?
    {
      if id in Matching(m, partition, project, tags) {
        assert id in Elems(order);
        var i :| 0 <= i < |order| && order[i] == id;
        assert id !in F.FreedAmong(order, frees, |order|);
        assert F.ReleaseAt(frees, i).Refused?;
      }
      if i: int :| 0 <= i < |order| && order[i] == id && F.ReleaseAt(frees, i).Refused? {
        assert id in Elems(order);
        assert id !in F.FreedAmong(order, frees, |order|);
      }
    }
  }

  /** The teardown of a cluster repeated after its patch was lost takes nothing
      away a second time. It can succeed exactly when there is no network to free
      or the provider accepts that an absent network is freed: the code asks for
      the network once more and has no branch for it being absent. */
  lemma TeardownAgain(c: Cluster, deps: C.Deployments, metal: Metal, rep: C.Replies)
    requires !C.Teardown(c, deps, metal, rep).failed
    ensures var m := C.Teardown(c, deps, metal, rep).metal;
      && (forall rep' :: C.Teardown(c, deps, m, rep').metal == m)
      && ((exists rep' :: !C.Teardown(c, deps, m, rep').failed) <==> c.netId.None? || m.lenient)
  {
    var m := C.Teardown(c, deps, metal, rep).metal;
    forall rep'
      ensures C.Teardown(c, deps, m, rep').metal == m
      ensures !C.Teardown(c, deps, m, rep').failed ==> c.netId.None? || m.lenient
      ensures rep'.findIP && rep'.freeNet.Freed? && (c.netId.None? || m.lenient) ==>
          !C.Teardown(c, deps, m, rep').failed
    {
      AgainOnce(c, deps, metal, rep, rep');
    }
    var good := rep.(findIP := true, freeIP := Freed, freeNet := Freed);
    assert c.netId.None? || m.lenient ==> !C.Teardown(c, deps, m, good).failed;
  }

  lemma AgainOnce(c: Cluster, deps: C.Deployments, metal: Metal, rep: C.Replies, rep': C.Replies)
    requires !C.Teardown(c, deps, metal, rep).failed
    ensures var m := C.Teardown(c, deps, metal, rep).metal;
      && C.Teardown(c, deps, m, rep').metal == m
      && (!C.Teardown(c, deps, m, rep').failed ==> c.netId.None? || m.lenient)
      && (rep'.findIP && rep'.freeNet.Freed? && (c.netId.None? || m.lenient) ==> !C.Teardown(c, deps, m, rep').failed)
  {
    var m := C.Teardown(c, deps, metal, rep).metal;
    assert c.netId.Some? ==> m.nets - {c.netId.value} == m.nets;
    assert c.cpIp.Some? && c.cpIp.value !in m.ips ==> m.ips - {c.cpIp.value} == m.ips;
  }

  // ---------------------------------------------------------- grace period

  /** When the finalizer of a machine object goes, if its deletion runs at `t`
      and then whenever the run before asked for it. */
  function RemovedAt(m: Machine, c: Cluster, metal: Metal, rep: M.Replies, t: Time, runs: nat): Option<Time>
    requires m.deletion.Some?
    decreases runs
  {
    var o := M.Delete(m, c, metal, rep, t);
    if !o.obj.finalizer then Some(t)
    else if runs == 0 || o.requeue.None? then None
    else RemovedAt(m, c, o.metal, rep, t + o.requeue.value, runs - 1)
  }

  /** A control-plane machine first seen absent within the grace period is let go
      after at most three more runs, in the fifteen seconds behind the period. */
  lemma GraceBound(m: Machine, c: Cluster, metal: Metal, rep: M.Replies, t: Time)
    requires m.finalizer && m.controlPlane && m.deletion.Some? && M.Find(m, c, metal, rep.find).Absent?
    requires m.deletion.value <= t <= m.deletion.value + GRACE
    ensures var r := RemovedAt(m, c, metal, rep, t, 3);
      r.Some? && m.deletion.value + GRACE < r.value <= m.deletion.value + GRACE + GRACE / 2
  {
    var step := GRACE / 2;
    if t + step > m.deletion.value + GRACE {
      Waits(m, c, metal, rep, t, 3, 1);
    } else if t + 2 * step > m.deletion.value + GRACE {
      Waits(m, c, metal, rep, t, 3, 2);
    } else {
      Waits(m, c, metal, rep, t, 3, 3);
    }
  }

  /** An absent control-plane machine waits in steps of half the period. */
  lemma {:induction false} Waits(m: Machine, c: Cluster, metal: Metal, rep: M.Replies, t: Time, runs: nat, n: nat)
    requires m.finalizer && m.controlPlane && m.deletion.Some? && M.Find(m, c, metal, rep.find).Absent?
    requires n <= runs && t + n * (GRACE / 2) > m.deletion.value + GRACE
    requires n > 0 ==> t + (n - 1) * (GRACE / 2) <= m.deletion.value + GRACE
    ensures RemovedAt(m, c, metal, rep, t, runs) == Some(t + n * (GRACE / 2))
    decreases n
  {
    if n > 0 {
      Waits(m, c, metal, rep, t + GRACE / 2, runs - 1, n - 1);
    }
  }

  /** On the path that frees the machine first, the one-minute requeue clears the
      period: the next run lets the object go. */
  lemma FreedFirst(m: Machine, c: Cluster, metal: Metal, rep: M.Replies, rep': M.Replies, t: Time)
    requires m.finalizer && m.controlPlane && m.deletion.Some? && t >= m.deletion.value && rep'.find
    requires M.Delete(m, c, metal, rep, t).requeue == Some(MINUTE)
    ensures var o := M.Delete(m, c, metal, rep, t);
      && o.obj.finalizer && M.RecordedID(m) in metal.hosts && M.RecordedID(m) !in o.metal.hosts
      && !M.Delete(o.obj, c, o.metal, rep', t + MINUTE).obj.finalizer
  {}
}

/** What a patch stores, and what whole runs in a row make of it: the next run finds
    stored what the last one did, and leaves everything as it is. */
module Patches {
  import opened Names
  import opened Store
  import opened Metal
  import opened Protocol
  import opened Invariant
  import opened Outcomes
  import opened Requests
  import opened Convergence
  import R = Reachable
  import M = MachineSpec
  import C = ClusterSpec
  import F = FirewallSpec
  import MC = MachineController
  import CC = ClusterController
  import FC = FirewallController

  // -------------------------------------------------------------- one patch

  /** One field of an object: what the run changed it to, or else what is stored. */
  predicate Carried<T(==)>(stored: T, before: T, after: T, now: T) {
    && (after != before ==> now == after)
    && (after == before ==> now == stored)
  }

  /** An applied patch of a machine object, field by field; a lost one stores nothing. */
  lemma MachinePatch(s: Sys, u: nat, applied: bool)
    requires u in s.mruns && s.mruns[u].MActed? && u in s.kube.machines && u in s.mbooks
    ensures var t, m, r := PatchMachine(s, u, applied), s.kube.machines[u], s.mruns[u]; var b, a := r.before, r.after;
      && t.mruns == s.mruns - {u} && u in t.kube.machines && var n := t.kube.machines[u];
      && t.kube == s.kube.(machines := s.kube.machines[u := n]) && (!applied ==> n == m)
      && n == m.(providerID := n.providerID, finalizer := n.finalizer, ready := n.ready, provisioned := n.provisioned,
                 failure := n.failure, labels := n.labels, addresses := n.addresses, conds := n.conds)
      && (applied ==>
            && Carried(m.providerID, b.providerID, a.providerID, n.providerID)
            && Carried(m.finalizer, b.finalizer, a.finalizer, n.finalizer)
            && Carried(m.ready, b.ready, a.ready, n.ready)
            && Carried(m.provisioned, b.provisioned, a.provisioned, n.provisioned)
            && Carried(m.failure, b.failure, a.failure, n.failure)
            && Carried(m.labels, b.labels, a.labels, n.labels)
            && Carried(m.addresses, b.addresses, a.addresses, n.addresses)
            && Carried(m.conds, b.conds, a.conds, n.conds))
  {
    assert s.kube.machines[u := s.kube.machines[u]] == s.kube.machines;
  }

  /** The same for a cluster object. */
  lemma ClusterPatch(s: Sys, k: Key, applied: bool)
    requires k in s.cruns && s.cruns[k].CActed? && k in s.kube.clusters && k in s.cbooks
    ensures var t, c, r := PatchCluster(s, k, applied), s.kube.clusters[k], s.cruns[k]; var b, a := r.before, r.after;
      && t.cruns == s.cruns - {k} && k in t.kube.clusters && var n := t.kube.clusters[k];
      && t.kube == s.kube.(clusters := s.kube.clusters[k := n]) && (!applied ==> n == c)
      && n == c.(netId := n.netId, cpIp := n.cpIp, endpoint := n.endpoint, finalizer := n.finalizer,
                 ready := n.ready, provisioned := n.provisioned, conds := n.conds)
      && (applied ==>
            && Carried(c.netId, b.netId, a.netId, n.netId)
            && Carried(c.cpIp, b.cpIp, a.cpIp, n.cpIp)
            && Carried(c.endpoint, b.endpoint, a.endpoint, n.endpoint)
            && Carried(c.finalizer, b.finalizer, a.finalizer, n.finalizer)
            && Carried(c.ready, b.ready, a.ready, n.ready)
            && Carried(c.provisioned, b.provisioned, a.provisioned, n.provisioned)
            && Carried(c.conds, b.conds, a.conds, n.conds))
  {
    assert s.kube.clusters[k := s.kube.clusters[k]] == s.kube.clusters;
  }

  /** The same for a firewall deployment. */
  lemma DeploymentPatch(s: Sys, k: Key, applied: bool)
    requires k in s.fruns && s.fruns[k].FActed? && k in s.kube.deployments
    ensures var t, d, r := PatchDeployment(s, k, applied), s.kube.deployments[k], s.fruns[k];
      var b, a := r.before, r.after;
      && t.fruns == s.fruns - {k} && k in t.kube.deployments && var n := t.kube.deployments[k];
      && t.kube == s.kube.(deployments := s.kube.deployments[k := n]) && (!applied ==> n == d)
      && n == d.(ref := n.ref, finalizer := n.finalizer, ready := n.ready, conds := n.conds)
      && (applied ==>
            && Carried(d.ref, b.ref, a.ref, n.ref)
            && Carried(d.finalizer, b.finalizer, a.finalizer, n.finalizer)
            && Carried(d.ready, b.ready, a.ready, n.ready)
            && Carried(d.conds, b.conds, a.conds, n.conds))
  {
    assert s.kube.deployments[k := s.kube.deployments[k]] == s.kube.deployments;
  }

  // --------------------------------------------------- patches in every run

  /** No update is lost: in every run, whatever happened since the object was read, an
      applied patch stores the machine object as the run left it, with the deletion
      request and the bootstrap secret as they are by now. */
  lemma MachinePatchLosesNothing(s: Sys, u: nat)
    requires Reached(s) && u in s.mruns && s.mruns[u].MActed?
    ensures u in s.kube.machines && u in s.mbooks
    ensures var m := s.kube.machines[u];
      PatchMachine(s, u, true).kube.machines[u] == s.mruns[u].after.(deletion := m.deletion, secret := m.secret)
  {
    hide Reached, Inv, PatchMachine;
    R.ReachedInv(s);
    MachineSnapshot(s, u);
    MachinePatch(s, u, true);
  }

  lemma MachineSnapshot(s: Sys, u: nat)
    requires Inv(s) && u in s.mruns && s.mruns[u].MActed?
    ensures u in s.kube.machines && u in s.mbooks
    ensures StableMachine(s.kube.machines[u], s.mruns[u].before) && M.SameMachine(s.mruns[u].after, s.mruns[u].before)
  {
    hide Plain, Homes, Owners, Covered, Held, MachineBooks, ClusterBooks, ClusterRuns, DeploymentRuns, Gates;
    assert MachineRunOk(u, s.mruns[u], s.kube.machines[u], s.kube.clusters, s.metal.hosts, s.mbooks[u].orphans, s.now);
  }

  /** The same for a cluster object: only the deletion request may be newer. */
  lemma ClusterPatchLosesNothing(s: Sys, k: Key)
    requires Reached(s) && k in s.cruns && s.cruns[k].CActed?
    ensures k in s.kube.clusters && k in s.cbooks
    ensures PatchCluster(s, k, true).kube.clusters[k] == s.cruns[k].after.(deletion := s.kube.clusters[k].deletion)
  {
    hide Reached, Inv, PatchCluster;
    R.ReachedInv(s);
    ClusterSnapshot(s, k);
    ClusterPatch(s, k, true);
  }

  lemma ClusterSnapshot(s: Sys, k: Key)
    requires Inv(s) && k in s.cruns && s.cruns[k].CActed?
    ensures k in s.kube.clusters && k in s.cbooks
    ensures StableCluster(s.kube.clusters[k], s.cruns[k].before) && C.SameCluster(s.cruns[k].before, s.cruns[k].after)
  {
    hide Plain, Homes, Owners, Covered, Held, MachineBooks, MachineRuns, DeploymentRuns, Gates, Deserted;
    assert ClusterRunOk(k, s.cruns[k], s.kube.clusters[k], s.kube.machines, s.kube.deployments);
  }

  /** The same for a firewall deployment, where a user may have removed the reference
      meanwhile: that stays so unless the run has stored one. */
  lemma DeploymentPatchLosesNothing(s: Sys, k: Key)
    requires Reached(s) && k in s.fruns && s.fruns[k].FActed?
    ensures k in s.kube.deployments
    ensures var d, b, a := s.kube.deployments[k], s.fruns[k].before, s.fruns[k].after;
      && (d.ref == b.ref || d.ref.None?)
      && PatchDeployment(s, k, true).kube.deployments[k]
         == a.(deletion := d.deletion, ref := if a.ref == b.ref then d.ref else a.ref)
  {
    hide Reached, Inv, PatchDeployment;
    R.ReachedInv(s);
    DeploymentSnapshot(s, k);
    DeploymentPatch(s, k, true);
  }

  lemma DeploymentSnapshot(s: Sys, k: Key)
    requires Inv(s) && k in s.fruns && s.fruns[k].FActed?
    ensures k in s.kube.deployments && StableDeployment(s.kube.deployments[k], s.fruns[k].before)
    ensures F.SameDeployment(s.fruns[k].after, s.fruns[k].before)
  {
    hide Plain, Homes, Owners, Covered, Held, MachineBooks, ClusterBooks, MachineRuns, ClusterRuns, Gates,
      NoFirewallsOf;
    assert DeploymentRunOk(k, s.fruns[k], s.kube.deployments[k], s.kube.clusters, s.metal.hosts);
  }

  // -------------------------------------------------- whole runs of a deployment

  /** A whole run for a firewall deployment: load, two steps to act, patch. */
  function DeploymentPass(s: Sys, k: Key, rep: F.Replies, applied: bool): Sys {
    PatchDeployment(ActDeployment(ActDeployment(LoadDeployment(s, k), k, rep, false), k, rep, false), k, applied)
  }

  /** What a whole run for a deployment finds: the object, its cluster and the template
      of its name in its namespace. */
  predicate DeploymentReady(s: Sys, k: Key) {
    && k !in s.fruns && k in s.kube.deployments
    && var d := s.kube.deployments[k];
       && d.finalizer && d.deletion.None? && Key(k.ns, d.template) in s.kube.templates
       && d.owner.Some? && d.owner.value in s.kube.clusters
       && s.kube.clusters[d.owner.value].netId.Some? && Lacks(s.kube.clusters[d.owner.value].partition, '/')
  }

  predicate DeploymentGranted(s: Sys, k: Key, rep: F.Replies)
    requires DeploymentReady(s, k)
  {
    var d := s.kube.deployments[k];
    var t := s.kube.templates[Key(k.ns, d.template)];
    TemplateComes(k, d, t, s.kube.templates, rep) && FirewallComes(d, t, s.metal, rep)
  }

  /** Such a run, not paused, as what it computes. */
  function Computes(s: Sys, k: Key, rep: F.Replies): F.Outcome
    requires DeploymentReady(s, k)
  {
    var d := s.kube.deployments[k];
    F.RunUp(k, d, d.owner.value, s.kube.clusters[d.owner.value], s.kube.templates[Key(k.ns, d.template)],
            s.kube.templates, s.metal, rep, false)
  }

  lemma PassComputes(s: Sys, k: Key, rep: F.Replies, applied: bool)
    requires DeploymentReady(s, k)
    ensures var o := Computes(s, k, rep);
      DeploymentPass(s, k, rep, applied) == s.(metal := o.metal, kube := s.kube.(templates := o.templates,
        deployments := if applied then s.kube.deployments[k := o.obj] else s.kube.deployments))
  {
    hide F.Run, F.RunUp, PatchDeployment, ActDeployment, LoadDeployment, MachinesOf, F.NewFirewall, F.FirewallHost,
      F.FreeFirst, F.ErrorsFirst, Lists, Matching, FirewallTags, Lacks;
    var d := s.kube.deployments[k];
    var ck, tk := d.owner.value, Key(k.ns, d.template);
    FC.Uninterrupted(s, k, rep, false, applied);
    RunsUp(k, d, ck, s.kube.clusters[ck], s.kube.templates[tk], MachinesOf(s.kube, ck) != {}, s.kube.templates,
        s.metal, rep);
  }

  lemma RunsUp(k: Key, d: Deployment, ck: Key, c: Cluster, t: Template, left: bool, ts: F.Templates, metal: Metal,
               rep: F.Replies)
    requires d.finalizer && d.deletion.None?
    ensures F.Run(k, d, ck, c, t, left, ts, metal, rep, false) == F.RunUp(k, d, ck, c, t, ts, metal, rep, false)
  {
    hide F.RunUp, F.Delete;
  }

  lemma AllocatedFirewall(k: Key, d: Deployment, ck: Key, c: Cluster, t: Template, ts: F.Templates, metal: Metal,
                          rep: F.Replies)
    requires d.finalizer && d.deletion.None? && d.ref.None? && Lacks(c.partition, '/')
    requires !F.RunUp(k, d, ck, c, t, ts, metal, rep, false).failed
    ensures var o := F.RunUp(k, d, ck, c, t, ts, metal, rep, false);
      && !rep.alloc.Denied? && rep.alloc.id in o.metal.hosts && rep.alloc.id !in metal.hosts
      && AsksForFirewall(o.metal.hosts[rep.alloc.id], k, ck, c, t)
      && o.obj.ref.Some? && DecodeProviderID(o.obj.ref.value) == rep.alloc.id
  {
    hide F.RunUp, AsksForFirewall, DecodeProviderID, Lacks, F.FirewallHost;
    DeploymentOutcome(k, d, ck, c, t, ts, metal, rep);
    ProviderIDRoundTrip(Some(c.partition), rep.alloc.id);
    FirewallHostAsks(k, ck, c, t, rep.report);
  }

  /** Load, act, act and an applied patch: an object without reference now stores one that
      decodes to the firewall just allocated, which is the only new host and what template
      and cluster ask for. With any replies a second whole run, its patch applied or lost,
      leaves the whole system as it is. */
  lemma DeploymentSettles(s: Sys, k: Key, rep: F.Replies, rep': F.Replies, applied': bool)
    requires DeploymentReady(s, k) && DeploymentGranted(s, k, rep)
    ensures var t := DeploymentPass(s, k, rep, true); var d := s.kube.deployments[k];
      var c := s.kube.clusters[d.owner.value];
      && k in t.kube.deployments && var d' := t.kube.deployments[k];
      && d'.ready && d'.ref.Some? && (d.ref.Some? ==> d'.ref == d.ref && t.metal.hosts == s.metal.hosts)
      && (d.ref.None? ==>
            && d'.ref == Some("metal://" + c.partition + "/" + rep.alloc.id)
            && DecodeProviderID(d'.ref.value) == rep.alloc.id && rep.alloc.id !in s.metal.hosts
            && t.metal.hosts.Keys == s.metal.hosts.Keys + {rep.alloc.id}
            && AsksForFirewall(t.metal.hosts[rep.alloc.id], k, d.owner.value, c,
                               s.kube.templates[Key(k.ns, d.template)]))
      && DeploymentPass(t, k, rep', applied') == t
  {
    hide DeploymentPass, F.RunUp, AsksForFirewall, TemplateComes, FirewallComes, Lacks, F.NewFirewall, F.FirewallHost;
    var d := s.kube.deployments[k];
    var ck, tk, ts := d.owner.value, Key(k.ns, d.template), s.kube.templates;
    var c, t := s.kube.clusters[ck], DeploymentPass(s, k, rep, true);
    PassComputes(s, k, rep, true);
    DeploymentOutcome(k, d, ck, c, ts[tk], ts, s.metal, rep);
    if d.ref.None? {
      AllocatedFirewall(k, d, ck, c, ts[tk], ts, s.metal, rep);
    }
    SettledStays(s, k, rep, rep', applied');
  }

  lemma SettledStays(s: Sys, k: Key, rep: F.Replies, rep': F.Replies, applied': bool)
    requires DeploymentReady(s, k) && !Computes(s, k, rep).failed
    ensures var t := DeploymentPass(s, k, rep, true); DeploymentPass(t, k, rep', applied') == t
  {
    hide DeploymentPass, F.RunUp, F.Run, Lacks, F.NewFirewall, F.FirewallHost, F.FreeFirst, F.ErrorsFirst, Lists,
      Matching, FirewallTags;
    var d := s.kube.deployments[k];
    var ck, tk, ts := d.owner.value, Key(k.ns, d.template), s.kube.templates;
    var c, t, o := s.kube.clusters[ck], DeploymentPass(s, k, rep, true), Computes(s, k, rep);
    PassComputes(s, k, rep, true);
    RunsUp(k, d, ck, c, ts[tk], false, ts, s.metal, rep);
    DeploymentFixedPoint(k, d, ck, c, ts, s.metal, rep, rep', false);
    assert DeploymentReady(t, k) by { hide F.RunUp, DeploymentPass, F.Run; }
    RunsUp(k, o.obj, ck, c, o.templates[tk], false, o.templates, o.metal, rep');
    assert Computes(t, k, rep') == F.Outcome(o.obj, o.templates, o.metal, false, false);
    PassComputes(t, k, rep', applied');
    assert t.kube.deployments[k := o.obj] == t.kube.deployments;
  }

  // ------------------------------------------------------ whole runs of a machine

  /** A whole run for a machine object: load, act, patch. */
  function MachinePass(s: Sys, u: nat, rep: M.Replies, applied: bool): Sys {
    PatchMachine(ActMachine(LoadMachine(s, u), u, rep, false), u, applied)
  }

  predicate MachineReady(s: Sys, u: nat) {
    && u !in s.mruns && u in s.mbooks && u in s.kube.machines
    && var m := s.kube.machines[u];
       && m.finalizer && m.deletion.None? && m.cluster in s.kube.clusters
       && Lacks(s.kube.clusters[m.cluster].partition, '/') && M.PlainPartitions(s.metal)
  }

  predicate MachineGranted(s: Sys, u: nat, rep: M.Replies)
    requires MachineReady(s, u)
  {
    var m := s.kube.machines[u];
    var c := s.kube.clusters[m.cluster];
    && MayStart(m, c)
    && if m.providerID == "" then rep.secret && Grants(rep.alloc, s.metal.hosts.Keys)
       else rep.find && There(m, c, s.metal)
  }

  /** Load, act and an applied patch: an object without provider id now stores the one of
      the machine just allocated, which is the only new host and what object and cluster
      ask for; the stored object shows its machine. A second whole run that finds the
      machine, its patch applied or lost, changes neither the store nor the provider. */
  lemma MachineSettles(s: Sys, u: nat, rep: M.Replies, rep': M.Replies, applied': bool, l: Label)
    requires MachineReady(s, u) && MachineGranted(s, u, rep) && rep'.find
    ensures var t, m := MachinePass(s, u, rep, true), s.kube.machines[u]; var c := s.kube.clusters[m.cluster];
      && u in t.kube.machines && var m' := t.kube.machines[u]; var id := DecodeProviderID(m'.providerID);
      && id in t.metal.hosts && Shows(m, m', id, t.metal.hosts[id], l)
      && (m.providerID != "" ==> id == DecodeProviderID(m.providerID) && t.metal.hosts == s.metal.hosts)
      && (m.providerID == "" ==>
            && id == rep.alloc.id && id !in s.metal.hosts && t.metal.hosts.Keys == s.metal.hosts.Keys + {id}
            && AsksForMachine(t.metal.hosts[id], u, m, c))
      && MachinePass(t, u, rep', applied').kube == t.kube && MachinePass(t, u, rep', applied').metal == t.metal
  {
    hide M.Run, MachinePass, Shows, AsksForMachine, DecodeProviderID, Lacks, M.PlainPartitions, MayStart, There,
      M.KeepsID, M.Allocates, M.Frees, M.MachineHost, M.MayProvision;
    var m := s.kube.machines[u];
    var c := s.kube.clusters[m.cluster];
    MachinePassComputes(s, u, rep, true);
    MachineOutcome(u, m, c, s.metal, rep, s.now);
    ShowsTheMachine(u, m, c, s.metal, rep, s.now, l);
    AllocatedMachine(u, m, c, s.metal, rep, s.now);
    MachineStays(s, u, rep, rep', applied');
  }

  lemma MachineStays(s: Sys, u: nat, rep: M.Replies, rep': M.Replies, applied': bool)
    requires MachineReady(s, u) && rep'.find
    requires var m := s.kube.machines[u];
      !M.Run(u, m, s.kube.clusters[m.cluster], s.metal, rep, false, s.now).failed
    ensures var t := MachinePass(s, u, rep, true);
      MachinePass(t, u, rep', applied').kube == t.kube && MachinePass(t, u, rep', applied').metal == t.metal
  {
    hide M.Run, MachinePass, Lacks, M.PlainPartitions, M.KeepsID, M.Allocates, M.Frees, M.MachineHost, M.MayProvision;
    var m := s.kube.machines[u];
    var c, t := s.kube.clusters[m.cluster], MachinePass(s, u, rep, true);
    var o := M.Run(u, m, c, s.metal, rep, false, s.now);
    MachinePassComputes(s, u, rep, true);
    MachineFixedPoint(u, m, c, s.metal, rep, rep', s.now, s.now);
    MachinePassComputes(t, u, rep', applied');
    assert t.kube.machines[u := o.obj] == t.kube.machines;
  }

  lemma MachinePassComputes(s: Sys, u: nat, rep: M.Replies, applied: bool)
    requires u !in s.mruns && u in s.mbooks && u in s.kube.machines && s.kube.machines[u].cluster in s.kube.clusters
    ensures var m := s.kube.machines[u]; var t := MachinePass(s, u, rep, applied);
      var o := M.Run(u, m, s.kube.clusters[m.cluster], s.metal, rep, false, s.now);
      && t.metal == o.metal && t.now == s.now && t.mruns == s.mruns && u in t.mbooks
      && t.kube == s.kube.(machines := if applied then s.kube.machines[u := o.obj] else s.kube.machines)
  {
    hide M.Run, PatchMachine, ActMachine;
    MC.Uninterrupted(s, u, rep, false, applied);
    MachineRunEnds(LoadMachine(s, u), u, rep, applied);
  }

  lemma MachineRunEnds(s: Sys, u: nat, rep: M.Replies, applied: bool)
    requires u in s.mbooks
    ensures u in PatchMachine(ActMachine(s, u, rep, false), u, applied).mbooks
  {
    hide M.Run, MergeMachine, Settle;
  }

  lemma AllocatedMachine(u: nat, m: Machine, c: Cluster, metal: Metal, rep: M.Replies, now: Time)
    requires m.finalizer && m.deletion.None? && M.PlainPartitions(metal) && Lacks(c.partition, '/')
    requires !M.Run(u, m, c, metal, rep, false, now).failed
    ensures var o := M.Run(u, m, c, metal, rep, false, now); var id := DecodeProviderID(o.obj.providerID);
      && (m.providerID != "" ==> id == DecodeProviderID(m.providerID) && o.metal.hosts == metal.hosts)
      && (m.providerID == "" ==>
            && rep.alloc.Granted? && id == rep.alloc.id && id !in metal.hosts && id in o.metal.hosts
            && o.metal.hosts.Keys == metal.hosts.Keys + {id} && AsksForMachine(o.metal.hosts[id], u, m, c))
  {
    hide M.Run, AsksForMachine, DecodeProviderID, Lacks, M.PlainPartitions, M.MachineHost, Shows;
    MachineOutcome(u, m, c, metal, rep, now);
    ShowsTheMachine(u, m, c, metal, rep, now, HostnameLabel);
    if m.providerID == "" {
      MachineHostAsks(u, m, c, rep.report);
    }
  }

  // ------------------------------------------------------ whole runs of a cluster

  /** A whole run for a cluster object: load, two steps to act, patch. */
  function ClusterPass(s: Sys, k: Key, rep: C.Replies, applied: bool): Sys {
    PatchCluster(ActCluster(ActCluster(LoadCluster(s, k), k, rep, false), k, rep, false), k, applied)
  }

  predicate ClusterReady(s: Sys, k: Key) {
    && k !in s.cruns && k in s.cbooks && k in s.kube.clusters
    && s.kube.clusters[k].finalizer && s.kube.clusters[k].deletion.None?
  }

  predicate ClusterGranted(s: Sys, k: Key, rep: C.Replies)
    requires ClusterReady(s, k)
  {
    var c := s.kube.clusters[k];
    NetworkComes(c, s.metal, rep) && DeploymentComes(k, c, s.kube.deployments, rep) && AddressComes(c, s.metal, rep)
  }

  /** Load, act, act and an applied patch: network and endpoint are stored, those recorded
      before or else those just handed out, with the given address at port 443 if there is
      one, and a new network is in the project of the cluster; the referenced deployment
      is owned and the cluster ready. A second whole run that can look at the deployment
      changes neither the store nor the provider. */
  lemma ClusterSettles(s: Sys, k: Key, rep: C.Replies, rep': C.Replies, applied': bool)
    requires ClusterReady(s, k) && ClusterGranted(s, k, rep) && rep'.getDeployment
    ensures var t, c := ClusterPass(s, k, rep, true), s.kube.clusters[k];
      && k in t.kube.clusters && var c' := t.kube.clusters[k];
      && c'.ready && c'.provisioned && c'.finalizer && c'.cpIp == c.cpIp
      && c'.netId == (if c.netId.Some? then c.netId else Some(rep.net.id))
      && (c.netId.None? ==> t.metal.nets == s.metal.nets[rep.net.id := c.project])
      && c'.endpoint == (if c.endpoint.host != "" then c.endpoint
                         else Endpoint(if c.cpIp.Some? then c.cpIp.value else rep.ip.id, 443))
      && t.kube.deployments == WithOwned(k, c, s.kube.deployments)
      && ClusterPass(t, k, rep', applied').kube == t.kube && ClusterPass(t, k, rep', applied').metal == t.metal
  {
    hide C.RunUp, ClusterPass, Spends, SpendsFor, C.Reconcile, C.Begin, WithOwned, Conditions, C.Adopt, NetworkComes,
      DeploymentComes, AddressComes;
    var c, t := s.kube.clusters[k], ClusterPass(s, k, rep, true);
    ClusterOutcome(k, c, s.kube.deployments, s.metal, rep);
    ClusterPassComputes(s, k, rep, true);
    AddressStored(k, c, s.kube.deployments, s.metal, rep);
    ClusterStays(s, k, rep, rep', applied');
  }

  lemma AddressStored(k: Key, c: Cluster, deps: C.Deployments, metal: Metal, rep: C.Replies)
    requires c.finalizer && c.deletion.None? && !C.RunUp(k, c, deps, metal, rep, false).failed
    ensures c.endpoint.host == "" && c.cpIp.None? ==> rep.ip.Granted?
    ensures C.RunUp(k, c, deps, metal, rep, false).obj.endpoint ==
      if c.endpoint.host != "" then c.endpoint
      else Endpoint(if c.cpIp.Some? then c.cpIp.value else rep.ip.id, 443)
  {
    hide C.Reconcile, Spends, SpendsFor, C.Adopt;
  }

  lemma ClusterStays(s: Sys, k: Key, rep: C.Replies, rep': C.Replies, applied': bool)
    requires ClusterReady(s, k) && rep'.getDeployment
    requires !C.RunUp(k, s.kube.clusters[k], s.kube.deployments, s.metal, rep, false).failed
    ensures var t := ClusterPass(s, k, rep, true);
      ClusterPass(t, k, rep', applied').kube == t.kube && ClusterPass(t, k, rep', applied').metal == t.metal
  {
    hide C.RunUp, ClusterPass, Spends, SpendsFor, C.Reconcile, C.Begin, WithOwned, Conditions, C.Adopt, NetworkComes,
      DeploymentComes, AddressComes;
    var c, t := s.kube.clusters[k], ClusterPass(s, k, rep, true);
    ClusterPassComputes(s, k, rep, true);
    var o := C.RunUp(k, c, s.kube.deployments, s.metal, rep, false);
    ClusterFixedPoint(k, c, s.kube.deployments, s.metal, rep, rep');
    ClusterOutcome(k, c, s.kube.deployments, s.metal, rep);
    ClusterPassComputes(t, k, rep', applied');
    assert t.kube.clusters[k := o.obj] == t.kube.clusters;
  }

  lemma ClusterPassComputes(s: Sys, k: Key, rep: C.Replies, applied: bool)
    requires ClusterReady(s, k)
    ensures var t, o := ClusterPass(s, k, rep, applied),
                        C.RunUp(k, s.kube.clusters[k], s.kube.deployments, s.metal, rep, false);
      && t.metal == o.metal && k !in t.cruns && k in t.cbooks
      && t.kube == s.kube.(deployments := o.deployments,
           clusters := if applied then s.kube.clusters[k := o.obj] else s.kube.clusters)
  {
    hide C.RunUp, PatchCluster, ActCluster, Spends, SpendsFor, C.Adopt, C.Begin, MachinesOf;
    CC.LoadAndAct(s, k, rep, false);
    RunEnds(LoadCluster(s, k), k, rep, applied);
  }

  lemma RunEnds(s: Sys, k: Key, rep: C.Replies, applied: bool)
    requires k in s.cruns && s.cruns[k].CLoaded? && s.cruns[k].c.deletion.None? && k in s.cbooks && k in s.kube.clusters
    ensures var t := ActCluster(ActCluster(s, k, rep, false), k, rep, false);
      k !in PatchCluster(t, k, applied).cruns && k in PatchCluster(t, k, applied).cbooks
  {
    CC.UpAtOnce(s, k, rep, false);
    hide C.RunUp, ActCluster, MergeCluster;
  }
}

/** What is asked of the provider: every host that a run allocates, field by field, in
    terms of the objects it was asked for. */
module Requests {
  import opened Names
  import opened Store
  import opened Metal
  import opened Protocol
  import M = MachineSpec
  import F = FirewallSpec

  // ------------------------------------------------------------ texts of tags

  function Text(key: string, value: string): string {
    key + "=" + value
  }

  /** The tags of a firewall, as the provider reads them. */
  function FirewallTexts(net: string, ck: Key, k: Key): seq<string> {
    [ Text("cluster.metal-stack.io/id", net),
      Text("metal-stack.infrastructure.cluster.x-k8s.io/cluster-resource", ck.ns + "." + ck.name),
      Text("firewall.metal-stack.io/managed-by", "cluster-api-provider-metal-stack"),
      Text("metal-stack.infrastructure.cluster.x-k8s.io/firewall-deployment-resource", k.ns + "." + k.name) ]
  }

  /** The tags of a machine: those that name it, its role, and where it is. */
  function MachineTexts(net: string, ck: Key, k: Key, controlPlane: bool, partition: string): seq<string> {
    var named := [ Text("cluster.metal-stack.io/id", net),
                   Text("metal-stack.infrastructure.cluster.x-k8s.io/cluster-resource", ck.ns + "." + ck.name),
                   Text("metal-stack.infrastructure.cluster.x-k8s.io/machine-resource", k.ns + "." + k.name) ];
    var role := Text("metal-stack.infrastructure.cluster.x-k8s.io/purpose", "control-plane");
    var place := [ Text("topology.kubernetes.io/zone", partition), Text("kubernetes.io/hostname", k.name) ];
    if controlPlane then named + [role] + place else named + place
  }

  lemma ClusterText()
    ensures KeyText(ClusterResource) == "metal-stack.infrastructure.cluster.x-k8s.io/cluster-resource"
  {}

  lemma MachineText()
    ensures KeyText(MachineResource) == "metal-stack.infrastructure.cluster.x-k8s.io/machine-resource"
  {}

  lemma DeploymentText()
    ensures KeyText(DeploymentResource) == "metal-stack.infrastructure.cluster.x-k8s.io/firewall-deployment-resource"
  {}

  lemma PurposeText()
    ensures KeyText(Purpose) == "metal-stack.infrastructure.cluster.x-k8s.io/purpose"
  {}

  lemma FirewallTagTexts(net: string, ck: Key, k: Key)
    ensures RenderAll(FirewallTags(net, ck, k)) == FirewallTexts(net, ck, k)
  {
    ClusterText();
    DeploymentText();
    assert RenderAll(FirewallTags(net, ck, k)) == FirewallTexts(net, ck, k);
  }

  lemma MachineTagTexts(net: string, ck: Key, k: Key, controlPlane: bool, partition: string)
    ensures RenderAll(MachineTags(net, ck, k, controlPlane) + AdditionalMachineTags(partition, k))
         == MachineTexts(net, ck, k, controlPlane, partition)
  {
    ClusterText();
    MachineText();
    PurposeText();
    assert RenderAll(MachineTags(net, ck, k, controlPlane) + AdditionalMachineTags(partition, k))
        == MachineTexts(net, ck, k, controlPlane, partition);
  }

  // ---------------------------------------------------------------- machines

  /** A worker on the node network alone, in project and partition of the cluster, with
      name, image, size and tags of its object. */
  predicate AsksForMachine(h: Host, u: nat, m: Machine, c: Cluster) {
    && c.netId.Some? && h.kind == Worker && h.name == m.name.name && h.project == c.project
    && h.partition == Some(c.partition) && h.networks == [c.netId.value]
    && h.image == m.image && h.size == m.size && h.rules == None && h.origin == ByMachine(u)
    && RenderAll(h.tags) == MachineTexts(c.netId.value, m.cluster, m.name, m.controlPlane, c.partition)
  }

  lemma MachineHostAsks(u: nat, m: Machine, c: Cluster, report: Report)
    requires c.netId.Some?
    ensures AsksForMachine(M.MachineHost(u, m, c, c.netId.value, report), u, m, c)
  {
    MachineTagTexts(c.netId.value, m.cluster, m.name, m.controlPlane, c.partition);
    hide MachineTexts, RenderAll;
  }

  /** A host that is new after a run of the machine controller is what the snapshot of
      machine and cluster asks for. */
  lemma MachineRequested(s: Sys, u: nat, rep: M.Replies, paused: bool, id: string)
    requires id !in s.metal.hosts && id in ActMachine(s, u, rep, paused).metal.hosts
    ensures u in s.mruns && s.mruns[u].MLoaded? && !paused
    ensures var r, h := s.mruns[u], ActMachine(s, u, rep, paused).metal.hosts[id];
      && AsksForMachine(h, u, r.m, r.c) && h.report == rep.report
      && r.m.finalizer && r.m.deletion.None? && r.m.providerID == "" && r.m.secret.Some? && r.c.endpoint.host != ""
  {
    hide M.Run, AsksForMachine, MachineTexts, Settle;
    var r := s.mruns[u];
    var o := M.Run(u, r.m, r.c, s.metal, rep, paused, s.now);
    assert ActMachine(s, u, rep, paused).metal == o.metal;
    assert o.metal != s.metal;
    MachineHostAsks(u, r.m, r.c, rep.report);
  }

  // --------------------------------------------------------------- firewalls

  /** One rule per rule of the template, in order and field by field. */
  predicate SameRules(f: FirewallRules, r: RuleSet) {
    && |f.egress| == |r.egress| && |f.ingress| == |r.ingress|
    && (forall i | 0 <= i < |r.egress| ::
          && f.egress[i].comment == r.egress[i].comment && f.egress[i].ports == r.egress[i].ports
          && f.egress[i].protocol == r.egress[i].protocol && f.egress[i].to == r.egress[i].to)
    && (forall i | 0 <= i < |r.ingress| ::
          && f.ingress[i].comment == r.ingress[i].comment && f.ingress[i].ports == r.ingress[i].ports
          && f.ingress[i].protocol == r.ingress[i].protocol && f.ingress[i].from == r.ingress[i].from)
  }

  /** A firewall in project and partition of the cluster, with image, size and rules of
      the template, on the template's networks and the node network behind them unless it
      is one of them, tagged for network, cluster and deployment. */
  predicate AsksForFirewall(h: Host, k: Key, ck: Key, c: Cluster, t: Template) {
    && c.netId.Some? && t.rules.Some? && h.rules.Some? && SameRules(h.rules.value, t.rules.value)
    && h.kind == Firewall && h.name == ck.name + "-firewall" && h.project == c.project
    && h.partition == Some(c.partition) && h.image == t.image && h.size == t.size
    && h.networks == (if c.netId.value in t.networks then t.networks else t.networks + [c.netId.value])
    && h.origin == ByDeployment(ck, k, c.netId.value)
    && RenderAll(h.tags) == FirewallTexts(c.netId.value, ck, k)
  }

  lemma FirewallHostAsks(k: Key, ck: Key, c: Cluster, t: Template, report: Report)
    requires c.netId.Some? && t.rules.Some?
    ensures var h := F.FirewallHost(k, ck, c, c.netId.value, t, report);
      AsksForFirewall(h, k, ck, c, t) && h.report == report
  {
    FirewallTagTexts(c.netId.value, ck, k);
    hide FirewallTexts, RenderAll;
  }

  /** A host that is new after a run of the firewall deployment controller is what the
      snapshot of cluster and template asks for. */
  lemma FirewallRequested(s: Sys, k: Key, rep: F.Replies, paused: bool, id: string)
    requires id !in s.metal.hosts && id in ActDeployment(s, k, rep, paused).metal.hosts
    ensures k in s.fruns && s.fruns[k].FLoaded? && !paused
    ensures var r, h := s.fruns[k], ActDeployment(s, k, rep, paused).metal.hosts[id];
      && AsksForFirewall(h, k, r.ck, r.c, r.t) && h.report == rep.report
      && r.d.finalizer && r.d.deletion.None? && r.d.ref.None?
  {
    hide F.RunUp, F.Reclaim, AsksForFirewall, FirewallTexts, F.FirewallHost;
    OnlyUpAllocates(s, k, rep, paused, id);
    var r := s.fruns[k];
    var o := F.RunUp(k, r.d, r.ck, r.c, r.t, s.kube.templates, s.metal, rep, paused);
    assert o.metal != s.metal;
    FirewallHostAsks(k, r.ck, r.c, r.t, rep.report);
  }

  lemma OnlyUpAllocates(s: Sys, k: Key, rep: F.Replies, paused: bool, id: string)
    requires id !in s.metal.hosts && id in ActDeployment(s, k, rep, paused).metal.hosts
    ensures k in s.fruns && s.fruns[k].FLoaded? && (paused || s.fruns[k].d.deletion.None?)
  {
    hide F.RunUp, F.Reclaim;
    if k in s.fruns && s.fruns[k].FCleared? {
      var r := s.fruns[k];
      var o := F.Reclaim(k, F.Begin(r.d, false), r.ck, r.c, s.kube.templates, s.metal, rep);
      if o.metal != s.metal {
        LoopOnlyFrees(s.metal, rep.search.value, rep.frees, |rep.search.value|);
      }
    }
  }

  lemma {:induction false} LoopOnlyFrees(metal: Metal, order: seq<string>, frees: seq<Release>, n: nat)
    requires n <= |order|
    ensures F.FreeFirst(metal, order, frees, n).hosts.Keys <= metal.hosts.Keys
  {
    if n > 0 {
      LoopOnlyFrees(metal, order, frees, n - 1);
    }
  }

  /** A search of the deployment finds a host exactly when it is a firewall in project and
      partition of the cluster that carries the texts of the tags. */
  lemma SearchAsks(metal: Metal, c: Cluster, net: string, ck: Key, k: Key, id: string)
    ensures id in Matching(metal, c.partition, c.project, FirewallTags(net, ck, k)) <==>
      && id in metal.hosts && metal.hosts[id].kind == Firewall && metal.hosts[id].project == c.project
      && metal.hosts[id].partition == Some(c.partition)
      && forall text | text in FirewallTexts(net, ck, k) :: text in RenderAll(metal.hosts[id].tags)
  {
    hide FirewallTags, FirewallTexts, HasAll;
    FirewallTagTexts(net, ck, k);
    var wanted := FirewallTags(net, ck, k);
    if id in metal.hosts {
      SearchOnTexts(metal.hosts[id].tags, wanted);
    }
  }
}

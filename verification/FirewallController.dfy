/** The firewall deployment controller as the code runs it. */
module FirewallController {
  import opened Names
  import opened Store
  import opened Metal
  import opened Clients
  import opened Protocol
  import F = FirewallSpec

  class InfraDeployment {
    const template: string
    const owner: Option<Key>
    const clusterLabel: Option<string>
    const deletion: Option<Time>
    var managedResourceRef: Option<string>
    var finalizer: bool
    var ready: bool
    var conditions: Conds

    constructor (d: Deployment)
      ensures View() == d
    {
      template, owner, clusterLabel, deletion := d.template, d.owner, d.clusterLabel, d.deletion;
      managedResourceRef, finalizer, ready, conditions := d.ref, d.finalizer, d.ready, d.conds;
    }

    function View(): Deployment
      reads this
    {
      Deployment(template, owner, clusterLabel, managedResourceRef, finalizer, deletion, ready, conditions)
    }
  }

  // ------------------------------------------------- steps of the rule loops

  lemma EgressStep(rules: seq<EgressRule>, i: nat)
    requires i < |rules|
    ensures F.Egress(rules[..i + 1]) == F.Egress(rules[..i])
      + [FirewallEgress(rules[i].comment, rules[i].ports, rules[i].protocol, rules[i].to)]
  {
    assert rules[..i + 1][..i] == rules[..i];
  }

  lemma IngressStep(rules: seq<IngressRule>, i: nat)
    requires i < |rules|
    ensures F.Ingress(rules[..i + 1]) == F.Ingress(rules[..i])
      + [FirewallIngress(rules[i].comment, rules[i].ports, rules[i].protocol, rules[i].from)]
  {
    assert rules[..i + 1][..i] == rules[..i];
  }

  class FirewallReconciler {
    const metalClient: MetalApi
    const client: KubeClient
    const key: Key
    const clusterKey: Key
    const infraCluster: Cluster
    const firewallTemplate: Template
    const firewallDeployment: InfraDeployment

    constructor (api: MetalApi, kube: KubeClient, k: Key, ck: Key, c: Cluster, t: Template, d: InfraDeployment)
      ensures metalClient == api && client == kube && key == k && clusterKey == ck && infraCluster == c
      ensures firewallTemplate == t && firewallDeployment == d
    {
      metalClient, client, key, clusterKey := api, kube, k, ck;
      infraCluster, firewallTemplate, firewallDeployment := c, t, d;
    }

    method EnsureMachinesAreGone(answered: bool) returns (ok: bool)
      ensures ok == (answered && MachinesOf(client.View(), clusterKey) == {})
      ensures ok <==> answered && forall u | u in client.machines :: client.machines[u].cluster != clusterKey
    {
      var any := client.AnyMachine(clusterKey, answered);
      ok := any == Some(false);
      ghost var labelled := MachinesOf(client.View(), clusterKey);
      assert forall u :: u in labelled <==> u in client.machines && client.machines[u].cluster == clusterKey;
    }

    method EnsureTemplateOwner(answered: bool) returns (ok: bool)
      modifies client`templates
      ensures (if ok then Some(client.templates) else None)
           == F.OwnTemplate(key, Key(key.ns, firewallDeployment.template), firewallTemplate, old(client.templates),
               answered)
      ensures !ok ==> client.templates == old(client.templates)
    {
      if key in firewallTemplate.owners { return true; }
      ok := client.PatchTemplateOwners(Key(key.ns, firewallDeployment.template), firewallTemplate.owners + {key},
          answered);
    }

    /** The networks of the request: those of the template in order, and the node
        network behind them unless it is one of them. */
    method RequestNetworks(net: string) returns (networks: seq<string>)
      ensures networks == F.FirewallNetworks(firewallTemplate.networks, net)
    {
      var networkIDs := firewallTemplate.networks;
      if net !in networkIDs { networkIDs := networkIDs + [net]; }
      networks := [];
      for i := 0 to |networkIDs|
        invariant networks == networkIDs[..i]
      {
        networks := networks + [networkIDs[i]];
      }
    }

    method RequestRules(rules: RuleSet) returns (r: FirewallRules)
      ensures r == FirewallRules(F.Egress(rules.egress), F.Ingress(rules.ingress))
    {
      var egressRules: seq<FirewallEgress> := [];
      for i := 0 to |rules.egress|
        invariant egressRules == F.Egress(rules.egress[..i])
      {
        var er := rules.egress[i];
        EgressStep(rules.egress, i);
        egressRules := egressRules + [FirewallEgress(er.comment, er.ports, er.protocol, er.to)];
      }
      assert rules.egress[..|rules.egress|] == rules.egress;
      var ingressRules: seq<FirewallIngress> := [];
      for i := 0 to |rules.ingress|
        invariant ingressRules == F.Ingress(rules.ingress[..i])
      {
        var ir := rules.ingress[i];
        IngressStep(rules.ingress, i);
        ingressRules := ingressRules + [FirewallIngress(ir.comment, ir.ports, ir.protocol, ir.from)];
      }
      assert rules.ingress[..|rules.ingress|] == rules.ingress;
      r := FirewallRules(egressRules, ingressRules);
    }

    method EnsureFirewallDeployment(rep: F.Replies) returns (ok: bool)
      requires infraCluster.netId.Some?
      modifies metalClient`hosts, firewallDeployment`managedResourceRef
      ensures var d, m := old(firewallDeployment.View()), old(metalClient.View());
        if d.ref.Some? then ok && metalClient.View() == m && firewallDeployment.View() == d
        else if firewallTemplate.rules.None? then !ok && metalClient.View() == m && firewallDeployment.View() == d
        else
          var h := F.FirewallHost(key, clusterKey, infraCluster, infraCluster.netId.value, firewallTemplate,
              rep.report);
          var id := HostAnswer(m, rep.alloc);
          && ok == id.Some? && metalClient.View() == AllocateHost(m, h, rep.alloc)
          && firewallDeployment.View()
             == if ok then d.(ref := Some(EncodeProviderID(Some(infraCluster.partition), id.value))) else d
    {
      var net := infraCluster.netId.value;
      var tags := FirewallTags(net, clusterKey, key);
      if firewallDeployment.managedResourceRef.Some? { return true; }
      var networks := RequestNetworks(net);
      if firewallTemplate.rules.None? { return false; }
      var rules := RequestRules(firewallTemplate.rules.value);
      var host := Host(Firewall, clusterKey.name + "-firewall", infraCluster.project, Some(infraCluster.partition),
                       networks, tags, firewallTemplate.image, firewallTemplate.size, Some(rules),
                       ByDeployment(clusterKey, key, net), rep.report);
      var id := metalClient.Allocate(host, rep.alloc);
      if id.None? { return false; }
      firewallDeployment.managedResourceRef := Some(EncodeProviderID(Some(infraCluster.partition), id.value));
      ok := true;
    }

    method Reconcile(rep: F.Replies) returns (failed: bool)
      modifies metalClient`hosts, client`templates, firewallDeployment
      ensures F.Outcome(firewallDeployment.View(), client.templates, metalClient.View(), failed, false)
           == F.Reconcile(key, old(firewallDeployment.View()), clusterKey, infraCluster, firewallTemplate,
                          old(client.templates), old(metalClient.View()), rep)
    {
      hide F.FirewallHost, AllocateHost, HostAnswer, EncodeProviderID, F.NewFirewall, DecodeProviderID, F.OwnTemplate;
      if infraCluster.netId.None? { return true; }
      var owned := EnsureTemplateOwner(rep.patchTemplate);
      if !owned { return true; }
      var ensured := EnsureFirewallDeployment(rep);
      if !ensured { return true; }
      firewallDeployment.ready := true;
      failed := false;
    }

    /** All firewalls that carry the creation tags, one free after the other; what
        fails is collected and does not stop the loop. */
    method DeleteFirewallDeployment(rep: F.Replies) returns (found: bool, errs: seq<string>)
      requires infraCluster.netId.Some?
      modifies metalClient`hosts
      ensures var m := old(metalClient.View());
        var ids := Matching(m, infraCluster.partition, infraCluster.project,
                            FirewallTags(infraCluster.netId.value, clusterKey, key));
        && found == (rep.search.Some? && Lists(rep.search.value, ids))
        && (!found ==> metalClient.View() == m)
        && (found ==>
              && metalClient.View() == F.FreeFirst(m, rep.search.value, rep.frees, |rep.search.value|)
              && errs == F.ErrorsFirst(m, rep.search.value, rep.frees, |rep.search.value|))
    {
      hide Matches, Lists, FirewallTags, Elems, NoDuplicates;
      var tags := FirewallTags(infraCluster.netId.value, clusterKey, key);
      var answer := metalClient.FindFirewalls(infraCluster.partition, infraCluster.project, tags, rep.search);
      errs := [];
      found := answer.Some?;
      if !found || |answer.value| == 0 { return; }
      ghost var m := metalClient.View();
      for i := 0 to |answer.value|
        invariant metalClient.View() == F.FreeFirst(m, answer.value, rep.frees, i)
        invariant errs == F.ErrorsFirst(m, answer.value, rep.frees, i)
      {
        var ok := metalClient.FreeMachine(answer.value[i], F.ReleaseAt(rep.frees, i));
        if !ok { errs := errs + [answer.value[i]]; }
      }
    }

    /** Without a node network on the cluster the code dereferences nil. */
    method Delete(rep: F.Replies) returns (failed: bool, panicked: bool)
      modifies metalClient`hosts, firewallDeployment`finalizer
      ensures F.Outcome(firewallDeployment.View(), client.templates, metalClient.View(), failed, panicked)
           == F.Delete(key, old(firewallDeployment.View()), clusterKey, infraCluster,
                       MachinesOf(client.View(), clusterKey) != {}, client.templates, old(metalClient.View()), rep)
    {
      hide Lists, Matching, FirewallTags, F.FreeFirst, F.ErrorsFirst;
      if !firewallDeployment.finalizer { return false, false; }
      var gone := EnsureMachinesAreGone(rep.list);
      if !gone { return true, false; }
      if infraCluster.netId.None? { return true, true; }
      var found, errs := DeleteFirewallDeployment(rep);
      if !found || errs != [] { return true, false; }
      firewallDeployment.finalizer := false;
      return false, false;
    }

    method Run(rep: F.Replies, paused: bool) returns (failed: bool, panicked: bool)
      modifies metalClient`hosts, client`templates, firewallDeployment
      ensures F.Outcome(firewallDeployment.View(), client.templates, metalClient.View(), failed, panicked)
           == F.Run(key, old(firewallDeployment.View()), clusterKey, infraCluster, firewallTemplate,
                    MachinesOf(old(client.View()), clusterKey) != {}, old(client.templates), old(metalClient.View()),
                        rep, paused)
    {
      hide F.Delete, F.Reconcile, F.NewFirewall, F.FirewallHost, F.FreeFirst, F.ErrorsFirst, Lists, Matching,
        FirewallTags;
      firewallDeployment.conditions := firewallDeployment.conditions[Paused := Cond(paused, IsPaused)];
      failed, panicked := false, false;
      if paused {
      } else if firewallDeployment.deletion.Some? {
        failed, panicked := Delete(rep);
      } else if !firewallDeployment.finalizer {
        firewallDeployment.finalizer := true;
      } else {
        failed := Reconcile(rep);
      }
    }
  }

  /** The two steps to act in a row: what guards and what is behind it. */
  lemma ActAtOnce(s: Sys, k: Key, rep: F.Replies, paused: bool)
    requires k in s.fruns && s.fruns[k].FLoaded?
    ensures var t := ActDeployment(ActDeployment(s, k, rep, paused), k, rep, paused); var r := s.fruns[k];
      var o := F.Run(k, r.d, r.ck, r.c, r.t, MachinesOf(s.kube, r.ck) != {}, s.kube.templates, s.metal, rep, paused);
      t == s.(metal := o.metal, kube := s.kube.(templates := o.templates),
              fruns := if o.panicked then s.fruns - {k} else s.fruns[k := FActed(r.d, o.obj)])
  {
    var r := s.fruns[k];
    hide F.RunUp, F.Reclaim, F.Begin, MachinesOf, F.NewFirewall, F.FirewallHost, F.FreeFirst, F.ErrorsFirst, Lists,
      Matching,
      FirewallTags, F.SameDeployment;
    if paused || r.d.deletion.None? {
      NoRun(ActDeploymentUp(s, k, rep, paused), k, rep, paused);
      hide ActDeployment;
    } else {
      GuardAndReclaim(s, k, rep);
    }
  }

  lemma NoRun(s: Sys, k: Key, rep: F.Replies, paused: bool)
    requires k in s.fruns ==> s.fruns[k].FActed?
    ensures ActDeployment(s, k, rep, paused) == s
  {}

  lemma GuardAndReclaim(s: Sys, k: Key, rep: F.Replies)
    requires k in s.fruns && s.fruns[k].FLoaded? && s.fruns[k].d.deletion.Some?
    ensures var t := ActDeployment(ActDeployment(s, k, rep, false), k, rep, false); var r := s.fruns[k];
      var o := F.Delete(k, F.Begin(r.d, false), r.ck, r.c, MachinesOf(s.kube, r.ck) != {}, s.kube.templates, s.metal,
          rep);
      t == s.(metal := o.metal, kube := s.kube.(templates := o.templates),
              fruns := if o.panicked then s.fruns - {k} else s.fruns[k := FActed(r.d, o.obj)])
  {
    hide F.RunUp, F.Reclaim, F.Begin, MachinesOf, F.FreeFirst, F.ErrorsFirst, Lists, Matching, FirewallTags,
      F.SameDeployment;
    var s1 := ActDeploymentGuard(s, k, rep);
    assert ActDeployment(s, k, rep, false) == s1;
    if s1.fruns[k].FActed? {
      NoRun(s1, k, rep, false);
    }
  }

  /** Load, act and patch in a row: what the run computes is what is stored. */
  lemma Uninterrupted(s: Sys, k: Key, rep: F.Replies, paused: bool, applied: bool)
    requires k !in s.fruns
    ensures var t :=
        PatchDeployment(ActDeployment(ActDeployment(LoadDeployment(s, k), k, rep, paused), k, rep, paused), k, applied);
      if && k in s.kube.deployments && s.kube.deployments[k].owner.Some?
         && s.kube.deployments[k].owner.value in s.kube.clusters
         && F.TemplateKey(k, s.kube.deployments[k]) in s.kube.templates then
        var d := s.kube.deployments[k];
        var ck := d.owner.value;
        var o := F.Run(k, d, ck, s.kube.clusters[ck], s.kube.templates[F.TemplateKey(k, d)],
                       MachinesOf(s.kube, ck) != {}, s.kube.templates, s.metal, rep, paused);
        t == s.(metal := o.metal, kube := s.kube.(templates := o.templates,
             deployments := if applied && !o.panicked
                            then s.kube.deployments[k := o.obj] else s.kube.deployments))
      else t == s
  {
    hide F.Run, MergeDeployment, MachinesOf, PatchDeployment, ActDeployment;
    if LoadDeployment(s, k) != s {
      UninterruptedRun(s, k, rep, paused, applied);
      hide LoadDeployment;
    } else {
      NoRun(s, k, rep, paused);
      PatchNothing(s, k, applied);
    }
  }

  lemma UninterruptedRun(s: Sys, k: Key, rep: F.Replies, paused: bool, applied: bool)
    requires k !in s.fruns && k in s.kube.deployments && s.kube.deployments[k].owner.Some?
    requires s.kube.deployments[k].owner.value in s.kube.clusters
    requires F.TemplateKey(k, s.kube.deployments[k]) in s.kube.templates
    ensures var t :=
        PatchDeployment(ActDeployment(ActDeployment(LoadDeployment(s, k), k, rep, paused), k, rep, paused), k, applied);
      var d := s.kube.deployments[k];
      var ck := d.owner.value;
      var o := F.Run(k, d, ck, s.kube.clusters[ck], s.kube.templates[F.TemplateKey(k, d)],
                     MachinesOf(s.kube, ck) != {}, s.kube.templates, s.metal, rep, paused);
      t == s.(metal := o.metal, kube := s.kube.(templates := o.templates,
           deployments := if applied && !o.panicked
                          then s.kube.deployments[k := o.obj] else s.kube.deployments))
  {
    hide F.Run, MergeDeployment, MachinesOf, PatchDeployment, ActDeployment;
    var d, s1 := s.kube.deployments[k], LoadDeployment(s, k);
    var ck := d.owner.value;
    assert s1 == s.(fruns :=
      s.fruns[k := FLoaded(d, ck, s.kube.clusters[ck], s.kube.templates[F.TemplateKey(k, d)])]);
    hide LoadDeployment;
    ActAtOnce(s1, k, rep, paused);
    var o := F.Run(k, d, ck, s.kube.clusters[ck], s.kube.templates[F.TemplateKey(k, d)],
                   MachinesOf(s.kube, ck) != {}, s.kube.templates, s.metal, rep, paused);
    assert s1.fruns - {k} == s.fruns && s1.fruns[k := FActed(d, o.obj)] == s.fruns[k := FActed(d, o.obj)];
    PatchAlone(s, k, d, o.obj, o.panicked, o.templates, o.metal, applied);
  }

  lemma PatchNothing(s: Sys, k: Key, applied: bool)
    requires k !in s.fruns
    ensures PatchDeployment(s, k, applied) == s
  {}

  /** A patch against the object as it was read stores the object as the run left it. */
  lemma PatchesAll(d: Deployment, after: Deployment)
    requires F.SameDeployment(after, d)
    ensures MergeDeployment(d, d, after) == after
  {}

  lemma PatchAlone(s: Sys, k: Key, d: Deployment, after: Deployment, panicked: bool, ts: F.Templates, m: Metal,
                   applied: bool)
    requires k !in s.fruns && k in s.kube.deployments && s.kube.deployments[k] == d && F.SameDeployment(after, d)
    ensures var t :=
        s.(metal := m, kube := s.kube.(templates := ts), fruns := if panicked then s.fruns
            else s.fruns[k := FActed(d, after)]);
      PatchDeployment(t, k, applied) == s.(metal := m, kube := s.kube.(templates := ts,
        deployments := if applied && !panicked then s.kube.deployments[k := after] else s.kube.deployments))
  {
    PatchesAll(d, after);
    hide MergeDeployment;
    assert s.fruns[k := FActed(d, after)] - {k} == s.fruns;
  }

  class MetalStackFirewallDeploymentReconciler {
    const metalClient: MetalApi
    const client: KubeClient

    constructor (api: MetalApi, kube: KubeClient)
      ensures metalClient == api && client == kube
    {
      metalClient, client := api, kube;
    }

    /** A run that nothing interrupts is four steps of the protocol: load, two steps
        to act (a deletion is guarded before it reclaims) and patch. A run that panics
        reaches no patch. */
    method Reconcile(k: Key, rep: F.Replies, paused: bool, applied: bool, ghost s: Sys) returns (failed: bool)
      requires client.View() == s.kube && metalClient.View() == s.metal && k !in s.fruns
      modifies client`deployments, client`templates, metalClient`hosts
      ensures var t :=
          PatchDeployment(ActDeployment(ActDeployment(LoadDeployment(s, k), k, rep, paused), k, rep, paused), k,
              applied);
        client.View() == t.kube && metalClient.View() == t.metal
      ensures if && k in s.kube.deployments && s.kube.deployments[k].owner.Some?
                 && s.kube.deployments[k].owner.value in s.kube.clusters
                 && F.TemplateKey(k, s.kube.deployments[k]) in s.kube.templates then
          var d := s.kube.deployments[k];
          var o := F.Run(k, d, d.owner.value, s.kube.clusters[d.owner.value],
                         s.kube.templates[F.TemplateKey(k, d)], MachinesOf(s.kube, d.owner.value) != {},
                         s.kube.templates, s.metal, rep, paused);
          failed == (o.failed || (!o.panicked && !applied))
        else !failed
    {
      hide F.Run, MergeDeployment, F.NewFirewall, F.FirewallHost, F.FreeFirst, F.ErrorsFirst, Lists, Matching,
        FirewallTags;
      hide LoadDeployment, ActDeployment, PatchDeployment;
      Uninterrupted(s, k, rep, paused, applied);
      failed := false;
      if k !in client.deployments { return; }
      var d := client.deployments[k];
      if d.owner.None? || d.owner.value !in client.clusters { return; }
      if F.TemplateKey(k, d) !in client.templates { return; }
      var fwdeploy := new InfraDeployment(d);
      var reconciler := new FirewallReconciler(metalClient, client, k, d.owner.value, client.clusters[d.owner.value],
                                               client.templates[F.TemplateKey(k, d)], fwdeploy);
      var panicked;
      failed, panicked := reconciler.Run(rep, paused);
      if panicked { return; }
      PatchesAll(d, fwdeploy.View());
      client.PatchDeployment(k, d, fwdeploy.View(), applied);
      failed := failed || !applied;
    }
  }
}

/** The cluster controller as the code runs it. */
module ClusterController {
  import opened Names
  import opened Store
  import opened Metal
  import opened Clients
  import opened Protocol
  import opened Outcomes
  import C = ClusterSpec

  class InfraCluster {
    const project: string
    const partition: string
    const firewallDeploymentRef: Option<string>
    const deletion: Option<Time>
    var nodeNetworkID: Option<string>
    var controlPlaneIP: Option<string>
    var controlPlaneEndpoint: Endpoint
    var finalizer: bool
    var ready: bool
    var provisioned: bool
    var conditions: Conds

    constructor (c: Cluster)
      ensures View() == c
    {
      project, partition, firewallDeploymentRef, deletion := c.project, c.partition, c.fwRef, c.deletion;
      nodeNetworkID, controlPlaneIP, controlPlaneEndpoint := c.netId, c.cpIp, c.endpoint;
      finalizer, ready, provisioned, conditions := c.finalizer, c.ready, c.provisioned, c.conds;
    }

    function View(): Cluster
      reads this
    {
      Cluster(project, partition, firewallDeploymentRef, nodeNetworkID, controlPlaneIP, controlPlaneEndpoint,
              finalizer, deletion, ready, provisioned, conditions)
    }

    method SetEnsured(t: CondType, ok: bool)
      modifies this`conditions
      ensures View() == C.Mark(old(View()), t, ok)
    {
      conditions := conditions[t := Cond(ok, if ok then Ensured else InternalError)];
    }
  }

  /** A deletion that nothing interrupts: the guard and, behind it, the teardown. */
  function DeleteAtOnce(k: Key, c: Cluster, machinesLeft: bool, deps: C.Deployments, metal: Metal,
                        rep: C.Replies, now: Time): (r: (C.Outcome, bool))
    ensures C.SameCluster(r.0.obj, c)
  {
    var (deps', v) := C.Guard(k, c, machinesLeft, deps, rep, now);
    match v
    case Panic => (C.Outcome(c, deps', metal, true), true)
    case Stop(failed) => (C.Outcome(c, deps', metal, failed), false)
    case Clear => (C.Teardown(c, deps', metal, rep), false)
  }

  /** A whole run, and whether it ended in a nil dereference. */
  function RunAtOnce(k: Key, c: Cluster, machinesLeft: bool, deps: C.Deployments, metal: Metal,
                     rep: C.Replies, paused: bool, now: Time): (r: (C.Outcome, bool))
    ensures C.SameCluster(r.0.obj, c)
  {
    if paused || c.deletion.None? then (C.RunUp(k, c, deps, metal, rep, paused), false)
    else DeleteAtOnce(k, C.Begin(c, false), machinesLeft, deps, metal, rep, now)
  }

  /** The wait for machines is an error, that for the deployment is none; a run that panics,
      and one that cannot give back address or network, has failed. */
  lemma FailsToDelete(k: Key, c: Cluster, left: bool, deps: C.Deployments, metal: Metal, rep: C.Replies, now: Time)
    requires c.finalizer && c.deletion.Some?
    ensures var (o, panicked) := RunAtOnce(k, c, left, deps, metal, rep, false, now);
      && (panicked <==> rep.list && !left && c.fwRef.None?)
      && (o.failed <==>
            || left || !rep.list || c.fwRef.None?
            || (&& rep.getDeployment && Key(k.ns, c.fwRef.value) !in deps
                && !(AddressGoes(c, metal, rep) && NetworkGoes(c, metal, rep))))
      && (o.obj.finalizer <==> left || !rep.list || c.fwRef.None? || !rep.getDeployment
                               || Key(k.ns, c.fwRef.value) in deps || o.failed)
  {
    hide C.Guard, C.Teardown;
    var b := C.Begin(c, false);
    GuardOutcome(k, b, left, deps, rep, now);
    TeardownOutcome(b, deps, metal, rep);
  }

  datatype Wait = Gone | Waiting | NilDereference

  class ClusterReconciler {
    const metalClient: MetalApi
    const client: KubeClient
    const key: Key
    const infraCluster: InfraCluster

    constructor (api: MetalApi, kube: KubeClient, k: Key, c: InfraCluster)
      ensures metalClient == api && client == kube && key == k && infraCluster == c
    {
      metalClient, client, key, infraCluster := api, kube, k, c;
    }

    ghost function State(failed: bool): C.Outcome
      reads infraCluster, client, metalClient
    {
      C.Outcome(infraCluster.View(), client.deployments, metalClient.View(), failed)
    }

    method EnsureNodeNetwork(rep: C.Replies) returns (id: Option<string>)
      modifies metalClient`networks, metalClient`spentNetworks
      ensures var c, m := infraCluster.View(), old(metalClient.View());
        if c.netId.Some? then id == c.netId && metalClient.View() == m
        else id == NetworkAnswer(m, rep.net) && metalClient.View() == AllocateNetwork(m, c.project, rep.net)
    {
      if infraCluster.nodeNetworkID.Some? { return infraCluster.nodeNetworkID; }
      id := metalClient.AllocateNet(infraCluster.project, rep.net);
    }

    method EnsureFirewallDeployment(rep: C.Replies) returns (ok: bool)
      requires infraCluster.firewallDeploymentRef.Some?
      modifies client`deployments
      ensures (if ok then Some(client.deployments) else None)
           == C.Adopt(key, old(client.deployments), C.DeploymentKey(key, infraCluster.View()), rep)
      ensures !ok ==> client.deployments == old(client.deployments)
    {
      var fk := Key(key.ns, infraCluster.firewallDeploymentRef.value);
      if !rep.getDeployment { return false; }
      var fwdeploy := client.GetDeployment(fk);
      if fwdeploy.None? { return false; }
      if fwdeploy.value.owner == Some(key) { return true; }
      ok := client.UpdateOwner(fk, key, rep.update);
    }

    method EnsureControlPlaneIP(rep: C.Replies) returns (ip: Option<string>)
      modifies metalClient`ips, metalClient`spentIps
      ensures (metalClient.View(), ip) == C.EnsureIP(infraCluster.View(), old(metalClient.View()), rep)
    {
      if infraCluster.controlPlaneIP.Some? { return infraCluster.controlPlaneIP; }
      var networks := metalClient.FindDefaultNetworks(rep.findNets);
      if networks.None? || |networks.value| != 1 { return None; }
      ip := metalClient.AllocateAddress(rep.ip);
    }

    method ReconcileNodeNetwork(rep: C.Replies) returns (failed: bool)
      modifies infraCluster, metalClient`networks, metalClient`spentNetworks
      ensures State(failed)
           == C.EnsureNetwork(old(infraCluster.View()), client.deployments, old(metalClient.View()), rep)
    {
      hide NetworkAnswer, AllocateNetwork, Spends, SpendsFor;
      var id := EnsureNodeNetwork(rep);
      if id.None? {
        infraCluster.SetEnsured(NodeNetworkEnsured, false);
        return true;
      }
      infraCluster.SetEnsured(NodeNetworkEnsured, true);
      infraCluster.nodeNetworkID := id;
      failed := false;
    }

    method ReconcileFirewallDeployment(rep: C.Replies) returns (failed: bool)
      modifies infraCluster, client`deployments
      ensures State(failed) == C.EnsureDeployment(key, old(State(false)), rep)
    {
      hide C.Adopt;
      if infraCluster.firewallDeploymentRef.Some? {
        var ok := EnsureFirewallDeployment(rep);
        infraCluster.SetEnsured(DeploymentEnsured, ok);
        if !ok { return true; }
      }
      failed := false;
    }

    method ReconcileEndpoint(rep: C.Replies) returns (failed: bool)
      modifies infraCluster, metalClient
      ensures State(failed) == C.EnsureEndpoint(old(State(false)), rep)
    {
      hide Spends, SpendsFor, C.EnsureIP;
      if infraCluster.controlPlaneEndpoint.host == "" {
        var ip := EnsureControlPlaneIP(rep);
        infraCluster.SetEnsured(ControlPlaneIPEnsured, ip.Some?);
        if ip.None? { return true; }
        infraCluster.controlPlaneEndpoint := Endpoint(ip.value, C.PORT);
      }
      infraCluster.ready := true;
      infraCluster.provisioned := true;
      failed := false;
    }

    method Reconcile(rep: C.Replies) returns (failed: bool)
      modifies infraCluster, client`deployments, metalClient
      ensures State(failed)
           == C.Reconcile(key, old(infraCluster.View()), old(client.deployments), old(metalClient.View()), rep)
    {
      hide C.Adopt, C.EnsureNetwork, C.EnsureDeployment, C.EnsureEndpoint, Spends, SpendsFor;
      failed := ReconcileNodeNetwork(rep);
      if failed { return; }
      failed := ReconcileFirewallDeployment(rep);
      if failed { return; }
      failed := ReconcileEndpoint(rep);
    }

    method EnsureMachinesAreGone(answered: bool) returns (ok: bool)
      ensures ok == (answered && MachinesOf(client.View(), key) == {})
      ensures ok <==> answered && forall u | u in client.machines :: client.machines[u].cluster != key
    {
      var any := client.AnyMachine(key, answered);
      ok := any == Some(false);
      ghost var labelled := MachinesOf(client.View(), key);
      assert forall u :: u in labelled <==> u in client.machines && client.machines[u].cluster == key;
    }

    method EnsureFirewallDeploymentIsGone(rep: C.Replies, now: Time) returns (w: Wait)
      modifies client`deployments
      ensures w.NilDereference? <==> infraCluster.firewallDeploymentRef.None?
      ensures infraCluster.firewallDeploymentRef.Some? ==>
        var fk, deps := C.DeploymentKey(key, infraCluster.View()), old(client.deployments);
        && (w.Gone? <==> rep.getDeployment && fk !in deps)
        && client.deployments ==
           if rep.getDeployment && fk in deps && deps[fk].deletion.None? && rep.deleteDeployment
           then deps[fk := deps[fk].(deletion := Some(now))] else deps
      ensures infraCluster.firewallDeploymentRef.None? ==> client.deployments == old(client.deployments)
    {
      if infraCluster.firewallDeploymentRef.None? { return NilDereference; }
      var fk := Key(key.ns, infraCluster.firewallDeploymentRef.value);
      if !rep.getDeployment { return Waiting; }
      var fwdeploy := client.GetDeployment(fk);
      if fwdeploy.None? { return Gone; }
      if fwdeploy.value.deletion.Some? { return Waiting; }
      var _ := client.DeleteDeployment(fk, now, rep.deleteDeployment);
      w := Waiting;
    }

    method DeleteControlPlaneIP(rep: C.Replies) returns (ok: bool)
      modifies metalClient`ips
      ensures (metalClient.View(), ok) == C.DeleteIP(infraCluster.View(), old(metalClient.View()), rep)
    {
      if infraCluster.controlPlaneIP.None? { return true; }
      var found := metalClient.FindAddress(infraCluster.controlPlaneIP.value, rep.findIP);
      match found
      case IPError => ok := false;
      case NoIP => ok := true;
      case AnIP(kind) =>
        if kind == Static { return true; }
        ok := metalClient.FreeAddress(infraCluster.controlPlaneIP.value, rep.freeIP);
    }

    method DeleteNodeNetwork(rep: C.Replies) returns (ok: bool)
      modifies metalClient`networks
      ensures (metalClient.View(), ok) == C.DeleteNetwork(infraCluster.View(), old(metalClient.View()), rep)
    {
      if infraCluster.nodeNetworkID.None? { return true; }
      ok := metalClient.FreeNet(infraCluster.nodeNetworkID.value, rep.freeNet);
    }

    /** The wait for the firewall deployment ends the run without an error. */
    method Delete(rep: C.Replies, now: Time) returns (failed: bool, panicked: bool)
      modifies infraCluster, client`deployments, metalClient`ips, metalClient`networks
      ensures (State(failed), panicked)
           == DeleteAtOnce(key, old(infraCluster.View()), MachinesOf(old(client.View()), key) != {},
                           old(client.deployments), old(metalClient.View()), rep, now)
    {
      hide C.DeleteIP, C.DeleteNetwork;
      if !infraCluster.finalizer { return false, false; }
      var gone := EnsureMachinesAreGone(rep.list);
      if !gone { return true, false; }
      var wait := EnsureFirewallDeploymentIsGone(rep, now);
      if wait.NilDereference? { return true, true; }
      if wait.Waiting? { return false, false; }
      var ok := DeleteControlPlaneIP(rep);
      if !ok { return true, false; }
      infraCluster.controlPlaneIP := None;
      ok := DeleteNodeNetwork(rep);
      if !ok { return true, false; }
      infraCluster.nodeNetworkID := None;
      infraCluster.finalizer := false;
      return false, false;
    }

    method Run(rep: C.Replies, paused: bool, now: Time) returns (failed: bool, panicked: bool)
      modifies infraCluster, client`deployments, metalClient
      ensures (State(failed), panicked)
           == RunAtOnce(key, old(infraCluster.View()), MachinesOf(old(client.View()), key) != {},
                        old(client.deployments), old(metalClient.View()), rep, paused, now)
    {
      hide DeleteAtOnce, C.Reconcile, Spends, SpendsFor, C.Adopt;
      infraCluster.conditions :=
          infraCluster.conditions[Paused := Cond(paused, if paused then IsPaused else NotPaused)];
      failed, panicked := false, false;
      if paused {
      } else if infraCluster.deletion.Some? {
        failed, panicked := Delete(rep, now);
      } else if !infraCluster.finalizer {
        infraCluster.finalizer := true;
      } else {
        failed := Reconcile(rep);
      }
    }
  }

  /** Acting without a loaded run changes nothing. */
  lemma NoRun(s: Sys, k: Key, rep: C.Replies, paused: bool)
    requires k in s.cruns ==> s.cruns[k].CActed?
    ensures ActCluster(s, k, rep, paused) == s
  {}

  /** A deletion in a row: load, guard, teardown. */
  lemma GuardAndTeardown(s: Sys, k: Key, rep: C.Replies)
    requires k in s.cruns && s.cruns[k].CLoaded? && s.cruns[k].c.deletion.Some? && k in s.cbooks
    ensures var t := ActCluster(ActCluster(s, k, rep, false), k, rep, false); var c := s.cruns[k].c;
      var (o, panicked) :=
          DeleteAtOnce(k, C.Begin(c, false), MachinesOf(s.kube, k) != {}, s.kube.deployments, s.metal, rep, s.now);
      t == s.(metal := o.metal, kube := s.kube.(deployments := o.deployments),
              cruns := if panicked then s.cruns - {k} else s.cruns[k := CActed(c, o.obj, false, false)])
  {
    hide C.Guard, C.Teardown, MachinesOf, C.Begin, ActClusterUp, ActClusterTeardown;
    var s1, c := ActClusterGuard(s, k, rep), s.cruns[k].c;
    assert ActCluster(s, k, rep, false) == s1;
    if k in s1.cruns && s1.cruns[k].CCleared? {
      TeardownStep(s1, k, rep);
    } else {
      NoRun(s1, k, rep, false);
    }
  }

  lemma TeardownStep(s: Sys, k: Key, rep: C.Replies)
    requires k in s.cruns && s.cruns[k].CCleared? && k in s.cbooks
    ensures var t := ActCluster(s, k, rep, false); var c := s.cruns[k].c;
      var o := C.Teardown(C.Begin(c, false), s.kube.deployments, s.metal, rep);
      && t == s.(metal := o.metal, cruns := s.cruns[k := CActed(c, o.obj, false, false)])
      && o.deployments == s.kube.deployments
  {
    hide C.Teardown, C.Begin;
  }

  /** Provisioning in a row: load and act. */
  lemma UpAtOnce(s: Sys, k: Key, rep: C.Replies, paused: bool)
    requires k in s.cruns && s.cruns[k].CLoaded? && (paused || s.cruns[k].c.deletion.None?) && k in s.cbooks
    ensures var t := ActCluster(ActCluster(s, k, rep, paused), k, rep, paused); var c := s.cruns[k].c;
      var o := C.RunUp(k, c, s.kube.deployments, s.metal, rep, paused);
      && t.metal == o.metal && t.kube == s.kube.(deployments := o.deployments) && k in t.cbooks
      && k in t.cruns && t.cruns[k].CActed? && t.cruns[k].before == c && t.cruns[k].after == o.obj
  {
    hide C.RunUp, ActClusterGuard, ActClusterTeardown, Spends, SpendsFor, C.Adopt, UpBook, C.Reconcile;
  }

  lemma PatchActed(t: Sys, k: Key, c: Cluster, after: Cluster)
    requires k in t.cruns && t.cruns[k].CActed? && t.cruns[k].before == c && t.cruns[k].after == after
    requires k in t.kube.clusters && t.kube.clusters[k] == c && k in t.cbooks
    requires C.SameCluster(after, c)
    ensures PatchCluster(t, k, true).kube == t.kube.(clusters := t.kube.clusters[k := after])
    ensures PatchCluster(t, k, false).kube == t.kube
  {
    PatchesAll(c, after);
    hide MergeCluster;
  }

  /** A patch against the object as it was read stores the object as the run left it. */
  lemma PatchesAll(c: Cluster, after: Cluster)
    requires C.SameCluster(after, c)
    ensures MergeCluster(c, c, after) == after
  {}

  /** A run that panicked has nothing to patch. */
  lemma PanickedPatch(t: Sys, k: Key)
    requires k !in t.cruns
    ensures forall applied :: PatchCluster(t, k, applied) == t
  {}

  lemma NothingToLoad(s: Sys, k: Key, rep: C.Replies, paused: bool, applied: bool)
    requires k !in s.cruns && k !in s.kube.clusters
    ensures PatchCluster(ActCluster(ActCluster(LoadCluster(s, k), k, rep, paused), k, rep, paused), k, applied) == s
    ensures ActCluster(ActCluster(LoadCluster(s, k), k, rep, paused), k, rep, paused) == s
  {
    NoRun(s, k, rep, paused);
  }

  lemma UpLoaded(s: Sys, k: Key, rep: C.Replies, paused: bool)
    requires k !in s.cruns && k in s.kube.clusters && k in s.cbooks && (paused || s.kube.clusters[k].deletion.None?)
    ensures var t := ActCluster(ActCluster(LoadCluster(s, k), k, rep, paused), k, rep, paused);
      var c := s.kube.clusters[k];
      var o := C.RunUp(k, c, s.kube.deployments, s.metal, rep, paused);
      && t.metal == o.metal
      && PatchCluster(t, k, true).kube == s.kube.(deployments := o.deployments,
           clusters := s.kube.clusters[k := o.obj])
      && PatchCluster(t, k, false).kube == s.kube.(deployments := o.deployments)
  {
    hide C.RunUp, ActCluster, PatchCluster, MergeCluster;
    var s1, c := LoadCluster(s, k), s.kube.clusters[k];
    UpAtOnce(s1, k, rep, paused);
    var t := ActCluster(ActCluster(s1, k, rep, paused), k, rep, paused);
    PatchActed(t, k, c, C.RunUp(k, c, s.kube.deployments, s.metal, rep, paused).obj);
  }

  lemma LoadAndAct(s: Sys, k: Key, rep: C.Replies, paused: bool)
    requires k !in s.cruns && k in s.kube.clusters && k in s.cbooks
    ensures var t := ActCluster(ActCluster(LoadCluster(s, k), k, rep, paused), k, rep, paused);
      var c := s.kube.clusters[k];
      var (o, panicked) :=
          RunAtOnce(k, c, MachinesOf(s.kube, k) != {}, s.kube.deployments, s.metal, rep, paused, s.now);
      && t.metal == o.metal
      && PatchCluster(t, k, true).kube == s.kube.(deployments := o.deployments,
           clusters := if panicked then s.kube.clusters else s.kube.clusters[k := o.obj])
      && PatchCluster(t, k, false).kube == s.kube.(deployments := o.deployments)
  {
    hide C.RunUp, DeleteAtOnce, LoadCluster, ActCluster, PatchCluster, MergeCluster, MachinesOf, C.Begin;
    if paused || s.kube.clusters[k].deletion.None? {
      UpLoaded(s, k, rep, paused);
    } else {
      DeleteLoaded(s, k, rep);
    }
  }

  lemma DeleteLoaded(s: Sys, k: Key, rep: C.Replies)
    requires k !in s.cruns && k in s.kube.clusters && k in s.cbooks && s.kube.clusters[k].deletion.Some?
    ensures var t := ActCluster(ActCluster(LoadCluster(s, k), k, rep, false), k, rep, false);
      var c := s.kube.clusters[k];
      var (o, panicked) :=
          DeleteAtOnce(k, C.Begin(c, false), MachinesOf(s.kube, k) != {}, s.kube.deployments, s.metal, rep, s.now);
      && t.metal == o.metal
      && PatchCluster(t, k, true).kube == s.kube.(deployments := o.deployments,
           clusters := if panicked then s.kube.clusters else s.kube.clusters[k := o.obj])
      && PatchCluster(t, k, false).kube == s.kube.(deployments := o.deployments)
  {
    var c := s.kube.clusters[k];
    assert C.SameCluster(C.Begin(c, false), c);
    hide DeleteAtOnce, ActCluster, PatchCluster, MergeCluster, MachinesOf, C.Begin;
    GuardAndTeardown(LoadCluster(s, k), k, rep);
    var t := ActCluster(ActCluster(LoadCluster(s, k), k, rep, false), k, rep, false);
    var (o, panicked) :=
        DeleteAtOnce(k, C.Begin(c, false), MachinesOf(s.kube, k) != {}, s.kube.deployments, s.metal, rep, s.now);
    if panicked { PanickedPatch(t, k); } else { PatchActed(t, k, c, o.obj); }
  }

  class MetalStackClusterReconciler {
    const metalClient: MetalApi
    const client: KubeClient

    constructor (api: MetalApi, kube: KubeClient)
      ensures metalClient == api && client == kube
    {
      metalClient, client := api, kube;
    }

    /** A run that nothing interrupts is four steps of the protocol: load, two
        steps to act (a deletion is guarded before it tears down) and patch. A run
        that panics reaches no patch. */
    method Reconcile(k: Key, rep: C.Replies, paused: bool, now: Time, applied: bool,
                     ghost s: Sys) returns (failed: bool)
      requires client.View() == s.kube && metalClient.View() == s.metal && now == s.now
      requires k !in s.cruns && (k in s.kube.clusters ==> k in s.cbooks)
      modifies client`clusters, client`deployments, metalClient
      ensures var t := ActCluster(ActCluster(LoadCluster(s, k), k, rep, paused), k, rep, paused);
        client.View() == PatchCluster(t, k, applied).kube && metalClient.View() == t.metal
      ensures if k in s.kube.clusters then
          var (o, panicked) := RunAtOnce(k, s.kube.clusters[k], MachinesOf(s.kube, k) != {}, s.kube.deployments,
                                         s.metal, rep, paused, now);
          failed == (o.failed || (!panicked && !applied))
        else !failed
    {
      hide C.RunUp, RunAtOnce, ActCluster, LoadCluster, PatchCluster, MergeCluster, Spends, SpendsFor, C.Adopt,
        C.Reconcile, MachinesOf, C.Begin;
      failed := false;
      if k !in client.clusters {
        NothingToLoad(s, k, rep, paused, applied);
        return;
      }
      var c := client.clusters[k];
      LoadAndAct(s, k, rep, paused);
      var infraCluster := new InfraCluster(c);
      var reconciler := new ClusterReconciler(metalClient, client, k, infraCluster);
      var panicked;
      failed, panicked := reconciler.Run(rep, paused, now);
      if panicked { return; }
      PatchesAll(c, infraCluster.View());
      client.PatchCluster(k, c, infraCluster.View(), applied);
      failed := failed || !applied;
    }
  }
}

/** The machine controller as the code runs it: one object updated step by step
    around the calls to the provider. */
module MachineController {
  import opened Names
  import opened Store
  import opened Metal
  import opened Clients
  import opened Protocol
  import M = MachineSpec

  class InfraMachine {
    const cluster: Key
    const name: Key
    const image: string
    const size: string
    const controlPlane: bool
    const secret: Option<string>
    const deletion: Option<Time>
    var providerID: string
    var finalizer: bool
    var ready: bool
    var provisioned: bool
    var failure: Option<Failure>
    var labels: map<Label, string>
    var addresses: seq<Address>
    var conditions: Conds

    constructor (m: Machine)
      ensures View() == m
    {
      cluster, name, image, size, controlPlane := m.cluster, m.name, m.image, m.size, m.controlPlane;
      secret, deletion := m.secret, m.deletion;
      providerID, finalizer, ready, provisioned := m.providerID, m.finalizer, m.ready, m.provisioned;
      failure, labels, addresses, conditions := m.failure, m.labels, m.addresses, m.conds;
    }

    function View(): Machine
      reads this
    {
      Machine(cluster, name, image, size, controlPlane, secret, providerID, finalizer, deletion, ready, provisioned,
              failure, labels, addresses, conditions)
    }

    method SetCondition(t: CondType, status: bool, reason: Reason)
      modifies this`conditions
      ensures conditions == old(conditions)[t := Cond(status, reason)]
    {
      conditions := conditions[t := Cond(status, reason)];
    }
  }

  // ------------------------------------------------ steps of the address loops

  lemma FlattenStart()
    ensures M.AllNicAddresses([]) == []
  {}

  lemma FlattenStep(nics: seq<Nic>, n: nat)
    requires n < |nics|
    ensures M.AllNicAddresses(nics[..n + 1]) == M.AllNicAddresses(nics[..n]) +
      match nics[n].kind
      case Some(PrivatePrimaryUnshared) => M.Tagged(InternalIP, nics[n].ips)
      case Some(External) => M.Tagged(ExternalIP, nics[n].ips)
      case _ => []
  {
    assert nics[..n + 1][..n] == nics[..n];
  }

  lemma TagStart(kind: AddressKind)
    ensures M.Tagged(kind, []) == []
  {}

  lemma TagStep(kind: AddressKind, ips: seq<string>, i: nat)
    requires i < |ips|
    ensures M.Tagged(kind, ips[..i + 1]) == M.Tagged(kind, ips[..i]) + [Address(kind, ips[i])]
  {}

  class MachineReconciler {
    const metalClient: MetalApi
    const uid: nat
    const infraCluster: Cluster
    const infraMachine: InfraMachine

    constructor (api: MetalApi, u: nat, c: Cluster, m: InfraMachine)
      ensures metalClient == api && uid == u && infraCluster == c && infraMachine == m
    {
      metalClient, uid, infraCluster, infraMachine := api, u, c, m;
    }

    method FindProviderMachine(answered: bool) returns (l: M.Lookup)
      modifies infraMachine`conditions
      ensures l == M.Find(old(infraMachine.View()), infraCluster, metalClient.View(), answered)
      ensures infraMachine.View() == M.AfterLookup(old(infraMachine.View()), l)
    {
      if infraMachine.providerID == "" { return M.Absent; }
      var found := metalClient.FindMachine(DecodeProviderID(infraMachine.providerID), answered);
      match found
      case NoHost => l := M.Absent;
      case HostError =>
        infraMachine.SetCondition(MachineCreated, false, InternalError);
        l := M.LookupError;
      case AHost(h) =>
        if h.project != infraCluster.project { l := M.Absent; } else { l := M.Present(h); }
    }

    /** The allocation request, on the stored node network. */
    method Create(rep: M.Replies) returns (host: Host, id: Option<string>)
      requires infraCluster.netId.Some?
      modifies metalClient`hosts
      ensures host == M.MachineHost(uid, infraMachine.View(), infraCluster, infraCluster.netId.value, rep.report)
      ensures id == if rep.secret then HostAnswer(old(metalClient.View()), rep.alloc) else None
      ensures metalClient.View() ==
        if rep.secret then AllocateHost(old(metalClient.View()), host, rep.alloc) else old(metalClient.View())
    {
      var net := infraCluster.netId.value;
      var tags := MachineTags(net, infraMachine.cluster, infraMachine.name, infraMachine.controlPlane);
      tags := tags + AdditionalMachineTags(infraCluster.partition, infraMachine.name);
      host := Host(Worker, infraMachine.name.name, infraCluster.project, Some(infraCluster.partition), [net], tags,
                   infraMachine.image, infraMachine.size, None, ByMachine(uid), rep.report);
      id := None;
      if !rep.secret { return; }
      id := metalClient.Allocate(host, rep.alloc);
    }

    method GetMachineStatus(r: Report) returns (isReady: bool, errs: seq<M.Trouble>)
      ensures isReady <==> r.events.Some? && |r.events.value.log| > 0 && r.events.value.log[0] == Some(PhonedHome)
      ensures errs == M.Troubles(r)
      ensures M.NotAlive(r.liveliness) in errs <==> r.liveliness != Some(Alive)
      ensures M.CrashLoop in errs <==> r.events.Some? && r.events.value.crashLoop == Some(true)
      ensures M.ReclaimFailing in errs <==> r.events.Some? && r.events.value.failedReclaim == Some(true)
    {
      errs := [];
      if r.liveliness != Some(Alive) {
        errs := errs + [M.NotAlive(r.liveliness)];
      }
      if r.events.Some? {
        if r.events.value.crashLoop.Some? && r.events.value.crashLoop.value {
          errs := errs + [M.CrashLoop];
        }
        if r.events.value.failedReclaim.Some? && r.events.value.failedReclaim.value {
          errs := errs + [M.ReclaimFailing];
        }
      }
      isReady := r.events.Some? && |r.events.value.log| > 0 && r.events.value.log[0] == Some(PhonedHome);
    }

    method GetMachineAddresses(r: Report) returns (maddrs: seq<Address>)
      ensures maddrs == M.Addresses(r)
    {
      hide M.AllNicAddresses, M.NicAddresses, M.Tagged;
      maddrs := [];
      if r.hostname.Some? {
        maddrs := maddrs + [Address(HostName, r.hostname.value)];
      }
      ghost var host := maddrs;
      FlattenStart();
      for n := 0 to |r.nics|
        invariant maddrs == host + M.AllNicAddresses(r.nics[..n])
      {
        var nic := r.nics[n];
        ghost var before := maddrs;
        FlattenStep(r.nics, n);
        match nic.kind
        case Some(PrivatePrimaryUnshared) =>
          TagStart(InternalIP);
          for i := 0 to |nic.ips|
            invariant maddrs == before + M.Tagged(InternalIP, nic.ips[..i])
          {
            TagStep(InternalIP, nic.ips, i);
            maddrs := maddrs + [Address(InternalIP, nic.ips[i])];
          }
          assert nic.ips[..|nic.ips|] == nic.ips;
        case Some(External) =>
          TagStart(ExternalIP);
          for i := 0 to |nic.ips|
            invariant maddrs == before + M.Tagged(ExternalIP, nic.ips[..i])
          {
            TagStep(ExternalIP, nic.ips, i);
            maddrs := maddrs + [Address(ExternalIP, nic.ips[i])];
          }
          assert nic.ips[..|nic.ips|] == nic.ips;
        case _ =>
      }
      assert r.nics[..|r.nics|] == r.nics;
    }

    method PatchMachineLabels(h: Host)
      modifies infraMachine`labels
      ensures infraMachine.labels == M.Labelled(old(infraMachine.labels), h)
    {
      var labels := infraMachine.labels;
      if h.report.hostname.Some? { labels := labels[HostnameLabel := h.report.hostname.value]; }
      if h.partition.Some? { labels := labels[ZoneLabel := h.partition.value]; }
      if h.report.rack != "" { labels := labels[RackLabel := h.report.rack]; }
      if h.report.asn.Some? { labels := labels[AsnLabel := h.report.asn.value]; }
      if h.report.chassis.Some? { labels := labels[ChassisLabel := h.report.chassis.value]; }
      infraMachine.labels := labels;
    }

    /** What `reconcile` does once it holds the provider machine. */
    method Observe(id: string, h: Host) returns (requeue: Option<Time>)
      modifies infraMachine
      ensures infraMachine.View() == M.Observed(old(infraMachine.View()), id, h)
      ensures requeue == M.ObservedRequeue(h)
    {
      hide M.Labelled, M.Addresses, M.Troubles, EncodeProviderID, Lacks, DecodeProviderID;
      infraMachine.SetCondition(MachineCreated, true, Created);
      infraMachine.providerID := EncodeProviderID(h.partition, id);
      PatchMachineLabels(h);
      requeue := None;
      var isReady, errs := GetMachineStatus(h.report);
      if errs != [] {
        infraMachine.SetCondition(MachineHealthy, false, NotHealthy);
        requeue := Some(30 * SECOND);
      } else {
        infraMachine.SetCondition(MachineHealthy, true, Healthy);
      }
      if isReady {
        infraMachine.SetCondition(MachineReady, true, IsReady);
        infraMachine.ready := true;
        infraMachine.provisioned := true;
      } else {
        infraMachine.SetCondition(MachineReady, false, NotReady);
        requeue := Some(30 * SECOND);
      }
      infraMachine.addresses := GetMachineAddresses(h.report);
    }

    method Reconcile(rep: M.Replies) returns (requeue: Option<Time>, failed: bool)
      modifies infraMachine, metalClient`hosts
      ensures M.Outcome(infraMachine.View(), metalClient.View(), requeue, failed)
           == M.Reconcile(uid, old(infraMachine.View()), infraCluster, old(metalClient.View()), rep)
    {
      hide M.Observed, M.MachineHost, M.ObservedRequeue, DecodeProviderID, M.PlainPartitions, M.Allocates,
        AllocateHost, M.KeepsID;
      if infraCluster.netId.None? { return None, true; }
      if infraCluster.endpoint.host == "" { return None, true; }
      if infraMachine.secret.None? { return None, true; }
      var id, h;
      if infraMachine.providerID != "" {
        var l := FindProviderMachine(rep.find);
        match l {
          case Absent =>
            infraMachine.failure := Some(DeletedExternally);
            return None, true;
          case LookupError =>
            infraMachine.SetCondition(MachineCreated, false, InternalError);
            return None, true;
          case Present(found) =>
            id, h := DecodeProviderID(infraMachine.providerID), found;
        }
      } else {
        var host, answer := Create(rep);
        if answer.None? {
          infraMachine.SetCondition(MachineCreated, false, InternalError);
          return None, true;
        }
        id, h := answer.value, host;
      }
      requeue := Observe(id, h);
      failed := false;
    }

    method Delete(rep: M.Replies, now: Time) returns (requeue: Option<Time>, failed: bool)
      requires infraMachine.deletion.Some?
      modifies infraMachine`finalizer, infraMachine`conditions, metalClient`hosts
      ensures M.Outcome(infraMachine.View(), metalClient.View(), requeue, failed)
           == M.Delete(old(infraMachine.View()), infraCluster, old(metalClient.View()), rep, now)
    {
      if !infraMachine.finalizer { return None, false; }
      var l := FindProviderMachine(rep.find);
      match l {
        case Absent =>
          if !infraMachine.controlPlane {
            infraMachine.finalizer := false;
            return None, false;
          }
          if infraMachine.deletion.value + GRACE < now {
            infraMachine.finalizer := false;
            return None, false;
          }
          return Some(GRACE / 2), false;
        case LookupError =>
          return None, true;
        case Present(_) =>
      }
      var freed := metalClient.FreeMachine(DecodeProviderID(infraMachine.providerID), rep.free);
      if !freed { return None, true; }
      if !infraMachine.controlPlane {
        infraMachine.finalizer := false;
        return None, false;
      }
      return Some(MINUTE), false;
    }

    /** The arms of a run, between snapshot and patch. */
    method Run(rep: M.Replies, paused: bool, now: Time) returns (requeue: Option<Time>, failed: bool)
      modifies infraMachine, metalClient`hosts
      ensures M.Outcome(infraMachine.View(), metalClient.View(), requeue, failed)
           == M.Run(uid, old(infraMachine.View()), infraCluster, old(metalClient.View()), rep, paused, now)
    {
      infraMachine.SetCondition(Paused, paused, if paused then IsPaused else NotPaused);
      requeue, failed := None, false;
      if paused {
      } else if infraMachine.deletion.Some? {
        requeue, failed := Delete(rep, now);
      } else if !infraMachine.finalizer {
        infraMachine.finalizer := true;
      } else {
        requeue, failed := Reconcile(rep);
      }
    }
  }

  /** Act and patch in a row. */
  lemma ActAndPatch(s: Sys, u: nat, rep: M.Replies, paused: bool, applied: bool)
    requires u in s.mruns && s.mruns[u].MLoaded? && u in s.mbooks && u in s.kube.machines
    ensures var t := PatchMachine(ActMachine(s, u, rep, paused), u, applied); var r := s.mruns[u];
      var o := M.Run(u, r.m, r.c, s.metal, rep, paused, s.now);
      t == s.(metal := o.metal, mruns := s.mruns - {u}, mbooks := t.mbooks,
              kube := s.kube.(machines :=
                  if applied then s.kube.machines[u := MergeMachine(s.kube.machines[u], r.m, o.obj)]
                                          else s.kube.machines))
  {
    hide M.Run, MergeMachine, Settle;
  }

  /** A patch against the object as it was read stores the object as the run left it. */
  lemma PatchesAll(m: Machine, after: Machine)
    requires M.SameMachine(after, m)
    ensures MergeMachine(m, m, after) == after
  {}

  /** Load, act and patch in a row: what the run computes is what is stored. */
  lemma Uninterrupted(s: Sys, u: nat, rep: M.Replies, paused: bool, applied: bool)
    requires u !in s.mruns && (u in s.kube.machines ==> u in s.mbooks)
    ensures var t := PatchMachine(ActMachine(LoadMachine(s, u), u, rep, paused), u, applied);
      if u in s.kube.machines && s.kube.machines[u].cluster in s.kube.clusters then
        var m := s.kube.machines[u];
        var o := M.Run(u, m, s.kube.clusters[m.cluster], s.metal, rep, paused, s.now);
        t == s.(kube :=
            s.kube.(machines := if applied then s.kube.machines[u := o.obj] else s.kube.machines),
                metal := o.metal, mbooks := t.mbooks)
      else t == s
  {
    hide M.Run, MergeMachine, Settle, M.KeepsID, M.PlainPartitions, M.Allocates, M.Frees, M.MayProvision, M.MachineHost;
    if u in s.kube.machines && s.kube.machines[u].cluster in s.kube.clusters {
      Loads(s, u);
      hide LoadMachine, ActMachine, PatchMachine;
      ActAndPatch(LoadMachine(s, u), u, rep, paused, applied);
      var m := s.kube.machines[u];
      PatchesAll(m, M.Run(u, m, s.kube.clusters[m.cluster], s.metal, rep, paused, s.now).obj);
    }
  }

  lemma Loads(s: Sys, u: nat)
    requires u !in s.mruns && u in s.kube.machines && s.kube.machines[u].cluster in s.kube.clusters
    ensures var m := s.kube.machines[u];
      && LoadMachine(s, u) == s.(mruns := s.mruns[u := MLoaded(m, s.kube.clusters[m.cluster])])
      && LoadMachine(s, u).mruns - {u} == s.mruns
  {}

  class MetalStackMachineReconciler {
    const metalClient: MetalApi
    const client: KubeClient

    constructor (api: MetalApi, kube: KubeClient)
      ensures metalClient == api && client == kube
    {
      metalClient, client := api, kube;
    }

    /** A run that nothing interrupts is three steps of the protocol: load, act
        and patch. */
    method Reconcile(u: nat, rep: M.Replies, paused: bool, now: Time, applied: bool, ghost s: Sys)
      returns (requeue: Option<Time>, failed: bool)
      requires client.View() == s.kube && metalClient.View() == s.metal && now == s.now
      requires u !in s.mruns && (u in s.kube.machines ==> u in s.mbooks)
      modifies client`machines, metalClient`hosts
      ensures var t := PatchMachine(ActMachine(LoadMachine(s, u), u, rep, paused), u, applied);
        client.View() == t.kube && metalClient.View() == t.metal
      ensures if u in s.kube.machines && s.kube.machines[u].cluster in s.kube.clusters then
          var m := s.kube.machines[u];
          var o := M.Run(u, m, s.kube.clusters[m.cluster], s.metal, rep, paused, now);
          requeue == o.requeue && failed == (o.failed || !applied)
        else requeue == None && !failed
    {
      hide M.Run, MergeMachine, M.KeepsID, M.PlainPartitions, M.Allocates, M.Frees;
      hide LoadMachine, ActMachine, PatchMachine;
      Uninterrupted(s, u, rep, paused, applied);
      requeue, failed := None, false;
      if u !in client.machines { return; }
      var m := client.machines[u];
      if m.cluster !in client.clusters { return; }
      var infraMachine := new InfraMachine(m);
      var reconciler := new MachineReconciler(metalClient, u, client.clusters[m.cluster], infraMachine);
      requeue, failed := reconciler.Run(rep, paused, now);
      PatchesAll(m, infraMachine.View());
      client.PatchMachine(u, m, infraMachine.View(), applied);
      failed := failed || !applied;
    }
  }
}

/** What stays true between two points of one run: values that are written once,
    allocations that are not repeated, the grace period, and who owns a provider
    machine that is freed. */
module History {
  import opened Names
  import opened Store
  import opened Metal
  import opened Protocol
  import opened Invariant
  import opened StepFrames
  import R = Reachable
  import MS = MachineSteps
  import CS = ClusterSteps
  import DS = DeploymentSteps
  import opened Safety
  import M = MachineSpec
  import C = ClusterSpec
  import F = FirewallSpec
  import Requests

  lemma {:induction false} InvExec(s: Sys, more: seq<Step>)
    requires Inv(s)
    ensures Inv(Exec(s, more))
  {
    hide Inv, Next;
    if more != [] {
      InvExec(s, more[..|more| - 1]);
      R.NextInv(Exec(s, more[..|more| - 1]), more[|more| - 1]);
    }
  }

  // ------------------------------------------------------ machines, over time

  /** Machine object `u` at two points of a run: what it records it keeps, and
      for a recorded machine nothing is allocated any more. */
  predicate MachineKeeps(u: nat, ms: map<nat, Machine>, bs: map<nat, MachineBook>,
                         ms': map<nat, Machine>, bs': map<nat, MachineBook>) {
    u in ms && u in bs && ms[u].providerID != "" ==>
      && u in bs' && bs'[u].allocs == bs[u].allocs
      && (u in ms' ==>
            && ms'[u].providerID != "" && M.RecordedID(ms'[u]) == M.RecordedID(ms[u])
            && (ms[u].provisioned ==> ms'[u].provisioned) && ms'[u].cluster == ms[u].cluster)
  }

  /** An object that is gone does not come back. */
  predicate StaysGone(u: nat, ms: map<nat, Machine>, bs: map<nat, MachineBook>,
                      ms': map<nat, Machine>, bs': map<nat, MachineBook>) {
    u in bs && u !in ms ==> u in bs' && u !in ms' && bs'[u].allocs == bs[u].allocs
  }

  predicate Keeps(u: nat, s: Sys, t: Sys) {
    && MachineKeeps(u, s.kube.machines, s.mbooks, t.kube.machines, t.mbooks)
    && StaysGone(u, s.kube.machines, s.mbooks, t.kube.machines, t.mbooks)
  }

  type Machines = map<nat, Machine>
  type Books = map<nat, MachineBook>

  lemma BooksKeep(u: nat, v: nat, ms: Machines, bs: Books, b: MachineBook)
    requires v in ms && ms[v].providerID == ""
    ensures MachineKeeps(u, ms, bs, ms, bs[v := b]) && StaysGone(u, ms, bs, ms, bs[v := b])
  {
    hide M.RecordedID;
  }

  lemma EditKeeps(u: nat, v: nat, ms: Machines, bs: Books, m: Machine)
    requires v in ms && M.KeepsID(ms[v], m) && m.cluster == ms[v].cluster
    ensures MachineKeeps(u, ms, bs, ms[v := m], bs) && StaysGone(u, ms, bs, ms[v := m], bs)
  {
    hide M.RecordedID;
  }

  lemma LossKeeps(u: nat, v: nat, ms: Machines, bs: Books, b: MachineBook)
    requires v in ms && v in bs && b.allocs == bs[v].allocs
    ensures MachineKeeps(u, ms, bs, ms, bs[v := b]) && StaysGone(u, ms, bs, ms, bs[v := b])
  {
    hide M.RecordedID;
  }

  lemma RemovalKeeps(u: nat, v: nat, ms: Machines, bs: Books)
    ensures MachineKeeps(u, ms, bs, ms - {v}, bs) && StaysGone(u, ms, bs, ms - {v}, bs)
  {
    hide M.RecordedID;
  }

  lemma SameMachinesKeep(u: nat, s: Sys, t: Sys)
    requires t.kube.machines == s.kube.machines && t.mbooks == s.mbooks
    ensures Keeps(u, s, t)
  {}

  /** A run for a recorded machine allocates nothing, so its book stands. */
  lemma RecordedRun(s: Sys, v: nat, m: Machine, o: M.Outcome)
    requires v in s.mbooks && o.metal.hosts.Keys <= s.metal.hosts.Keys
    ensures RecordRun(s, v, m, o).mbooks == s.mbooks
  {
    assert o.metal.hosts.Keys - s.metal.hosts.Keys == {};
    MS.SettleNothing(s.mbooks[v]);
    hide Settle;
    assert s.mbooks[v := s.mbooks[v]] == s.mbooks;
  }

  lemma OtherBooks(s: Sys, v: nat, m: Machine, o: M.Outcome)
    requires v in s.mbooks
    ensures RecordRun(s, v, m, o).mbooks == s.mbooks[v := RecordRun(s, v, m, o).mbooks[v]]
  {
    hide Settle;
  }

  lemma ActBooks(s: Sys, v: nat, rep: M.Replies, paused: bool)
    requires Inv(s)
    ensures var bs := ActMachine(s, v, rep, paused).mbooks;
      bs == s.mbooks
          || (v in s.kube.machines && s.kube.machines[v].providerID == "" && v in bs && bs == s.mbooks[v := bs[v]])
  {
    if v in s.mruns && s.mruns[v].MLoaded? && v in s.mbooks {
      MS.RunStarts(s, v);
      hide Inv, M.Run, M.PlainPartitions, RecordRun;
      var m := s.mruns[v].m;
      var o := M.Run(v, m, s.mruns[v].c, s.metal, rep, paused, s.now);
      if m.providerID != "" {
        assert o.metal.hosts.Keys <= s.metal.hosts.Keys;
        RecordedRun(s, v, m, o);
      } else {
        OtherBooks(s, v, m, o);
      }
    }
  }

  lemma ActKeeps(s: Sys, v: nat, rep: M.Replies, paused: bool, u: nat)
    requires Inv(s)
    ensures Keeps(u, s, ActMachine(s, v, rep, paused))
  {
    ActBooks(s, v, rep, paused);
    hide Inv, ActMachine, MachineKeeps, StaysGone;
    var t := ActMachine(s, v, rep, paused);
    if t.mbooks == s.mbooks {
      SameMachinesKeep(u, s, t);
    } else {
      BooksKeep(u, v, s.kube.machines, s.mbooks, t.mbooks[v]);
    }
  }

  lemma PatchKeeps(s: Sys, v: nat, applied: bool, u: nat)
    requires Inv(s)
    ensures Keeps(u, s, PatchMachine(s, v, applied))
  {
    if v in s.mruns && s.mruns[v].MActed? {
      MergeKeepsID(s, v);
      hide Inv, MergeMachine, MachineKeeps, StaysGone, M.KeepsID;
      if applied {
        EditKeeps(u, v, s.kube.machines, s.mbooks,
            MergeMachine(s.kube.machines[v], s.mruns[v].before, s.mruns[v].after));
      } else {
        LossKeeps(u, v, s.kube.machines, s.mbooks, PatchMachine(s, v, false).mbooks[v]);
      }
    } else {
      SameMachinesKeep(u, s, PatchMachine(s, v, applied));
    }
  }

  lemma MergeKeepsID(s: Sys, v: nat)
    requires Inv(s) && v in s.mruns && s.mruns[v].MActed?
    ensures v in s.kube.machines && v in s.mbooks
    ensures var m := MergeMachine(s.kube.machines[v], s.mruns[v].before, s.mruns[v].after);
      M.KeepsID(s.kube.machines[v], m) && m.cluster == s.kube.machines[v].cluster
  {
    MS.RunFacts(s, v);
    MS.Merged(s.kube.machines[v], s.mruns[v].before, s.mruns[v].after);
    hide Inv, MergeMachine, Released, M.RecordedID, ClusterSeen;
  }

  lemma UserStepKeeps(s: Sys, step: Step, u: nat)
    requires Inv(s)
    requires step.SVanishMachine? || step.SCreateMachine? || step.SDeleteMachine? || step.SSetSecret?
    ensures Keeps(u, s, Next(s, step))
  {
    hide MachineKeeps, StaysGone, Inv, DecodeProviderID, CreateMachine;
    var v, t, ms := step.u, Next(s, step), s.kube.machines;
    if t.kube.machines == ms && t.mbooks == s.mbooks {
      SameMachinesKeep(u, s, t);
    } else if step.SVanishMachine? {
      RemovalKeeps(u, v, ms, s.mbooks);
    } else if step.SCreateMachine? {
      CreateKeeps(s, v, step.machine, u);
    } else {
      EditKeeps(u, v, ms, s.mbooks, t.kube.machines[v]);
    }
  }

  lemma CreateKeeps(s: Sys, v: nat, m: Machine, u: nat)
    requires Inv(s)
    ensures Keeps(u, s, CreateMachine(s, v, m))
  {
    hide Inv, M.RecordedID;
    if v !in s.mbooks { R.NewUid(s, v); }
  }

  lemma NextKeeps(s: Sys, step: Step, u: nat)
    requires Inv(s)
    ensures Keeps(u, s, Next(s, step))
  {
    hide Inv, Keeps, LoadMachine, ActMachine, PatchMachine, VanishMachine, DeleteMachine, SetSecret;
    if step.SActMachine? {
      ActKeeps(s, step.u, step.mrep, step.paused, u);
    } else if step.SPatchMachine? {
      PatchKeeps(s, step.u, step.applied, u);
    } else if step.SVanishMachine? || step.SCreateMachine? || step.SDeleteMachine? || step.SSetSecret? {
      UserStepKeeps(s, step, u);
    } else {
      if !step.SLoadMachine? { MachineFrame(s, step); }
      SameMachinesKeep(u, s, Next(s, step));
    }
  }

  lemma KeepsOn(u: nat, s: Sys, s1: Sys, t: Sys)
    requires Keeps(u, s, s1) && Keeps(u, s1, t)
    ensures Keeps(u, s, t)
  {
    hide M.RecordedID;
  }

  /** Written once: from the moment a provider id is stored, whatever happens, no
      provider machine is allocated for the object again, not even when the one it
      has is deleted externally; the object goes on to name the same machine, stays
      provisioned, and once gone it does not come back. */
  lemma {:induction false} MachineWrittenOnce(s: Sys, more: seq<Step>, u: nat)
    requires Reached(s)
    ensures Keeps(u, s, Exec(s, more))
  {
    R.ReachedInv(s);
    hide Inv, Next, M.RecordedID, Keeps;
    if more == [] {
      SameMachinesKeep(u, s, s);
    } else {
      var s1 := Exec(s, more[..|more| - 1]);
      MachineWrittenOnce(s, more[..|more| - 1], u);
      InvExec(s, more[..|more| - 1]);
      NextKeeps(s1, more[|more| - 1], u);
      KeepsOn(u, s, s1, Next(s1, more[|more| - 1]));
    }
  }

  // --------------------------------------------------- node network, over time

  /** The cluster's network and endpoint at two points of a run. */
  predicate PlaceKept(c: Cluster, c': Cluster) {
    && (c.netId.Some? ==> c'.netId == c.netId) && (c.endpoint.host != "" ==> c'.endpoint == c.endpoint)
    && c'.project == c.project && c'.partition == c.partition && c'.fwRef == c.fwRef
    && (c.deletion.Some? ==> c'.deletion == c.deletion)
  }

  /** The cluster object stays and does not lose its finalizer. */
  predicate Remains(k: Key, s: Sys, t: Sys) {
    k in s.kube.clusters && k in t.kube.clusters && (s.kube.clusters[k].finalizer ==> t.kube.clusters[k].finalizer)
  }

  predicate PlacesKept(k: Key, s: Sys, t: Sys) {
    Remains(k, s, t) ==> PlaceKept(s.kube.clusters[k], t.kube.clusters[k])
  }

  /** A patch that does not drop the finalizer keeps the place. */
  lemma PatchKeepsPlace(s: Sys, k: Key, applied: bool, k': Key)
    requires Inv(s)
    ensures PlacesKept(k', s, PatchCluster(s, k, applied))
  {
    KeepsItself();
    if k in s.cruns && s.cruns[k].CActed? {
      CS.RunFacts(s, k);
      MergedPlace(k, s.cruns[k], s.kube.clusters[k], s.kube.machines, s.kube.deployments);
      hide Inv, PlainCluster, Gated, Deserted, ClusterBooked, MergeCluster, ClusterRunOk, PlaceKept;
    }
  }

  lemma MergedPlace(k: Key, r: ClusterRun, c: Cluster, ms: map<nat, Machine>, ds: map<Key, Deployment>)
    requires r.CActed? && ClusterRunOk(k, r, c, ms, ds)
    ensures var c' := MergeCluster(c, r.before, r.after); (c.finalizer ==> c'.finalizer) ==> PlaceKept(c, c')
  {
    hide Deserted;
  }

  lemma KeepsItself()
    ensures forall c :: PlaceKept(c, c)
  {}

  lemma NextKeepsPlace(s: Sys, step: Step, k: Key)
    requires Inv(s)
    ensures PlacesKept(k, s, Next(s, step))
  {
    hide Inv, CreateCluster, DeleteCluster, PatchCluster, PlaceKept;
    KeepsItself();
    if step.SPatchCluster? {
      PatchKeepsPlace(s, step.k, step.applied, k);
    } else if step.SCreateCluster? {
      UserKeepsPlace(s, step.k, k);
    } else if step.SDeleteCluster? {
      UserKeepsPlace(s, step.k, k);
    } else if !step.SVanishCluster? {
      SameClusters(s, step);
    }
  }

  lemma UserKeepsPlace(s: Sys, k': Key, k: Key)
    ensures forall c :: PlacesKept(k, s, CreateCluster(s, k', c))
    ensures PlacesKept(k, s, DeleteCluster(s, k'))
  {
    hide PlainCluster, MachinesOf, Reserve;
  }

  lemma SameClusters(s: Sys, step: Step)
    requires !(step.SPatchCluster? || step.SVanishCluster? || step.SCreateCluster? || step.SDeleteCluster?)
    ensures Next(s, step).kube.clusters == s.kube.clusters
  {
    hide LoadCluster, ActCluster;
    if !OnClusters(step) { ClusterFrame(s, step); }
  }

  /** Written once: from the moment network and endpoint are stored they stay what
      they are, whatever happens, as long as the cluster object is there and does not
      lose its finalizer. */
  lemma {:induction false} NetworkWrittenOnce(s: Sys, more: seq<Step>, k: Key)
    requires Reached(s) && k in s.kube.clusters
    requires forall i | 0 <= i < |more| :: Remains(k, Exec(s, more[..i]), Exec(s, more[..i + 1]))
    ensures var t := Exec(s, more); k in t.kube.clusters && PlaceKept(s.kube.clusters[k], t.kube.clusters[k])
  {
    hide Inv, Next, Init, PlaceKept;
    R.ReachedInv(s);
    if more == [] {
      KeepsItself();
    } else {
      var before := more[..|more| - 1];
      assert forall i | 0 <= i <= |before| :: before[..i] == more[..i];
      NetworkWrittenOnce(s, before, k);
      InvExec(s, before);
      NextKeepsPlace(Exec(s, before), more[|more| - 1], k);
      assert more[..|before|] == before && more[..|before| + 1] == more;
      PlaceKeptOn(s.kube.clusters[k], Exec(s, before).kube.clusters[k]);
    }
  }

  /** A machine object or a firewall deployment of the cluster is enough for that. */
  lemma OwnedRemains(s: Sys, step: Step, k: Key)
    requires Inv(s) && k in s.kube.clusters && !Deserted(k, s.kube.machines, s.kube.deployments)
    ensures Remains(k, s, Next(s, step))
  {
    hide Deserted, Next;
    if s.kube.clusters[k].finalizer && !Remains(k, s, Next(s, step)) {
      OnlyPatchDropsCluster(s, step, k);
      PatchedIsDeserted(s, k);
      assert false;
    } else if k !in Next(s, step).kube.clusters {
      OnlyVanishes(s, step, k);
      CS.VanishingIsDeserted(s, k);
      assert false;
    }
    hide Inv;
  }

  lemma OnlyVanishes(s: Sys, step: Step, k: Key)
    requires k in s.kube.clusters && k !in Next(s, step).kube.clusters
    ensures !Staying(s.kube.clusters[k])
  {
    hide MergeCluster;
    if !(step.SPatchCluster? || step.SVanishCluster? || step.SCreateCluster? || step.SDeleteCluster?) {
      SameClusters(s, step);
      hide Next;
    }
  }

  /** So as long as a machine object or a firewall deployment belongs to the cluster,
      the tags a firewall is created with stay those it is searched by. */
  lemma {:induction false} NetworkKeptForOthers(s: Sys, more: seq<Step>, k: Key)
    requires Reached(s) && k in s.kube.clusters
    requires forall i | 0 <= i < |more| ::
      var t := Exec(s, more[..i]); !Deserted(k, t.kube.machines, t.kube.deployments)
    ensures forall i | 0 <= i < |more| :: Remains(k, Exec(s, more[..i]), Exec(s, more[..i + 1]))
    ensures var t := Exec(s, more); k in t.kube.clusters && PlaceKept(s.kube.clusters[k], t.kube.clusters[k])
  {
    hide Inv, Next, Init, PlaceKept, Deserted;
    R.ReachedInv(s);
    if more != [] {
      var before, t := more[..|more| - 1], Exec(s, more[..|more| - 1]);
      assert forall i | 0 <= i <= |before| :: before[..i] == more[..i];
      NetworkKeptForOthers(s, before, k);
      InvExec(s, before);
      assert more[..|before|] == before && more[..|before| + 1] == more;
      OwnedRemains(t, more[|more| - 1], k);
    }
    NetworkWrittenOnce(s, more, k);
  }

  lemma PlaceKeptOn(a: Cluster, b: Cluster)
    ensures forall c :: PlaceKept(a, b) && PlaceKept(b, c) ==> PlaceKept(a, c)
  {}

  // ------------------------------------------------------------ grace period

  /** The finalizer of a machine object goes only with a patch, only while the
      object is being deleted, and for a control-plane machine only when its grace
      period is over. */
  lemma GraceHolds(s: Sys, step: Step, u: nat)
    requires Reached(s)
    requires var t := Next(s, step);
      u in s.kube.machines && s.kube.machines[u].finalizer
      && (u in t.kube.machines ==> !t.kube.machines[u].finalizer)
    ensures var m := s.kube.machines[u];
      && step == SPatchMachine(u, true) && m.deletion.Some?
      && (m.controlPlane ==> s.now > m.deletion.value + GRACE)
      && Released(u, s.metal.hosts, s.mbooks[u].orphans)
  {
    R.ReachedInv(s);
    FinalizerStep(s, step, u);
  }

  lemma FinalizerStep(s: Sys, step: Step, u: nat)
    requires Inv(s) && u in s.kube.machines && s.kube.machines[u].finalizer
    requires u in Next(s, step).kube.machines ==> !Next(s, step).kube.machines[u].finalizer
    ensures step == SPatchMachine(u, true) && u in s.mbooks
    ensures s.kube.machines[u].deletion.Some? && Released(u, s.metal.hosts, s.mbooks[u].orphans)
    ensures s.kube.machines[u].controlPlane ==> s.now > s.kube.machines[u].deletion.value + GRACE
  {
    OnlyPatchDrops(s, step, u);
    hide Inv;
    PatchDropsFinalizer(s, u);
  }

  lemma OnlyPatchDrops(s: Sys, step: Step, u: nat)
    requires Inv(s) && u in s.kube.machines && s.kube.machines[u].finalizer
    requires u in Next(s, step).kube.machines ==> !Next(s, step).kube.machines[u].finalizer
    ensures step == SPatchMachine(u, true)
  {
    hide Inv, Next;
    Known(s, u);
    if step.SPatchMachine? || step.SVanishMachine? || step.SCreateMachine? || step.SDeleteMachine? || step.SSetSecret? {
      UserKeepsFinalizer(s, step, u);
    } else {
      SameObjects(s, step);
    }
  }

  lemma SameObjects(s: Sys, step: Step)
    requires !(step.SPatchMachine? || step.SVanishMachine? || step.SCreateMachine? || step.SDeleteMachine?
        || step.SSetSecret?)
    ensures Next(s, step).kube.machines == s.kube.machines
  {
    hide LoadMachine, ActMachine;
    if !OnMachines(step) { MachineFrame(s, step); }
  }

  lemma Known(s: Sys, u: nat)
    requires Inv(s) && u in s.kube.machines
    ensures u in s.mbooks
  {
    hide Plain, Owners, Covered, Held, MachineBooks, ClusterBooks, MachineRuns, ClusterRuns, DeploymentRuns, Gates;
  }

  lemma PatchDropsFinalizer(s: Sys, u: nat)
    requires Inv(s) && u in s.kube.machines && s.kube.machines[u].finalizer
    requires u in PatchMachine(s, u, true).kube.machines && !PatchMachine(s, u, true).kube.machines[u].finalizer
    ensures u in s.mbooks
    ensures s.kube.machines[u].deletion.Some? && Released(u, s.metal.hosts, s.mbooks[u].orphans)
    ensures s.kube.machines[u].controlPlane ==> s.now > s.kube.machines[u].deletion.value + GRACE
  {
    Known(s, u);
    if u in s.mruns && s.mruns[u].MActed? {
      MS.RunFacts(s, u);
      MS.Merged(s.kube.machines[u], s.mruns[u].before, s.mruns[u].after);
      hide Inv, MergeMachine, Released, M.KeepsID, M.RecordedID;
    }
  }

  lemma UserKeepsFinalizer(s: Sys, step: Step, u: nat)
    requires u in s.kube.machines && s.kube.machines[u].finalizer
    requires step.SPatchMachine? || step.SVanishMachine? || step.SCreateMachine? || step.SDeleteMachine?
        || step.SSetSecret?
    ensures (u in Next(s, step).kube.machines && Next(s, step).kube.machines[u].finalizer)
         || (step == SPatchMachine(u, true)) || (step.SCreateMachine? && step.u == u && u !in s.mbooks)
  {
    hide MergeMachine;
  }

  // ----------------------------------------------------- the cluster goes last

  /** The finalizer of a cluster goes only with a patch, only while the cluster is
      being deleted, and only when it is torn down: no machine object, firewall
      deployment or firewall of it is left, and its other leftovers are orphans. */
  lemma ClusterGoesLast(s: Sys, step: Step, k: Key)
    requires Reached(s)
    requires var t := Next(s, step);
      k in s.kube.clusters && s.kube.clusters[k].finalizer && (k in t.kube.clusters ==> !t.kube.clusters[k].finalizer)
    ensures step == SPatchCluster(k, true) && s.kube.clusters[k].deletion.Some? && TornDown(s, k)
  {
    R.ReachedInv(s);
    hide Exec, Inv, TornDown, Next, Init;
    OnlyPatchDropsCluster(s, step, k);
    PatchedIsDeserted(s, k);
    DesertedIsTornDown(s, k);
  }

  predicate KeepsFinalizer(k: Key, s: Sys, t: Sys) {
    k in s.kube.clusters && s.kube.clusters[k].finalizer ==> k in t.kube.clusters && t.kube.clusters[k].finalizer
  }

  lemma DropsNothing(s: Sys, c: Key, k: Key)
    ensures KeepsFinalizer(k, s, VanishCluster(s, c)) && KeepsFinalizer(k, s, DeleteCluster(s, c))
  {
    hide MachinesOf, CloseBook;
  }

  lemma CreateDropsNothing(s: Sys, c: Key, obj: Cluster, k: Key)
    ensures KeepsFinalizer(k, s, CreateCluster(s, c, obj))
  {
    hide Reserve;
  }

  lemma PatchDrops(s: Sys, c: Key, applied: bool, k: Key)
    ensures KeepsFinalizer(k, s, PatchCluster(s, c, applied))
         || (c == k && applied && k in PatchCluster(s, c, applied).kube.clusters)
  {
    hide MergeCluster;
  }

  lemma OnlyPatchDropsCluster(s: Sys, step: Step, k: Key)
    requires k in s.kube.clusters && s.kube.clusters[k].finalizer
    requires k in Next(s, step).kube.clusters ==> !Next(s, step).kube.clusters[k].finalizer
    ensures step == SPatchCluster(k, true) && k in PatchCluster(s, k, true).kube.clusters
    ensures !PatchCluster(s, k, true).kube.clusters[k].finalizer
  {
    hide Next, PatchCluster, VanishCluster, CreateCluster, DeleteCluster;
    if OnClusters(step) { UnfoldsCluster(s, step); }
    if !(step.SPatchCluster? || step.SVanishCluster? || step.SCreateCluster? || step.SDeleteCluster?) {
      SameClusters(s, step);
    } else {
      DropsNothing(s, step.k, k);
      if step.SPatchCluster? { PatchDrops(s, step.k, step.applied, k); }
      if step.SCreateCluster? { CreateDropsNothing(s, step.k, step.cluster, k); }
    }
  }

  lemma PatchedIsDeserted(s: Sys, k: Key)
    requires Inv(s) && k in s.kube.clusters && s.kube.clusters[k].finalizer
    requires k in PatchCluster(s, k, true).kube.clusters && !PatchCluster(s, k, true).kube.clusters[k].finalizer
    ensures s.kube.clusters[k].deletion.Some? && Deserted(k, s.kube.machines, s.kube.deployments)
  {
    if k in s.cruns && s.cruns[k].CActed? {
      CS.RunFacts(s, k);
      hide Inv, Deserted, ClusterBooked, Gated, PlainCluster;
    }
  }

  // --------------------------------------------- reference to a firewall, over time

  type Deployments = map<Key, Deployment>
  type Hosts = map<string, Host>

  function FirewallsOf(k: Key, hs: Hosts): set<string> {
    set id | id in hs && hs[id].origin.ByDeployment? && hs[id].origin.deployment == k
  }

  /** Deployment `k` at two points of a run: a stored reference is the same, and while it
      is stored no firewall is added. */
  predicate RefKept(k: Key, ds: Deployments, hs: Hosts, ds': Deployments, hs': Hosts) {
    k in ds && ds[k].ref.Some? && k in ds' ==>
      ds'[k].ref == ds[k].ref && FirewallsOf(k, hs') <= FirewallsOf(k, hs)
  }

  predicate RefStays(k: Key, s: Sys, t: Sys) {
    RefKept(k, s.kube.deployments, s.metal.hosts, t.kube.deployments, t.metal.hosts)
  }

  lemma SameRef(k: Key, s: Sys, t: Sys)
    requires t.kube.deployments == s.kube.deployments && t.metal.hosts == s.metal.hosts
    ensures RefStays(k, s, t)
  {
    hide FirewallsOf;
  }

  lemma PatchKeepsRef(s: Sys, k: Key, applied: bool, k': Key)
    requires Inv(s)
    ensures RefStays(k', s, PatchDeployment(s, k, applied))
  {
    hide Inv, FirewallsOf;
    if k in s.fruns && s.fruns[k].FActed? {
      DS.RunFacts(s, k);
    }
  }

  lemma UserKeepsRef(s: Sys, step: Step, k: Key)
    requires OnDeployments(step) && !step.SPatchDeployment? && !step.SActDeployment? && step != SDropRef(k)
    ensures RefStays(k, s, Next(s, step))
  {
    hide Next, FirewallsOf;
    UnfoldsDeployment(s, step);
  }

  lemma ClusterKeepsRef(s: Sys, k: Key, rep: C.Replies, paused: bool, k': Key)
    ensures RefStays(k', s, ActCluster(s, k, rep, paused))
  {
    hide FirewallsOf, C.Teardown, UpRun, UpBook, C.RunUp, C.Guard, MachinesOf, Spends, SpendsFor;
    if k in s.cruns && k in s.cbooks && s.cruns[k].CLoaded? {
      var c := s.cruns[k].c;
      if paused || c.deletion.None? {
        UpKeepsRefs(k, c, s.kube.deployments, s.metal, rep, paused);
      } else {
        GuardKeepsRefs(k, C.Begin(c, false), MachinesOf(s.kube, k) != {}, s.kube.deployments, rep, s.now);
      }
    }
  }

  predicate SameRefs(ds: Deployments, ds': Deployments) {
    forall d | d in ds && d in ds' :: ds'[d].ref == ds[d].ref
  }

  lemma UpKeepsRefs(k: Key, c: Cluster, ds: Deployments, metal: Metal, rep: C.Replies, paused: bool)
    requires paused || c.deletion.None?
    ensures SameRefs(ds, C.RunUp(k, c, ds, metal, rep, paused).deployments)
  {
    hide C.Reconcile, C.Adopt;
  }

  lemma GuardKeepsRefs(k: Key, c: Cluster, left: bool, ds: Deployments, rep: C.Replies, now: Time)
    ensures SameRefs(ds, C.Guard(k, c, left, ds, rep, now).0)
  {}

  lemma ActKeepsRef(s: Sys, k: Key, rep: F.Replies, paused: bool, k': Key)
    requires Inv(s)
    ensures RefStays(k', s, ActDeployment(s, k, rep, paused))
  {
    hide Inv, ActDeployment, Requests.AsksForFirewall;
    var t := ActDeployment(s, k, rep, paused);
    DS.ActReshapes(s, k, rep, paused);
    forall id | id in t.metal.hosts && id !in s.metal.hosts
      ensures t.metal.hosts[id].origin.ByDeployment? && t.metal.hosts[id].origin.deployment == k
      ensures k in s.kube.deployments && s.kube.deployments[k].ref.None?
    {
      Requests.FirewallRequested(s, k, rep, paused, id);
      DS.RunFacts(s, k);
    }
  }

  lemma MachineKeepsRef(s: Sys, u: nat, rep: M.Replies, paused: bool, k: Key)
    ensures RefStays(k, s, ActMachine(s, u, rep, paused))
  {
    hide M.Run, Settle;
  }

  lemma WorldKeepsRef(s: Sys, step: Step, k: Key)
    requires step.SFreeExternally? || step.SRecycle? || step.SReportHost?
    ensures RefStays(k, s, Next(s, step))
  {
    hide Next, NamesNoDeployment, Lacks;
    UnfoldsHost(s, step);
  }

  lemma NextKeepsRef(s: Sys, step: Step, k: Key)
    requires Inv(s) && step != SDropRef(k)
    ensures RefStays(k, s, Next(s, step))
  {
    hide Inv, Next, RefStays;
    if step.SActDeployment? {
      UnfoldsDeployment(s, step);
      ActKeepsRef(s, step.k, step.frep, step.paused, k);
    } else if step.SPatchDeployment? {
      UnfoldsDeployment(s, step);
      PatchKeepsRef(s, step.k, step.applied, k);
    } else if OnDeployments(step) {
      UserKeepsRef(s, step, k);
    } else if step.SActCluster? {
      UnfoldsCluster(s, step);
      ClusterKeepsRef(s, step.k, step.crep, step.paused, k);
    } else if step.SActMachine? {
      UnfoldsMachine(s, step);
      MachineKeepsRef(s, step.u, step.mrep, step.paused, k);
    } else if step.SFreeExternally? || step.SRecycle? || step.SReportHost? {
      WorldKeepsRef(s, step, k);
    } else {
      DeploymentFrame(s, step);
      HostFrame(s, step);
      SameRef(k, s, Next(s, step));
    }
  }

  /** Written once: from the moment a reference is stored it stays what it is and no
      firewall is allocated for the deployment again, whatever happens, as long as the
      object is there and nobody removes the reference by hand. */
  lemma {:induction false} ReferenceWrittenOnce(s: Sys, more: seq<Step>, k: Key)
    requires Reached(s) && k in s.kube.deployments && s.kube.deployments[k].ref.Some?
    requires forall i | 0 <= i <= |more| :: k in Exec(s, more[..i]).kube.deployments
    requires SDropRef(k) !in more
    ensures var t := Exec(s, more);
      && k in t.kube.deployments && t.kube.deployments[k].ref == s.kube.deployments[k].ref
      && FirewallsOf(k, t.metal.hosts) <= FirewallsOf(k, s.metal.hosts)
  {
    hide Inv, Next, Init, FirewallsOf;
    R.ReachedInv(s);
    if more != [] {
      var before := more[..|more| - 1];
      assert forall i | 0 <= i <= |before| :: before[..i] == more[..i];
      assert more[..|more|] == more;
      ReferenceWrittenOnce(s, before, k);
      InvExec(s, before);
      NextKeepsRef(Exec(s, before), more[|more| - 1], k);
    }
  }
}

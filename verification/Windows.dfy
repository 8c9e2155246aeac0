/** Firewalls and machines: firewalls go after the machines when the cluster is
    being deleted, and the window that the guard of a deployment's deletion leaves
    open when it is not. */
module Windows {
  import opened Names
  import opened Store
  import opened Metal
  import opened Protocol
  import opened Invariant
  import opened StepFrames
  import R = Reachable
  import H = History
  import S = Safety
  import L = Liveness
  import DS = DeploymentSteps
  import M = MachineSpec
  import F = FirewallSpec

  type Clusters = map<Key, Cluster>
  type Machines = map<nat, Machine>
  type Runs = map<Key, DeploymentRun>

  /** The cluster is being deleted and has no machine object. */
  predicate Closed(ck: Key, cs: Clusters, ms: Machines) {
    ck in cs && cs[ck].deletion.Some? && forall u | u in ms :: ms[u].cluster != ck
  }

  /** A run that passed its guard while the cluster was being deleted goes on
      finding no machine. */
  predicate ClosedRuns(runs: Runs, cs: Clusters, ms: Machines) {
    forall k | k in runs && runs[k].FCleared? && runs[k].closing :: Closed(runs[k].ck, cs, ms)
  }

  predicate AllClosed(s: Sys) {
    ClosedRuns(s.fruns, s.kube.clusters, s.kube.machines)
  }

  // -------------------------------------------------------------- every step

  /** No machine object appears for a cluster that is being deleted. */
  predicate NoNewMachine(s: Sys, t: Sys) {
    forall u | u in t.kube.machines ::
      (u in s.kube.machines && t.kube.machines[u].cluster == s.kube.machines[u].cluster)
      || (t.kube.machines[u].cluster in s.kube.clusters && s.kube.clusters[t.kube.machines[u].cluster].deletion.None?)
  }

  lemma SameAddsNone(s: Sys, t: Sys)
    requires t.kube.machines == s.kube.machines
    ensures NoNewMachine(s, t)
  {}

  lemma PatchAddsNone(s: Sys, u: nat, applied: bool)
    ensures NoNewMachine(s, PatchMachine(s, u, applied))
  {
  }

  lemma VanishAddsNone(s: Sys, u: nat)
    ensures NoNewMachine(s, VanishMachine(s, u)) && NoNewMachine(s, DeleteMachine(s, u))
  {}

  lemma CreateAddsNone(s: Sys, u: nat, m: Machine)
    ensures NoNewMachine(s, CreateMachine(s, u, m))
  {}

  lemma SecretAddsNone(s: Sys, u: nat, secret: string)
    ensures NoNewMachine(s, SetSecret(s, u, secret))
  {
    if u in s.kube.machines {
      EditAddsNone(s, u, s.kube.machines[u].(secret := Some(secret)));
    }
    hide NoNewMachine;
    SameAddsNone(s, s);
  }

  lemma EditAddsNone(s: Sys, u: nat, m: Machine)
    requires u in s.kube.machines && m.cluster == s.kube.machines[u].cluster
    ensures NoNewMachine(s, s.(kube := s.kube.(machines := s.kube.machines[u := m])))
  {}

  lemma RunsAddNone(s: Sys, step: Step)
    requires step.SLoadMachine? || step.SActMachine? || step.SPatchMachine?
    ensures NoNewMachine(s, Next(s, step))
  {
    hide LoadMachine, ActMachine, PatchMachine, NoNewMachine;
    match step
    case SPatchMachine(u, applied) => PatchAddsNone(s, u, applied);
    case _ => SameAddsNone(s, Next(s, step));
  }

  lemma MachineStepsAddNone(s: Sys, step: Step)
    requires OnMachines(step)
    ensures NoNewMachine(s, Next(s, step))
  {
    hide PatchMachine, VanishMachine, CreateMachine, DeleteMachine, SetSecret, NoNewMachine;
    match step
    case SVanishMachine(u) => VanishAddsNone(s, u);
    case SDeleteMachine(u) => VanishAddsNone(s, u);
    case SCreateMachine(u, m) => CreateAddsNone(s, u, m);
    case SSetSecret(u, secret) => SecretAddsNone(s, u, secret);
    case _ =>
      RunsAddNone(s, step);
      hide Next;
  }

  lemma StepAddsNone(s: Sys, step: Step)
    ensures NoNewMachine(s, Next(s, step))
  {
    if OnMachines(step) {
      MachineStepsAddNone(s, step);
    } else {
      MachineFrame(s, step);
    }
    hide Next;
  }

  /** The cluster of a run under way belongs to a deployment, so it stays. */
  lemma ClusterStays(s: Sys, step: Step, k: Key)
    requires Inv(s) && k in s.fruns && s.fruns[k].FCleared?
    ensures var ck := s.fruns[k].ck; var t := Next(s, step);
      ck in s.kube.clusters && ck in t.kube.clusters
      && (s.kube.clusters[ck].deletion.Some? ==> t.kube.clusters[ck].deletion.Some?)
  {
    DS.RunStarts(s, k);
    assert !Deserted(s.fruns[k].ck, s.kube.machines, s.kube.deployments) by {
      hide Inv;
      assert s.kube.deployments[k].owner == Some(s.fruns[k].ck);
    }
    H.OwnedRemains(s, step, s.fruns[k].ck);
    H.NextKeepsPlace(s, step, s.fruns[k].ck);
    hide Inv, Next, Deserted;
  }

  lemma ClosedStays(s: Sys, step: Step, k: Key)
    requires Inv(s) && AllClosed(s) && k in s.fruns && s.fruns[k].FCleared? && s.fruns[k].closing
    ensures Closed(s.fruns[k].ck, Next(s, step).kube.clusters, Next(s, step).kube.machines)
  {
    hide Inv, Next;
    ClusterStays(s, step, k);
    StepAddsNone(s, step);
  }

  /** A run goes past its guard only with a finalizer and at a moment when its cluster
      has no machine object; it notes whether the cluster is being deleted then. */
  lemma GuardCloses(s: Sys, k: Key, rep: F.Replies, paused: bool)
    ensures var t := ActDeployment(s, k, rep, paused); k in t.fruns && t.fruns[k].FCleared? ==>
      && k in s.fruns && s.fruns[k].FLoaded? && t.fruns[k].d == s.fruns[k].d && t.fruns[k].ck == s.fruns[k].ck
      && t.fruns[k].d.finalizer && t.fruns[k].d.deletion.Some?
      && (forall u | u in s.kube.machines :: s.kube.machines[u].cluster != t.fruns[k].ck)
      && (t.fruns[k].closing <==> Closed(t.fruns[k].ck, s.kube.clusters, s.kube.machines))
  {
    hide ActDeploymentUp, ActDeploymentGuard, ActDeploymentReclaim, Closed;
    if k in s.fruns && !s.fruns[k].FActed? {
      if s.fruns[k].FCleared? {
        ReclaimActs(s, k, rep);
      } else if paused || s.fruns[k].d.deletion.None? {
        UpActs(s, k, rep, paused);
      } else {
        GuardActs(s, k, rep);
      }
    }
  }

  lemma ReclaimActs(s: Sys, k: Key, rep: F.Replies)
    requires k in s.fruns && s.fruns[k].FCleared?
    ensures var t := ActDeploymentReclaim(s, k, rep); k in t.fruns ==> t.fruns[k].FActed?
  {
    hide F.Reclaim, F.Begin;
  }

  lemma UpActs(s: Sys, k: Key, rep: F.Replies, paused: bool)
    requires k in s.fruns && s.fruns[k].FLoaded? && (paused || s.fruns[k].d.deletion.None?)
    ensures var t := ActDeploymentUp(s, k, rep, paused); k in t.fruns && t.fruns[k].FActed?
  {
    hide F.RunUp;
  }

  lemma GuardActs(s: Sys, k: Key, rep: F.Replies)
    requires k in s.fruns && s.fruns[k].FLoaded?
    ensures var t := ActDeploymentGuard(s, k, rep); var r := s.fruns[k]; k in t.fruns && t.fruns[k].FCleared? ==>
      && t.fruns[k].d == r.d && t.fruns[k].ck == r.ck && r.d.finalizer
      && (forall u | u in s.kube.machines :: s.kube.machines[u].cluster != r.ck)
      && (t.fruns[k].closing <==> Closed(r.ck, s.kube.clusters, s.kube.machines))
  {
    hide SetPaused;
    var ck := s.fruns[k].ck;
    assert MachinesOf(s.kube, ck) == {} ==> forall u | u in s.kube.machines :: s.kube.machines[u].cluster != ck by {
      forall u | u in s.kube.machines && s.kube.machines[u].cluster == ck
        ensures u in MachinesOf(s.kube, ck)
      {}
    }
  }

  /** Runs that are cleared after the step were so before it, or have just passed
      their guard. */
  lemma ClearedBefore(s: Sys, step: Step, k: Key)
    requires k in Next(s, step).fruns && Next(s, step).fruns[k].FCleared? && Next(s, step).fruns[k].closing
    ensures (k in s.fruns && Next(s, step).fruns[k] == s.fruns[k])
         || (step.SActDeployment? && Closed(Next(s, step).fruns[k].ck, s.kube.clusters, s.kube.machines))
  {
    hide ActDeployment, Closed;
    if step.SActDeployment? {
      hide LoadDeployment, PatchDeployment, VanishDeployment;
      if step.k == k {
        GuardCloses(s, k, step.frep, step.paused);
      } else {
        L.OtherDeploymentActs(s, step.k, step.frep, step.paused, k);
      }
    } else if OnDeployments(step) {
      OthersClearNone(s, step, k);
    } else {
      DeploymentFrame(s, step);
      hide Next;
    }
  }

  lemma OthersClearNone(s: Sys, step: Step, k: Key)
    requires OnDeployments(step) && !step.SActDeployment?
    ensures ClearsNone(s, Next(s, step), k)
  {
    hide Next, LoadDeployment, PatchDeployment, VanishDeployment, ClearsNone;
    UnfoldsDeployment(s, step);
    if L.OnDeploymentRun(step, k) {
      LoadClearsNone(s, k);
      PatchClearsNone(s, k, step.SPatchDeployment? && step.applied);
    } else {
      L.OtherDeploymentSteps(s, step, k);
      SameClearsNone(s, Next(s, step), k);
    }
  }

  /** No run gets cleared. */
  predicate ClearsNone(s: Sys, t: Sys, k: Key) {
    k in t.fruns && t.fruns[k].FCleared? ==> k in s.fruns && t.fruns[k] == s.fruns[k]
  }

  lemma SameClearsNone(s: Sys, t: Sys, k: Key)
    requires L.SameDeploymentRun(s, t, k)
    ensures ClearsNone(s, t, k)
  {}

  lemma LoadClearsNone(s: Sys, k: Key)
    ensures ClearsNone(s, LoadDeployment(s, k), k)
  {}

  lemma PatchClearsNone(s: Sys, k: Key, applied: bool)
    ensures ClearsNone(s, PatchDeployment(s, k, applied), k) && ClearsNone(s, VanishDeployment(s, k), k)
  {
    hide MergeDeployment;
  }

  lemma NextClosed(s: Sys, step: Step)
    requires Inv(s) && AllClosed(s)
    ensures AllClosed(Next(s, step))
  {
    hide Inv, Closed, Next;
    var t := Next(s, step);
    forall k | k in t.fruns && t.fruns[k].FCleared? && t.fruns[k].closing
      ensures Closed(t.fruns[k].ck, t.kube.clusters, t.kube.machines)
    {
      ClearedBefore(s, step, k);
      if k in s.fruns && t.fruns[k] == s.fruns[k] {
        ClosedStays(s, step, k);
      } else {
        SameObjects(s, step);
      }
    }
  }

  lemma SameObjects(s: Sys, step: Step)
    requires step.SActDeployment?
    ensures Next(s, step).kube.clusters == s.kube.clusters && Next(s, step).kube.machines == s.kube.machines
  {
    hide ActDeployment;
  }

  lemma {:induction false} RunClosed(states: seq<Sys>, steps: seq<Step>, i: nat)
    requires IsRun(states, steps) && i <= |steps|
    ensures AllClosed(states[i])
  {
    hide Next, Inv;
    if i > 0 {
      hide Init, AllClosed;
      RunClosed(states, steps, i - 1);
      R.RunInv(states, steps, i - 1);
      NextClosed(states[i - 1], steps[i - 1]);
    }
  }

  lemma ReachedClosed(s: Sys)
    requires Reached(s)
    ensures AllClosed(s)
  {
    hide AllClosed, Next, Init;
    var states, steps :| IsRun(states, steps) && states[|steps|] == s;
    RunClosed(states, steps, |steps|);
  }

  // ---------------------------------------------------------------- conclusions

  /** Firewalls go after the machines: a run that has passed its guard while the
      cluster was being deleted frees firewalls of its own deployment only, and at
      that moment the cluster has no machine object, whatever happened in between. */
  lemma FirewallsOutliveMachines(s: Sys, k: Key, rep: F.Replies, paused: bool, id: string)
    requires Reached(s) && k in s.fruns && s.fruns[k].FCleared? && s.fruns[k].closing
    requires id in s.metal.hosts && id !in ActDeployment(s, k, rep, paused).metal.hosts
    ensures s.metal.hosts[id].origin.ByDeployment? && s.metal.hosts[id].origin.deployment == k
    ensures MachinesOf(s.kube, s.fruns[k].ck) == {}
  {
    hide Reached, ActDeployment;
    S.FreesOwnFirewalls(s, k, rep, paused, id);
    ReachedClosed(s);
  }

  /** If the cluster is not being deleted, because a user deletes the deployment
      alone, a machine created between guard and frees is not seen: its firewalls
      are freed all the same. */
  lemma FirewallWindow(s: Sys, k: Key, u: nat, m: Machine, rep: F.Replies, id: string)
    requires Inv(s) && k in s.fruns && s.fruns[k].FCleared? && s.fruns[k].c.netId.Some?
    requires m.cluster == s.fruns[k].ck && s.kube.clusters[m.cluster].deletion.None?
    requires CreateMachine(s, u, m) != s
    requires var c := s.fruns[k].c;
      rep.search.Some?
          && Lists(rep.search.value,
              Matching(s.metal, c.partition, c.project, FirewallTags(c.netId.value, s.fruns[k].ck, k)))
      && id in rep.search.value && forall i | 0 <= i < |rep.search.value| :: F.ReleaseAt(rep.frees, i).Freed?
    ensures var t := ActDeployment(CreateMachine(s, u, m), k, rep, false);
      id in s.metal.hosts && id !in t.metal.hosts && u in MachinesOf(t.kube, s.fruns[k].ck)
  {
    hide Inv, Lists, Matching, F.ReleaseAt, F.Begin, F.Reclaim;
    var r := s.fruns[k];
    ReclaimFrees(k, F.Begin(r.d, false), r.ck, r.c, s.kube.templates, s.metal, rep, id);
    var s1 := CreateMachine(s, u, m);
    assert u in s1.kube.machines && s1.kube.machines[u].cluster == r.ck;
    hide CreateMachine;
    assert ActDeployment(s1, k, rep, false) == ActDeploymentReclaim(s1, k, rep);
  }

  lemma ReclaimFrees(k: Key, d: Deployment, ck: Key, c: Cluster, ts: F.Templates, metal: Metal, rep: F.Replies,
                     id: string)
    requires c.netId.Some? && rep.search.Some?
    requires Lists(rep.search.value, Matching(metal, c.partition, c.project, FirewallTags(c.netId.value, ck, k)))
    requires id in rep.search.value && forall i | 0 <= i < |rep.search.value| :: F.ReleaseAt(rep.frees, i).Freed?
    ensures id in metal.hosts && id !in F.Reclaim(k, d, ck, c, ts, metal, rep).metal.hosts
  {
    var order := rep.search.value;
    assert id in Elems(order) && Elems(order) <= metal.hosts.Keys;
    F.LoopFrees(metal, order, rep.frees, |order|);
    assert id in F.FreedAmong(order, rep.frees, |order|) by {
      var i :| 0 <= i < |order| && order[i] == id;
      assert !F.ReleaseAt(rep.frees, i).Refused?;
    }
    hide Lists, Matching, F.FreedAmong, F.FreeFirst, F.ErrorsFirst;
  }
}

/** What one whole run of a controller achieves while a cluster winds down, in
    whatever way it interleaves with the runs of the other controllers: it leaves
    something that counts smaller than it was. */
module ControllerRuns {
  import opened Names
  import opened Store
  import opened Metal
  import opened Protocol
  import opened Invariant
  import opened Liveness
  import opened StepFrames
  import R = Reachable
  import H = History
  import MS = MachineSteps
  import DS = DeploymentSteps
  import CS = ClusterSteps
  import M = MachineSpec
  import C = ClusterSpec
  import F = FirewallSpec

  // ------------------------------------------------------------ along a path

  /** Consecutive states of the system and the steps between them. */
  datatype Path = Path(states: seq<Sys>, steps: seq<Step>)

  predicate IsPath(p: Path) {
    && |p.states| == |p.steps| + 1
    && forall i | 0 <= i < |p.steps| :: p.states[i + 1] == Next(p.states[i], p.steps[i])
  }

  predicate CalmPath(p: Path, g: Goal) {
    && IsPath(p) && Winding(p.states[0], g)
    && forall i | 0 <= i < |p.steps| :: Calm(p.states[i], g, p.steps[i])
  }

  lemma PathNext(p: Path, i: nat)
    requires IsPath(p) && i < |p.steps|
    ensures p.states[i + 1] == Next(p.states[i], p.steps[i])
    ensures match p.steps[i]
      case SLoadMachine(u) => p.states[i + 1] == LoadMachine(p.states[i], u)
      case SActMachine(u, rep, paused) => p.states[i + 1] == ActMachine(p.states[i], u, rep, paused)
      case SPatchMachine(u, applied) => p.states[i + 1] == PatchMachine(p.states[i], u, applied)
      case SVanishMachine(u) => p.states[i + 1] == VanishMachine(p.states[i], u)
      case SLoadDeployment(k) => p.states[i + 1] == LoadDeployment(p.states[i], k)
      case SActDeployment(k, rep, paused) => p.states[i + 1] == ActDeployment(p.states[i], k, rep, paused)
      case SPatchDeployment(k, applied) => p.states[i + 1] == PatchDeployment(p.states[i], k, applied)
      case SVanishDeployment(k) => p.states[i + 1] == VanishDeployment(p.states[i], k)
      case SLoadCluster(k) => p.states[i + 1] == LoadCluster(p.states[i], k)
      case SActCluster(k, rep, paused) => p.states[i + 1] == ActCluster(p.states[i], k, rep, paused)
      case SPatchCluster(k, applied) => p.states[i + 1] == PatchCluster(p.states[i], k, applied)
      case SVanishCluster(k) => p.states[i + 1] == VanishCluster(p.states[i], k)
      case _ => true
  {
    hide LoadMachine, ActMachine, PatchMachine, VanishMachine, LoadCluster, ActCluster, PatchCluster, VanishCluster,
      LoadDeployment, ActDeployment, PatchDeployment, VanishDeployment;
  }

  lemma {:induction false} WindsOn(p: Path, g: Goal, i: nat, j: nat)
    requires CalmPath(p, g) && i <= j <= |p.steps|
    ensures Winding(p.states[j], g) && Shrinks(p.states[i], p.states[j], g)
    decreases j
  {
    hide Winding, Calm, Next, Shrinks;
    if j == 0 {
      NothingShrinks(p.states[0], g);
    } else {
      WindsOn(p, g, if i < j then i else j - 1, j - 1);
      StepAdvances(p.states[j - 1], p.steps[j - 1], g);
      if i < j {
        ShrinksOn(p.states[i], p.states[j - 1], p.states[j], g);
      } else {
        NothingShrinks(p.states[j], g);
      }
    }
  }

  lemma NothingShrinks(s: Sys, g: Goal)
    ensures Shrinks(s, s, g) && Unchanged(s, s, g)
  {}

  lemma ShrinksOn(s: Sys, t: Sys, r: Sys, g: Goal)
    requires Shrinks(s, t, g) && Shrinks(t, r, g)
    ensures Shrinks(s, r, g)
    ensures Unchanged(s, r, g) ==> Unchanged(s, t, g)
  {
    hide Members, LadenMembers, Stage;
  }

  /** What a later state finds unchanged was unchanged all along. */
  lemma UnchangedBefore(p: Path, g: Goal, lo: nat, i: nat, j: nat)
    requires CalmPath(p, g) && lo <= i <= j <= |p.steps|
    ensures Winding(p.states[i], g) && p.states[lo].now <= p.states[i].now
    ensures Unchanged(p.states[lo], p.states[j], g) ==> Unchanged(p.states[lo], p.states[i], g)
  {
    WindsOn(p, g, lo, i);
    WindsOn(p, g, i, j);
    hide CalmPath, Unchanged;
    ShrinksOn(p.states[lo], p.states[i], p.states[j], g);
  }

  // ------------------------------------------------------- a run for a machine

  predicate OnMachineRun(step: Step, u: nat) {
    (step.SLoadMachine? || step.SActMachine? || step.SPatchMachine? || step.SVanishMachine?) && step.u == u
  }

  datatype Phase = Loaded | Done | Free

  /** A run for the object has read the request for its deletion; it is about to drop the finalizer; the
      finalizer is gone. */
  predicate InPhase(s: Sys, u: nat, ph: Phase) {
    match ph
    case Loaded => u in s.mruns && s.mruns[u].MLoaded? && s.mruns[u].m.deletion.Some?
    case Done => u in s.mruns && s.mruns[u].MActed? && !s.mruns[u].after.finalizer
    case Free => u in s.mbooks && (u in s.kube.machines ==> !s.kube.machines[u].finalizer)
  }

  lemma ControllerKeepsPhase(s: Sys, v: nat, rep: M.Replies, paused: bool, u: nat, ph: Phase)
    requires InPhase(s, u, ph) && v != u
    ensures InPhase(LoadMachine(s, v), u, ph) && InPhase(ActMachine(s, v, rep, paused), u, ph)
  {
    hide M.Run, Settle;
  }

  lemma OthersPatchKeepsPhase(s: Sys, v: nat, applied: bool, u: nat, ph: Phase)
    requires InPhase(s, u, ph) && v != u
    ensures InPhase(PatchMachine(s, v, applied), u, ph) && InPhase(VanishMachine(s, v), u, ph)
  {
    hide MergeMachine;
  }

  lemma UserKeepsPhase(s: Sys, v: nat, u: nat, ph: Phase)
    requires InPhase(s, u, ph)
    ensures forall m :: InPhase(CreateMachine(s, v, m), u, ph)
    ensures InPhase(DeleteMachine(s, v), u, ph) && forall secret :: InPhase(SetSecret(s, v, secret), u, ph)
  {}

  lemma MachineStepKeepsPhase(s: Sys, step: Step, u: nat, ph: Phase)
    requires InPhase(s, u, ph) && OnMachines(step) && !OnMachineRun(step, u)
    ensures InPhase(Next(s, step), u, ph)
  {
    hide LoadMachine, ActMachine, PatchMachine, VanishMachine, CreateMachine, DeleteMachine, SetSecret, InPhase;
    match step
    case SLoadMachine(v) =>
      ControllerKeepsPhase(s, v, M.Replies(true, true, Denied, Report(None, [], "", None, None, None, None), Freed),
          false, u, ph);
    case SActMachine(v, rep, paused) => ControllerKeepsPhase(s, v, rep, paused, u, ph);
    case SPatchMachine(v, applied) => OthersPatchKeepsPhase(s, v, applied, u, ph);
    case SVanishMachine(v) => OthersPatchKeepsPhase(s, v, true, u, ph);
    case SCreateMachine(v, _) => UserKeepsPhase(s, v, u, ph);
    case SDeleteMachine(v) => UserKeepsPhase(s, v, u, ph);
    case SSetSecret(v, _) => UserKeepsPhase(s, v, u, ph);
  }

  lemma StepKeepsPhase(s: Sys, step: Step, u: nat, ph: Phase)
    requires InPhase(s, u, ph) && !OnMachineRun(step, u)
    ensures InPhase(Next(s, step), u, ph)
  {
    if OnMachines(step) {
      MachineStepKeepsPhase(s, step, u, ph);
    } else {
      MachineFrame(s, step);
    }
    hide Next;
  }

  lemma {:induction false} KeepsPhase(p: Path, u: nat, ph: Phase, i: nat, j: nat)
    requires IsPath(p) && i <= j <= |p.steps| && InPhase(p.states[i], u, ph)
    requires forall l | i <= l < j :: !OnMachineRun(p.steps[l], u)
    ensures InPhase(p.states[j], u, ph)
    decreases j
  {
    hide InPhase, Next;
    if i < j {
      KeepsPhase(p, u, ph, i, j - 1);
      StepKeepsPhase(p.states[j - 1], p.steps[j - 1], u, ph);
    }
  }

  lemma AfterLoad(s: Sys, u: nat)
    requires Inv(s) && u in s.kube.machines && u !in s.mruns && s.kube.machines[u].deletion.Some?
    ensures InPhase(LoadMachine(s, u), u, Loaded)
  {
    hide Plain, Owners, Covered, Held, MachineBooks, ClusterBooks, MachineRuns, ClusterRuns, DeploymentRuns, Gates;
  }

  /** What the run of a machine that is being deleted does with good replies. */
  lemma MachineRunLeaves(u: nat, m: Machine, c: Cluster, metal: Metal, rep: M.Replies, now: Time)
    requires m.deletion.Some? && GoodForMachine(rep)
    ensures var o := M.Run(u, m, c, metal, rep, false, now);
      && (m.finalizer && Hosted(m, c.project, metal.hosts) ==> M.RecordedID(m) !in o.metal.hosts)
      && (o.obj.finalizer ==> Hosted(m, c.project, metal.hosts) || now <= m.deletion.value + GRACE)
      && (!m.finalizer ==> !o.obj.finalizer)
  {
    hide DecodeProviderID;
  }

  /** Behind the deadline a run frees the machine or gets ready to drop the
      finalizer. */
  lemma AfterAct(s: Sys, g: Goal, u: nat, rep: M.Replies)
    requires Winding(s, g) && InPhase(s, u, Loaded) && u in Members(s.kube.machines, g.k)
    requires s.now >= g.deadline && GoodForMachine(rep)
    ensures var t := ActMachine(s, u, rep, false);
      InPhase(t, u, Done) || (u in LadenMembers(s, g) && u !in LadenMembers(t, g))
  {
    LoadedForUs(s, g, u);
    var m, c := s.mruns[u].m, s.mruns[u].c;
    var o := M.Run(u, m, c, s.metal, rep, false, s.now);
    RecordedObject(s, u, m, o);
    MachineRunLeaves(u, m, c, s.metal, rep, s.now);
    KeepsRecord(u, m, c, s.metal, rep, false, s.now);
    SameRecord(m, s.kube.machines[u]);
    assert ActMachine(s, u, rep, false) == RecordRun(s, u, m, o);
    hide ActMachine, Winding, M.Run, RecordRun, M.RecordedID, GoodForMachine, Laden, InPhase;
    AfterRecord(s, RecordRun(s, u, m, o), g, u);
  }

  lemma AfterRecord(s: Sys, t: Sys, g: Goal, u: nat)
    requires u in Members(s.kube.machines, g.k) && t.kube == s.kube
    requires u in t.mruns && t.mruns[u].MActed? && t.mruns[u].after.providerID == t.mruns[u].before.providerID
    requires var m, hosted := s.kube.machines[u], Hosted(s.kube.machines[u], g.project, s.metal.hosts);
      && (m.finalizer && hosted ==> M.RecordedID(m) !in t.metal.hosts)
      && (t.mruns[u].after.finalizer ==> m.finalizer && hosted)
    ensures InPhase(t, u, Done) || (u in LadenMembers(s, g) && u !in LadenMembers(t, g))
  {
    hide M.RecordedID;
  }

  lemma LoadedForUs(s: Sys, g: Goal, u: nat)
    requires Winding(s, g) && InPhase(s, u, Loaded) && u in Members(s.kube.machines, g.k)
    ensures u in s.mbooks && s.mruns[u].c.project == g.project
    ensures var m, now := s.mruns[u].m, s.kube.machines[u];
      m.providerID == now.providerID && m.finalizer == now.finalizer && m.deletion == now.deletion
      && m.deletion.value + GRACE < g.deadline
  {
    MS.RunStarts(s, u);
    hide Inv, M.PlainPartitions, DeploymentState, NetworkFreeable, Torn, ClosingRun;
  }

  lemma AfterPatch(s: Sys, u: nat)
    requires Inv(s) && InPhase(s, u, Done)
    ensures InPhase(PatchMachine(s, u, true), u, Free)
  {
    MS.RunFacts(s, u);
    MS.Merged(s.kube.machines[u], s.mruns[u].before, s.mruns[u].after);
    hide Inv, MergeMachine, Released, M.KeepsID, ClusterSeen;
  }

  lemma AfterVanish(s: Sys, g: Goal, u: nat)
    requires Leaving(s.kube.machines, g) && InPhase(s, u, Free) && u in Members(s.kube.machines, g.k)
    ensures u !in Members(VanishMachine(s, u).kube.machines, g.k)
  {}

  /** The controller makes a whole run for the object, undisturbed by other runs
      for it but mixed with anything else. */
  predicate MachineRunAt(p: Path, u: nat, a: nat, b: nat, c: nat, d: nat)
    requires IsPath(p)
  {
    && a < b < c < d < |p.steps| && u !in p.states[a].mruns
    && p.steps[a] == SLoadMachine(u) && p.steps[b].SActMachine? && p.steps[b].u == u
    && p.steps[c].SPatchMachine? && p.steps[c].u == u && p.steps[d] == SVanishMachine(u)
    && forall l | a < l < d && l != b && l != c :: !OnMachineRun(p.steps[l], u)
  }

  lemma CalmForMachine(s: Sys, g: Goal, step: Step)
    requires Calm(s, g, step)
    ensures step.SActMachine? && step.u in Members(s.kube.machines, g.k) ==> !step.paused && GoodForMachine(step.mrep)
    ensures step.SPatchMachine? && step.u in Members(s.kube.machines, g.k) ==> step.applied
  {
    hide Fresh, Next, GoodForMachine;
  }

  /** The four steps of the run, one by one, as long as nothing that counts has
      changed. */
  lemma MachineLoads(p: Path, g: Goal, u: nat, a: nat, b: nat, c: nat, d: nat)
    requires IsPath(p) && MachineRunAt(p, u, a, b, c, d) && Winding(p.states[a], g)
    requires u in Members(p.states[a].kube.machines, g.k)
    ensures InPhase(p.states[b], u, Loaded)
  {
    hide InPhase, Winding, Next;
    LeavingAt(p.states[a], g);
    AfterLoad(p.states[a], u);
    PathNext(p, a);
    KeepsPhase(p, u, Loaded, a + 1, b);
  }

  lemma MachineActs(p: Path, g: Goal, u: nat, a: nat, b: nat, c: nat, d: nat)
    requires IsPath(p) && MachineRunAt(p, u, a, b, c, d) && Winding(p.states[b], g) && Calm(p.states[b], g, p.steps[b])
    requires u in Members(p.states[b].kube.machines, g.k) && p.states[b].now >= g.deadline
    requires InPhase(p.states[b], u, Loaded)
    ensures InPhase(p.states[c], u, Done)
         || LadenMembers(p.states[b + 1], g)
            != LadenMembers(p.states[b], g)
  {
    hide InPhase, Winding, Next, Calm;
    CalmForMachine(p.states[b], g, p.steps[b]);
    AfterAct(p.states[b], g, u, p.steps[b].mrep);
    PathNext(p, b);
    if InPhase(p.states[b + 1], u, Done) {
      KeepsPhase(p, u, Done, b + 1, c);
    }
  }

  lemma MachinePatches(p: Path, g: Goal, u: nat, a: nat, b: nat, c: nat, d: nat)
    requires IsPath(p) && MachineRunAt(p, u, a, b, c, d) && Winding(p.states[c], g) && Calm(p.states[c], g, p.steps[c])
    requires u in Members(p.states[c].kube.machines, g.k) && InPhase(p.states[c], u, Done)
    ensures InPhase(p.states[d], u, Free)
  {
    hide InPhase, Winding, Next, Calm;
    CalmForMachine(p.states[c], g, p.steps[c]);
    LeavingAt(p.states[c], g);
    AfterPatch(p.states[c], u);
    PathNext(p, c);
    KeepsPhase(p, u, Free, c + 1, d);
  }

  /** Behind the deadline a whole run for a member changes what counts. */
  lemma MachineRunWorks(p: Path, g: Goal, lo: nat, u: nat, a: nat, b: nat, c: nat, d: nat)
    requires CalmPath(p, g) && lo <= a && MachineRunAt(p, u, a, b, c, d)
    requires p.states[lo].now >= g.deadline && u in Members(p.states[lo].kube.machines, g.k)
    ensures !Unchanged(p.states[lo], p.states[d + 1], g)
  {
    hide InPhase, Winding, Next, Members, LadenMembers, Calm, Stage;
    UnchangedBefore(p, g, lo, d, d + 1);
    if Unchanged(p.states[lo], p.states[d], g) {
      UnchangedBefore(p, g, lo, a, d);
      UnchangedBefore(p, g, lo, b, d);
      UnchangedBefore(p, g, lo, b + 1, d);
      UnchangedBefore(p, g, lo, c, d);
      MachineLoads(p, g, u, a, b, c, d);
      MachineActs(p, g, u, a, b, c, d);
      MachinePatches(p, g, u, a, b, c, d);
      PathNext(p, d);
      LeavingAt(p.states[d], g);
      AfterVanish(p.states[d], g, u);
    }
  }

  lemma LeavingAt(s: Sys, g: Goal)
    requires Winding(s, g)
    ensures Leaving(s.kube.machines, g) && Inv(s)
  {}

  // ---------------------------------------------------- a run for the deployment

  datatype DeploymentPhase = DLoaded | DCleared | DDone | DFree

  /** A run has been loaded; its guard has let it through; it is about to drop the
      finalizer; the finalizer is gone. A deployment that holds nothing has nothing to
      drop. */
  predicate InDeploymentPhase(s: Sys, fk: Key, ph: DeploymentPhase) {
    fk in s.kube.deployments ==> match ph
      case DLoaded =>
        HoldsNothing(s, fk)
        || (fk in s.fruns && s.fruns[fk].FLoaded? && s.fruns[fk].d.deletion.Some? && s.fruns[fk].c.netId.Some?)
      case DCleared => HoldsNothing(s, fk) || Cleared(s, fk) || Dropping(s, fk)
      case DDone => HoldsNothing(s, fk) || Dropping(s, fk)
      case DFree => !s.kube.deployments[fk].finalizer
  }

  predicate Cleared(s: Sys, fk: Key) {
    fk in s.fruns && s.fruns[fk].FCleared? && s.fruns[fk].c.netId.Some?
  }

  predicate Dropping(s: Sys, fk: Key) {
    fk in s.fruns && s.fruns[fk].FActed? && !s.fruns[fk].after.finalizer
  }

  lemma StepKeepsDeploymentPhase(s: Sys, g: Goal, step: Step, ph: DeploymentPhase)
    requires Winding(s, g) && Calm(s, g, step) && InDeploymentPhase(s, g.fk, ph) && !OnDeploymentRun(step, g.fk)
    ensures InDeploymentPhase(Next(s, step), g.fk, ph)
  {
    PresentBefore(s, step, g);
    DeploymentRunKept(s, step, g.fk);
    UnheldStays(s, step, g.fk);
    hide Next, Winding, Calm, SameDeploymentRun, StaysUnheld, InDeploymentPhase;
    SamePhase(s, Next(s, step), g.fk, ph);
  }

  lemma PresentBefore(s: Sys, step: Step, g: Goal)
    requires Winding(s, g) && Calm(s, g, step)
    ensures Inv(s) && (g.fk in Next(s, step).kube.deployments ==> g.fk in s.kube.deployments)
  {
    DeploymentEvolution(s, step, g);
    hide Inv, Underway, Next, Calm, Stage;
  }

  lemma SamePhase(s: Sys, t: Sys, fk: Key, ph: DeploymentPhase)
    requires SameDeploymentRun(s, t, fk) && StaysUnheld(s, t, fk) && InDeploymentPhase(s, fk, ph)
    requires fk in t.kube.deployments ==> fk in s.kube.deployments
    ensures InDeploymentPhase(t, fk, ph)
  {
    hide HoldsNothing;
  }

  lemma {:induction false} KeepsDeploymentPhase(p: Path, g: Goal, ph: DeploymentPhase, i: nat, j: nat)
    requires CalmPath(p, g) && i <= j <= |p.steps| && InDeploymentPhase(p.states[i], g.fk, ph)
    requires forall l | i <= l < j :: !OnDeploymentRun(p.steps[l], g.fk)
    ensures InDeploymentPhase(p.states[j], g.fk, ph)
    decreases j
  {
    hide InDeploymentPhase, Next, Winding, Calm, Unchanged, Shrinks;
    if i < j {
      KeepsDeploymentPhase(p, g, ph, i, j - 1);
      WindsOn(p, g, 0, j - 1);
      StepKeepsDeploymentPhase(p.states[j - 1], g, p.steps[j - 1], ph);
    }
  }

  lemma AfterDeploymentLoad(s: Sys, g: Goal)
    requires Winding(s, g) && g.fk !in s.fruns && Stage(s.kube.deployments, g.fk) == 1
    ensures InDeploymentPhase(LoadDeployment(s, g.fk), g.fk, DLoaded)
  {
    UnheldLoad(s, g.fk);
    hide Inv, Leaving, ClusterState;
  }

  lemma AllAreFreed(metal: Metal, order: seq<string>, frees: seq<Release>)
    requires NoDuplicates(order) && Elems(order) <= metal.hosts.Keys && AllFreed(order, frees)
    ensures F.ErrorsFirst(metal, order, frees, |order|) == []
  {
    F.LoopFrees(metal, order, frees, |order|);
    SomeElement(F.ErrorsFirst(metal, order, frees, |order|));
  }

  lemma SomeElement(s: seq<string>)
    ensures s != [] ==> exists x :: x in s
  {
    if s != [] {
      assert s[0] in s;
    }
  }

  /** With good replies the run drops the finalizer. */
  lemma ReclaimLeaves(k: Key, d: Deployment, ck: Key, c: Cluster, ts: F.Templates, metal: Metal, rep: F.Replies)
    requires c.netId.Some? && rep.search.Some? && AllFreed(rep.search.value, rep.frees)
    requires Lists(rep.search.value, Matching(metal, c.partition, c.project, FirewallTags(c.netId.value, ck, k)))
    ensures var o := F.Reclaim(k, d, ck, c, ts, metal, rep); !o.panicked && !o.obj.finalizer
  {
    AllAreFreed(metal, rep.search.value, rep.frees);
    hide Matching, FirewallTags, Lists, F.FreeFirst, F.ErrorsFirst, AllFreed;
  }

  lemma OwnGuard(s: Sys, g: Goal, rep: F.Replies)
    requires g.fk in s.fruns && s.fruns[g.fk].FLoaded? && s.fruns[g.fk].d.deletion.Some? && s.fruns[g.fk].c.netId.Some?
    requires s.fruns[g.fk].ck == g.k && Members(s.kube.machines, g.k) == {} && rep.list
    ensures var t := ActDeployment(s, g.fk, rep, false);
      g.fk in t.fruns && ((t.fruns[g.fk].FCleared? && t.fruns[g.fk].c.netId.Some?)
                          || (t.fruns[g.fk].FActed? && !t.fruns[g.fk].after.finalizer))
  {
    assert MachinesOf(s.kube, g.k) == Members(s.kube.machines, g.k);
    hide MachinesOf, Members, SetPaused;
  }

  lemma OwnReclaim(s: Sys, g: Goal, rep: F.Replies)
    requires g.fk in s.fruns && s.fruns[g.fk].FCleared? && s.fruns[g.fk].c.netId.Some?
    requires s.fruns[g.fk].ck == g.k && GoodForDeployment(s, g, rep)
    ensures var t := ActDeployment(s, g.fk, rep, false);
      g.fk in t.fruns && t.fruns[g.fk].FActed? && !t.fruns[g.fk].after.finalizer
  {
    var r := s.fruns[g.fk];
    hide F.Reclaim, F.Begin;
    ReclaimLeaves(g.fk, F.Begin(r.d, false), g.k, r.c, s.kube.templates, s.metal, rep);
    hide GoodForDeployment;
  }

  lemma AfterDeploymentGuard(s: Sys, g: Goal, rep: F.Replies)
    requires Winding(s, g) && InDeploymentPhase(s, g.fk, DLoaded) && Members(s.kube.machines, g.k) == {} && rep.list
    ensures InDeploymentPhase(ActDeployment(s, g.fk, rep, false), g.fk, DCleared)
  {
    LeavingAt(s, g);
    UnheldAct(s, rep, false, g.fk);
    if g.fk in s.kube.deployments && !HoldsNothing(s, g.fk) {
      OwnRun(s, g);
      OwnGuard(s, g, rep);
    }
    hide Winding, ActDeployment, Members, HoldsNothing;
  }

  lemma AfterDeploymentReclaim(s: Sys, g: Goal, rep: F.Replies)
    requires Winding(s, g) && InDeploymentPhase(s, g.fk, DCleared) && GoodForDeployment(s, g, rep)
    ensures InDeploymentPhase(ActDeployment(s, g.fk, rep, false), g.fk, DDone)
  {
    LeavingAt(s, g);
    UnheldAct(s, rep, false, g.fk);
    if g.fk in s.kube.deployments && !HoldsNothing(s, g.fk) {
      if Cleared(s, g.fk) {
        OwnRun(s, g);
        OwnReclaim(s, g, rep);
      } else {
        ActedStays(s, g.fk, rep);
      }
    }
    hide Winding, ActDeployment, GoodForDeployment, HoldsNothing;
  }

  lemma ActedStays(s: Sys, fk: Key, rep: F.Replies)
    requires fk in s.fruns && s.fruns[fk].FActed?
    ensures ActDeployment(s, fk, rep, false) == s
  {}

  /** A run for the deployment that is still to act belongs to our cluster. */
  lemma OwnRun(s: Sys, g: Goal)
    requires Winding(s, g) && g.fk in s.kube.deployments && g.fk in s.fruns && !s.fruns[g.fk].FActed?
    ensures s.fruns[g.fk].ck == g.k
  {
    DS.RunStarts(s, g.fk);
    hide Inv, ClusterState, Leaving, Unheld;
  }

  /** The patch takes a dropped finalizer out of the store. */
  lemma PatchFrees(s: Sys, fk: Key)
    requires Inv(s) && fk in s.kube.deployments && Dropping(s, fk)
    ensures var t := PatchDeployment(s, fk, true).kube.deployments; fk in t && !t[fk].finalizer
  {
    DS.RunFacts(s, fk);
    hide Inv, NoFirewallsOf, ClusterSeen, DnsLabel;
  }

  lemma AfterDeploymentPatch(s: Sys, g: Goal)
    requires Winding(s, g) && InDeploymentPhase(s, g.fk, DDone)
    ensures InDeploymentPhase(PatchDeployment(s, g.fk, true), g.fk, DFree)
  {
    LeavingAt(s, g);
    if g.fk in s.kube.deployments {
      if Dropping(s, g.fk) { PatchFrees(s, g.fk); } else { UnheldPatch(s, true, g.fk); }
    }
    hide Winding, Inv, PatchDeployment, Dropping;
  }

  lemma AfterDeploymentVanish(s: Sys, g: Goal)
    requires InDeploymentPhase(s, g.fk, DFree) && Stage(s.kube.deployments, g.fk) == 1
    ensures Stage(VanishDeployment(s, g.fk).kube.deployments, g.fk) == 0
  {}

  predicate DeploymentRunAt(p: Path, fk: Key, a: nat, b: nat, b': nat, c: nat, d: nat)
    requires IsPath(p)
  {
    && a < b < b' < c < d < |p.steps| && fk !in p.states[a].fruns
    && p.steps[a] == SLoadDeployment(fk) && p.steps[b].SActDeployment? && p.steps[b].k == fk
    && p.steps[b'].SActDeployment? && p.steps[b'].k == fk
    && p.steps[c].SPatchDeployment? && p.steps[c].k == fk && p.steps[d] == SVanishDeployment(fk)
    && forall l | a < l < d && l != b && l != b' && l != c :: !OnDeploymentRun(p.steps[l], fk)
  }

  lemma CalmForDeployment(s: Sys, g: Goal, step: Step)
    requires Calm(s, g, step)
    ensures step.SActDeployment? && step.k == g.fk ==> !step.paused && GoodForDeployment(s, g, step.frep)
    ensures step.SPatchDeployment? && step.k == g.fk ==> step.applied
  {
    hide Fresh, Next, GoodForDeployment;
  }

  /** With no machine left a whole run for a deployment that is being deleted makes
      it go. */
  lemma DeploymentRunWorks(p: Path, g: Goal, lo: nat, a: nat, b: nat, b': nat, c: nat, d: nat)
    requires CalmPath(p, g) && DeploymentRunAt(p, g.fk, a, b, b', c, d) && lo <= a
    requires Members(p.states[lo].kube.machines, g.k) == {} && Stage(p.states[lo].kube.deployments, g.fk) == 1
    ensures !Unchanged(p.states[lo], p.states[d + 1], g)
  {
    hide InDeploymentPhase, Winding, Next, Members, LadenMembers, Calm, Stage, GoodForDeployment;
    UnchangedBefore(p, g, lo, d, d + 1);
    if Unchanged(p.states[lo], p.states[d], g) {
      UnchangedBefore(p, g, lo, a, d);
      UnchangedBefore(p, g, lo, b, d);
      UnchangedBefore(p, g, lo, b', d);
      UnchangedBefore(p, g, lo, c, d);
      DeploymentLoads(p, g, a, b, b', c, d);
      DeploymentClears(p, g, a, b, b', c, d);
      DeploymentReclaims(p, g, a, b, b', c, d);
      DeploymentPatches(p, g, a, b, b', c, d);
      PathNext(p, d);
      AfterDeploymentVanish(p.states[d], g);
    }
  }

  lemma DeploymentLoads(p: Path, g: Goal, a: nat, b: nat, b': nat, c: nat, d: nat)
    requires CalmPath(p, g) && DeploymentRunAt(p, g.fk, a, b, b', c, d)
    requires Winding(p.states[a], g) && Stage(p.states[a].kube.deployments, g.fk) == 1
    ensures InDeploymentPhase(p.states[b], g.fk, DLoaded)
  {
    hide InDeploymentPhase, Winding, Next, Calm, Stage;
    PathNext(p, a);
    AfterDeploymentLoad(p.states[a], g);
    KeepsDeploymentPhase(p, g, DLoaded, a + 1, b);
  }

  lemma DeploymentClears(p: Path, g: Goal, a: nat, b: nat, b': nat, c: nat, d: nat)
    requires CalmPath(p, g) && DeploymentRunAt(p, g.fk, a, b, b', c, d)
    requires Winding(p.states[b], g) && Members(p.states[b].kube.machines, g.k) == {}
    requires InDeploymentPhase(p.states[b], g.fk, DLoaded)
    ensures InDeploymentPhase(p.states[b'], g.fk, DCleared)
  {
    hide InDeploymentPhase, Winding, Next, Calm, Members;
    PathNext(p, b);
    CalmForDeployment(p.states[b], g, p.steps[b]);
    AfterDeploymentGuard(p.states[b], g, p.steps[b].frep);
    KeepsDeploymentPhase(p, g, DCleared, b + 1, b');
  }

  lemma DeploymentReclaims(p: Path, g: Goal, a: nat, b: nat, b': nat, c: nat, d: nat)
    requires CalmPath(p, g) && DeploymentRunAt(p, g.fk, a, b, b', c, d)
    requires Winding(p.states[b'], g) && InDeploymentPhase(p.states[b'], g.fk, DCleared)
    ensures InDeploymentPhase(p.states[c], g.fk, DDone)
  {
    hide InDeploymentPhase, Winding, Next, Calm, GoodForDeployment;
    PathNext(p, b');
    CalmForDeployment(p.states[b'], g, p.steps[b']);
    AfterDeploymentReclaim(p.states[b'], g, p.steps[b'].frep);
    KeepsDeploymentPhase(p, g, DDone, b' + 1, c);
  }

  lemma DeploymentPatches(p: Path, g: Goal, a: nat, b: nat, b': nat, c: nat, d: nat)
    requires CalmPath(p, g) && DeploymentRunAt(p, g.fk, a, b, b', c, d)
    requires Winding(p.states[c], g) && InDeploymentPhase(p.states[c], g.fk, DDone)
    ensures InDeploymentPhase(p.states[d], g.fk, DFree)
  {
    hide InDeploymentPhase, Winding, Next, Calm, GoodForDeployment;
    PathNext(p, c);
    CalmForDeployment(p.states[c], g, p.steps[c]);
    AfterDeploymentPatch(p.states[c], g);
    KeepsDeploymentPhase(p, g, DFree, c + 1, d);
  }

  // ------------------------------------------------------- a run for the cluster

  predicate OnClusterRun(step: Step, k: Key) {
    (step.SLoadCluster? || step.SActCluster? || step.SPatchCluster? || step.SVanishCluster?) && step.k == k
  }

  datatype ClusterPhase = Snapped | Passed | TearingDown | LetGo

  /** The finalizer is gone and no run brings it back. */
  predicate Finished(s: Sys, k: Key) {
    && k in s.kube.clusters && !s.kube.clusters[k].finalizer
    && (k in s.cruns ==> match s.cruns[k]
          case CLoaded(c) => c.deletion.Some?
          case CCleared(_) => true
          case CActed(_, a, _, _) => !a.finalizer)
  }

  /** A run has read the request; the guard has let it through; it is about to drop the
      finalizer; the finalizer is gone. */
  predicate InClusterPhase(s: Sys, k: Key, ph: ClusterPhase) {
    k in s.kube.clusters ==> match ph
      case Snapped => k in s.cruns && s.cruns[k].CLoaded? && s.cruns[k].c.deletion.Some?
      case Passed => Finished(s, k) || (k in s.cruns && s.cruns[k].CCleared?)
      case TearingDown => Finished(s, k) || (k in s.cruns && Torn(s.cruns[k]))
      case LetGo => !s.kube.clusters[k].finalizer
  }

  /** The run stays, and the object but for a request for its deletion. */
  predicate SameClusterRun(s: Sys, t: Sys, k: Key) {
    && (k in t.cruns <==> k in s.cruns) && (k in s.cruns ==> t.cruns[k] == s.cruns[k])
    && (k in t.kube.clusters ==> k in s.kube.clusters && t.kube.clusters[k].finalizer == s.kube.clusters[k].finalizer)
  }

  lemma ClusterRunKept(s: Sys, g: Goal, step: Step)
    requires Calm(s, g, step) && !OnClusterRun(step, g.k)
    ensures SameClusterRun(s, Next(s, step), g.k)
  {
    if !OnClusters(step) {
      ClusterFrame(s, step);
      hide Next, Calm;
    } else if step.k != g.k {
      Elsewhere(s, step, g.k);
      hide Next, Calm;
    } else {
      hide Fresh;
    }
  }

  lemma {:induction false} KeepsClusterPhase(p: Path, g: Goal, ph: ClusterPhase, i: nat, j: nat)
    requires CalmPath(p, g) && i <= j <= |p.steps| && InClusterPhase(p.states[i], g.k, ph)
    requires forall l | i <= l < j :: !OnClusterRun(p.steps[l], g.k)
    ensures InClusterPhase(p.states[j], g.k, ph)
    decreases j
  {
    hide Next, Calm, Winding;
    if i < j {
      KeepsClusterPhase(p, g, ph, i, j - 1);
      ClusterRunKept(p.states[j - 1], g, p.steps[j - 1]);
    }
  }

  lemma AfterClusterLoad(s: Sys, g: Goal)
    requires Winding(s, g) && g.k !in s.cruns
    ensures InClusterPhase(LoadCluster(s, g.k), g.k, Snapped)
  {
    hide Inv, Leaving, DeploymentState;
  }

  /** The guard lets through once the deployment is gone, and asks it to go first. */
  lemma AfterGuard(s: Sys, g: Goal, rep: C.Replies)
    requires Winding(s, g) && InClusterPhase(s, g.k, Snapped) && g.k in s.kube.clusters && GoodForCluster(rep)
    requires Members(s.kube.machines, g.k) == {} && Stage(s.kube.deployments, g.fk) != 1
    ensures var t := ActCluster(s, g.k, rep, false);
      InClusterPhase(t, g.k, Passed) || Stage(t.kube.deployments, g.fk) < Stage(s.kube.deployments, g.fk)
  {
    CS.RunFacts(s, g.k);
    var c := s.cruns[g.k].c;
    GuardPasses(s, g, rep);
    hide Inv, ActClusterGuard, Leaving, DeploymentState, Members, GoodForCluster, Stage, InClusterPhase;
    assert ActCluster(s, g.k, rep, false) == ActClusterGuard(s, g.k, rep);
    hide ActCluster;
  }

  lemma GuardPasses(s: Sys, g: Goal, rep: C.Replies)
    requires g.k in s.cruns && s.cruns[g.k].CLoaded? && g.k in s.kube.clusters && GoodForCluster(rep)
    requires s.cruns[g.k].c.finalizer == s.kube.clusters[g.k].finalizer
    requires s.cruns[g.k].c.fwRef == Some(g.fk.name) && g.fk.ns == g.k.ns
    requires Members(s.kube.machines, g.k) == {} && Stage(s.kube.deployments, g.fk) != 1
    ensures var t := ActClusterGuard(s, g.k, rep);
      InClusterPhase(t, g.k, Passed) || Stage(t.kube.deployments, g.fk) < Stage(s.kube.deployments, g.fk)
  {
    var c := s.cruns[g.k].c;
    assert MachinesOf(s.kube, g.k) == Members(s.kube.machines, g.k);
    BeginLeaves(c);
    hide MachinesOf, Members, C.Begin, C.Guard;
    GuardLeaves(g.k, C.Begin(c, false), MachinesOf(s.kube, g.k) != {}, s.kube.deployments, rep, s.now, g);
    hide GoodForCluster;
  }

  lemma AfterTeardown(s: Sys, g: Goal, rep: C.Replies)
    requires Winding(s, g) && InClusterPhase(s, g.k, Passed) && GoodForCluster(rep)
    ensures InClusterPhase(ActCluster(s, g.k, rep, false), g.k, TearingDown)
  {
    if g.k in s.kube.clusters {
      LeavingAt(s, g);
      if Finished(s, g.k) {
        StaysFinished(s, g.k, rep);
      } else {
        ClearedFreeable(s, g);
        TearsDown(s, g, rep);
      }
    }
    hide Winding, ActCluster, Finished;
  }

  lemma StaysFinished(s: Sys, k: Key, rep: C.Replies)
    requires Inv(s) && Finished(s, k)
    ensures Finished(ActCluster(s, k, rep, false), k)
  {
    if k in s.cruns {
      CS.RunFacts(s, k);
      if !s.cruns[k].CActed? {
        BeginLeaves(s.cruns[k].c);
        assert !s.cruns[k].c.finalizer;
      }
    }
    hide Inv, C.Guard, C.Begin, MachinesOf, Deserted, PlainCluster, Gated, ClusterBooked;
  }

  lemma ClearedFreeable(s: Sys, g: Goal)
    requires Winding(s, g) && g.k in s.kube.clusters && s.kube.clusters[g.k].finalizer
    requires g.k in s.cruns && s.cruns[g.k].CCleared?
    ensures var c := s.cruns[g.k].c; c.finalizer && NetworkFreeable(c, s.metal) && g.k in s.cbooks
  {
    CS.RunFacts(s, g.k);
    hide Inv, Leaving, DeploymentState, Deserted, PlainCluster, Gated;
  }

  lemma TearsDown(s: Sys, g: Goal, rep: C.Replies)
    requires g.k in s.cruns && s.cruns[g.k].CCleared? && g.k in s.cbooks && GoodForCluster(rep)
    requires s.cruns[g.k].c.finalizer && NetworkFreeable(s.cruns[g.k].c, s.metal)
    ensures var t := ActCluster(s, g.k, rep, false); g.k in t.cruns && Torn(t.cruns[g.k])
  {
    var c := s.cruns[g.k].c;
    BeginLeaves(c);
    hide C.Teardown, C.Begin;
    TeardownLeaves(C.Begin(c, false), s.kube.deployments, s.metal, rep);
  }

  lemma AfterClusterPatch(s: Sys, g: Goal)
    requires Winding(s, g) && InClusterPhase(s, g.k, TearingDown)
    ensures InClusterPhase(PatchCluster(s, g.k, true), g.k, LetGo)
  {
    if g.k in s.kube.clusters {
      LeavingAt(s, g);
      LetsGo(s, g.k);
    }
    hide Winding, Inv, PatchCluster;
  }

  lemma LetsGo(s: Sys, k: Key)
    requires Inv(s) && k in s.kube.clusters && (Finished(s, k) || (k in s.cruns && Torn(s.cruns[k])))
    ensures var t := PatchCluster(s, k, true).kube.clusters; k in t && !t[k].finalizer
  {
    if k in s.cruns {
      CS.RunFacts(s, k);
    }
    hide Inv, Deserted, PlainCluster, Gated, ClusterBooked;
  }

  lemma AfterClusterVanish(s: Sys, g: Goal)
    requires Winding(s, g) && InClusterPhase(s, g.k, LetGo)
    ensures g.k !in VanishCluster(s, g.k).kube.clusters
  {
    hide Inv, Leaving, DeploymentState;
  }

  predicate ClusterRunAt(p: Path, k: Key, a: nat, b: nat, b': nat, c: nat, d: nat)
    requires IsPath(p)
  {
    && a < b < b' < c < d < |p.steps| && k !in p.states[a].cruns
    && p.steps[a] == SLoadCluster(k) && p.steps[b].SActCluster? && p.steps[b].k == k && p.steps[b'].SActCluster?
        && p.steps[b'].k == k
    && p.steps[c].SPatchCluster? && p.steps[c].k == k && p.steps[d] == SVanishCluster(k)
    && forall l | a < l < d && l != b && l != b' && l != c :: !OnClusterRun(p.steps[l], k)
  }

  lemma CalmForCluster(s: Sys, g: Goal, step: Step)
    requires Calm(s, g, step)
    ensures step.SActCluster? && step.k == g.k ==> !step.paused && GoodForCluster(step.crep)
    ensures step.SPatchCluster? && step.k == g.k ==> step.applied
  {
    hide Fresh, Next, GoodForCluster;
  }

  /** With no machine left a whole run for the cluster asks the deployment to go,
      or, once it is gone, makes the cluster go. */
  lemma ClusterRunWorks(p: Path, g: Goal, lo: nat, a: nat, b: nat, b': nat, c: nat, d: nat)
    requires CalmPath(p, g) && ClusterRunAt(p, g.k, a, b, b', c, d) && lo <= a
    requires Members(p.states[lo].kube.machines, g.k) == {} && g.k in p.states[lo].kube.clusters
    requires Stage(p.states[lo].kube.deployments, g.fk) != 1
    ensures !Unchanged(p.states[lo], p.states[d + 1], g)
  {
    hide InClusterPhase, Winding, Next, Members, LadenMembers, Calm, Stage, GoodForCluster;
    UnchangedBefore(p, g, lo, d, d + 1);
    if Unchanged(p.states[lo], p.states[d], g) {
      UnchangedBefore(p, g, lo, a, d);
      UnchangedBefore(p, g, lo, b, d);
      UnchangedBefore(p, g, lo, b + 1, d);
      UnchangedBefore(p, g, lo, b', d);
      UnchangedBefore(p, g, lo, c, d);
      ClusterReads(p, g, a, b, b', c, d);
      ClusterPasses(p, g, lo, a, b, b', c, d);
      ClusterTearsDown(p, g, a, b, b', c, d);
      PathNext(p, d);
      AfterClusterVanish(p.states[d], g);
    }
  }

  lemma ClusterReads(p: Path, g: Goal, a: nat, b: nat, b': nat, c: nat, d: nat)
    requires CalmPath(p, g) && ClusterRunAt(p, g.k, a, b, b', c, d) && Winding(p.states[a], g)
    ensures InClusterPhase(p.states[b], g.k, Snapped)
  {
    hide InClusterPhase, Next, Calm, Winding;
    PathNext(p, a);
    AfterClusterLoad(p.states[a], g);
    KeepsClusterPhase(p, g, Snapped, a + 1, b);
  }

  lemma ClusterPasses(p: Path, g: Goal, lo: nat, a: nat, b: nat, b': nat, c: nat, d: nat)
    requires CalmPath(p, g) && ClusterRunAt(p, g.k, a, b, b', c, d)
    requires Winding(p.states[b], g) && InClusterPhase(p.states[b], g.k, Snapped)
    requires lo <= a && Unchanged(p.states[lo], p.states[b], g) && Unchanged(p.states[lo], p.states[b + 1], g)
    requires lo <= a && Members(p.states[lo].kube.machines, g.k) == {} && g.k in p.states[lo].kube.clusters
    requires Stage(p.states[lo].kube.deployments, g.fk) != 1
    ensures InClusterPhase(p.states[b'], g.k, Passed)
  {
    hide InClusterPhase, Winding, Next, Members, LadenMembers, Calm, Stage, GoodForCluster;
    PathNext(p, b);
    CalmForCluster(p.states[b], g, p.steps[b]);
    AfterGuard(p.states[b], g, p.steps[b].crep);
    KeepsClusterPhase(p, g, Passed, b + 1, b');
  }

  lemma ClusterTearsDown(p: Path, g: Goal, a: nat, b: nat, b': nat, c: nat, d: nat)
    requires CalmPath(p, g) && ClusterRunAt(p, g.k, a, b, b', c, d)
    requires Winding(p.states[b'], g) && InClusterPhase(p.states[b'], g.k, Passed)
    requires Winding(p.states[c], g)
    ensures InClusterPhase(p.states[d], g.k, LetGo)
  {
    hide InClusterPhase, Winding, Next, Calm, GoodForCluster;
    PathNext(p, b');
    CalmForCluster(p.states[b'], g, p.steps[b']);
    AfterTeardown(p.states[b'], g, p.steps[b'].crep);
    KeepsClusterPhase(p, g, TearingDown, b' + 1, c);
    PathNext(p, c);
    CalmForCluster(p.states[c], g, p.steps[c]);
    AfterClusterPatch(p.states[c], g);
    KeepsClusterPhase(p, g, LetGo, c + 1, d);
  }
}

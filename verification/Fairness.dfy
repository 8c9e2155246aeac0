/** The hypotheses of whole-deletion termination can always be met: from every state,
    also with runs under way, there is a calm path with as many rounds of fair
    scheduling as one likes, so that a deletion that is under way can be brought to its
    end. */
module Fairness {
  import opened Names
  import opened Store
  import opened Metal
  import opened Protocol
  import opened Invariant
  import opened Liveness
  import opened ControllerRuns
  import opened Termination
  import opened StepFrames
  import R = Reachable
  import DS = DeploymentSteps
  import CS = ClusterSteps
  import MS = MachineSteps
  import M = MachineSpec
  import C = ClusterSpec
  import F = FirewallSpec

  const NO_REPORT: Report := Report(None, [], "", None, None, None, None)

  // ----------------------------------------------------------------- calm steps

  lemma SameHostsFresh(s: Sys, t: Sys, g: Goal)
    requires forall id | id in t.metal.hosts :: id in s.metal.hosts
    ensures Fresh(s, t, g)
  {
    hide M.RecordedID;
  }

  const MACHINE_REPLIES: M.Replies := M.Replies(true, true, Denied, NO_REPORT, Freed)

  /** A machine run that is granted nothing brings no host. */
  lemma ActOnlyFrees(s: Sys, u: nat)
    ensures forall id | id in ActMachine(s, u, MACHINE_REPLIES, false).metal.hosts :: id in s.metal.hosts
  {
    if u in s.mruns && s.mruns[u].MLoaded? && u in s.mbooks {
      hide M.Run, RecordRun, M.RecordedID, M.PlainPartitions, M.KeepsID;
    }
  }

  lemma CalmMachineAct(s: Sys, g: Goal, u: nat)
    ensures Calm(s, g, SActMachine(u, MACHINE_REPLIES, false))
  {
    ActOnlyFrees(s, u);
    hide ActMachine, Fresh;
    SameHostsFresh(s, Next(s, SActMachine(u, MACHINE_REPLIES, false)), g);
  }

  /** Loading, patching and removing are calm in themselves, and so is the clock. */
  predicate Plainly(step: Step) {
    || step.SLoadMachine? || (step.SPatchMachine? && step.applied) || step.SVanishMachine?
    || step.SLoadDeployment? || (step.SPatchDeployment? && step.applied) || step.SVanishDeployment?
    || step.SLoadCluster? || (step.SPatchCluster? && step.applied) || step.SVanishCluster?
    || step.STick?
  }

  lemma PlainlyCalm(s: Sys, g: Goal, step: Step)
    requires Plainly(step)
    ensures Calm(s, g, step)
  {
    HostFrame(s, step);
    hide Next, Fresh;
    SameHostsFresh(s, Next(s, step), g);
  }

  ghost function Enumerate(ids: set<string>): (order: seq<string>)
    ensures Lists(order, ids)
    decreases ids
  {
    if ids == {} then []
    else
      var id :| id in ids;
      var rest := Enumerate(ids - {id});
      assert Elems([id] + rest) == ids by {
        assert forall x :: x in [id] + rest <==> x == id || x in rest;
        assert forall x :: x in Elems(rest) <==> x in rest;
      }
      assert id !in rest by { assert id !in Elems(rest); }
      [id] + rest
  }

  /** Good replies to a run of the deployment controller: nothing is granted, the
      search answers truthfully and every free goes through. */
  ghost function DeploymentReplies(s: Sys, g: Goal): F.Replies {
    var order := if g.fk in s.fruns && s.fruns[g.fk].FCleared? && s.fruns[g.fk].c.netId.Some?
                 then Enumerate(FirewallsOf(s.metal, s.fruns[g.fk].c, g)) else [];
    F.Replies(true, Denied, NO_REPORT, true, Some(order), seq(|order|, _ => Freed))
  }

  lemma TruthfulReplies(s: Sys, g: Goal)
    ensures GoodForDeployment(s, g, DeploymentReplies(s, g)) && DeploymentReplies(s, g).alloc.Denied?
  {
    hide FirewallsOf, Lists, Enumerate;
  }

  lemma CalmDeploymentAct(s: Sys, g: Goal)
    requires Inv(s)
    ensures Calm(s, g, SActDeployment(g.fk, DeploymentReplies(s, g), false))
  {
    hide Inv, DeploymentReplies, ActDeployment, Fresh, GoodForDeployment;
    TruthfulReplies(s, g);
    var rep := DeploymentReplies(s, g);
    DS.ActReshapes(s, g.fk, rep, false);
    SameHostsFresh(s, Next(s, SActDeployment(g.fk, rep, false)), g);
  }

  const CLUSTER_REPLIES: C.Replies := C.Replies(Denied, true, true, true, Denied, true, true, true, Freed, Freed)

  lemma CalmClusterAct(s: Sys, g: Goal)
    ensures Calm(s, g, SActCluster(g.k, CLUSTER_REPLIES, false))
  {
    HostFrame(s, SActCluster(g.k, CLUSTER_REPLIES, false));
    hide Next, Fresh;
    SameHostsFresh(s, Next(s, SActCluster(g.k, CLUSTER_REPLIES, false)), g);
  }

  // ----------------------------------------------------- putting paths together

  function Last(p: Path): Sys
    requires IsPath(p)
  {
    p.states[|p.steps|]
  }

  predicate CalmSteps(p: Path, g: Goal) {
    IsPath(p) && forall i | 0 <= i < |p.steps| :: Calm(p.states[i], g, p.steps[i])
  }

  /** A calm path from `s`. */
  predicate From(p: Path, s: Sys, g: Goal) {
    CalmSteps(p, g) && p.states[0] == s && Inv(Last(p))
  }

  function Start(s: Sys): Path {
    Path([s], [])
  }

  /** The path goes on by one calm step. */
  lemma Grow(p: Path, s: Sys, g: Goal, step: Step) returns (q: Path)
    requires From(p, s, g) && Calm(Last(p), g, step)
    ensures From(q, s, g) && q.steps == p.steps + [step]
    ensures q.states == p.states + [Next(Last(p), step)]
  {
    hide Calm, Next, Inv;
    R.NextInv(Last(p), step);
    q := Path(p.states + [Next(Last(p), step)], p.steps + [step]);
  }

  /** `q` is a stretch of `p` that begins at `o`. */
  predicate Stretch(q: Path, p: Path, o: nat) {
    && IsPath(q) && IsPath(p) && o + |q.steps| <= |p.steps|
    && (forall i | 0 <= i <= |q.steps| :: p.states[o + i] == q.states[i])
    && (forall i | 0 <= i < |q.steps| :: p.steps[o + i] == q.steps[i])
  }

  lemma Join(p: Path, q: Path, s: Sys, g: Goal) returns (r: Path)
    requires From(p, s, g) && From(q, Last(p), g)
    ensures From(r, s, g) && Last(r) == Last(q) && |r.steps| == |p.steps| + |q.steps|
    ensures Stretch(p, r, 0) && Stretch(q, r, |p.steps|)
  {
    hide Calm, Next, Inv;
    r := Path(p.states + q.states[1..], p.steps + q.steps);
    forall i | 0 <= i < |r.steps|
      ensures r.states[i + 1] == Next(r.states[i], r.steps[i]) && Calm(r.states[i], g, r.steps[i])
    {
      if i >= |p.steps| {
        assert r.states[i] == q.states[i - |p.steps|] && r.states[i + 1] == q.states[i - |p.steps| + 1];
      }
    }
  }

  lemma MachineInStretch(q: Path, p: Path, o: nat, lo: nat, hi: nat, u: nat)
    requires Stretch(q, p, o) && RunsMachine(q, lo, hi, u)
    ensures RunsMachine(p, o + lo, o + hi, u)
  {
    hide Next, IsPath;
    var a: nat, b: nat, c: nat, d: nat :| MachineRunAt(q, u, a, b, c, d) && lo <= a <= d < hi;
    assert forall l | o + a < l < o + d :: p.steps[l] == q.steps[l - o];
    assert MachineRunAt(p, u, o + a, o + b, o + c, o + d);
  }

  lemma DeploymentInStretch(q: Path, p: Path, o: nat, lo: nat, hi: nat, fk: Key)
    requires Stretch(q, p, o) && RunsDeployment(q, lo, hi, fk)
    ensures RunsDeployment(p, o + lo, o + hi, fk)
  {
    hide Next, IsPath, DeploymentRunAt;
    var a: nat, b: nat, b': nat, c: nat, d: nat :| DeploymentRunAt(q, fk, a, b, b', c, d) && lo <= a <= d < hi;
    DeploymentRunShifts(q, p, o, fk, a, b, b', c, d);
  }

  lemma DeploymentRunShifts(q: Path, p: Path, o: nat, fk: Key, a: nat, b: nat, b': nat, c: nat, d: nat)
    requires Stretch(q, p, o) && DeploymentRunAt(q, fk, a, b, b', c, d)
    ensures DeploymentRunAt(p, fk, o + a, o + b, o + b', o + c, o + d)
  {
    hide Next, IsPath;
    assert forall l | o + a < l < o + d :: p.steps[l] == q.steps[l - o];
  }

  lemma ClusterInStretch(q: Path, p: Path, o: nat, lo: nat, hi: nat, k: Key)
    requires Stretch(q, p, o) && RunsCluster(q, lo, hi, k)
    ensures RunsCluster(p, o + lo, o + hi, k)
  {
    hide Next, IsPath, ClusterRunAt;
    var a: nat, b: nat, b': nat, c: nat, d: nat :| ClusterRunAt(q, k, a, b, b', c, d) && lo <= a <= d < hi;
    ClusterRunShifts(q, p, o, k, a, b, b', c, d);
  }

  lemma ClusterRunShifts(q: Path, p: Path, o: nat, k: Key, a: nat, b: nat, b': nat, c: nat, d: nat)
    requires Stretch(q, p, o) && ClusterRunAt(q, k, a, b, b', c, d)
    ensures ClusterRunAt(p, k, o + a, o + b, o + b', o + c, o + d)
  {
    hide Next, IsPath;
    assert forall l | o + a < l < o + d :: p.steps[l] == q.steps[l - o];
  }

  lemma RoundInStretch(q: Path, p: Path, g: Goal, o: nat, lo: nat, hi: nat)
    requires Stretch(q, p, o) && lo <= hi <= |q.steps| && Round(q, g, lo, hi)
    ensures Round(p, g, o + lo, o + hi)
  {
    hide Next, RunsMachine, RunsDeployment, RunsCluster, Members;
    var s, t := q.states[lo], q.states[hi];
    assert p.states[o + lo] == s && p.states[o + hi] == t;
    forall u | u in Members(s.kube.machines, g.k) && u in Members(t.kube.machines, g.k)
      ensures RunsMachine(p, o + lo, o + hi, u)
    {
      MachineInStretch(q, p, o, lo, hi, u);
    }
    if g.fk in s.kube.deployments && g.fk in t.kube.deployments { DeploymentInStretch(q, p, o, lo, hi, g.fk); }
    if g.k in s.kube.clusters && g.k in t.kube.clusters { ClusterInStretch(q, p, o, lo, hi, g.k); }
    var i: nat :| lo <= i < hi && q.steps[i].STick? && q.steps[i].d > 0;
    assert p.steps[o + i] == q.steps[i];
  }

  lemma MachineWider(p: Path, lo: nat, hi: nat, lo': nat, hi': nat, u: nat)
    requires IsPath(p) && lo' <= lo && hi <= hi' && RunsMachine(p, lo, hi, u)
    ensures RunsMachine(p, lo', hi', u)
  {
    hide IsPath, MachineRunAt;
    var a: nat, b: nat, c: nat, d: nat :| MachineRunAt(p, u, a, b, c, d) && lo <= a <= d < hi;
  }

  lemma DeploymentWider(p: Path, lo: nat, hi: nat, lo': nat, hi': nat, fk: Key)
    requires IsPath(p) && lo' <= lo && hi <= hi' && RunsDeployment(p, lo, hi, fk)
    ensures RunsDeployment(p, lo', hi', fk)
  {
    hide IsPath, DeploymentRunAt;
    var a: nat, b: nat, b': nat, c: nat, d: nat :| DeploymentRunAt(p, fk, a, b, b', c, d) && lo <= a <= d < hi;
  }

  lemma ClusterWider(p: Path, lo: nat, hi: nat, lo': nat, hi': nat, k: Key)
    requires IsPath(p) && lo' <= lo && hi <= hi' && RunsCluster(p, lo, hi, k)
    ensures RunsCluster(p, lo', hi', k)
  {
    hide IsPath, ClusterRunAt;
    var a: nat, b: nat, b': nat, c: nat, d: nat :| ClusterRunAt(p, k, a, b, b', c, d) && lo <= a <= d < hi;
  }

  // -------------------------------------------------------------- whole turns

  /** Acting and patching ends whatever run there is. */
  lemma FlushMachine(s: Sys, u: nat)
    requires Inv(s)
    ensures u !in PatchMachine(ActMachine(s, u, MACHINE_REPLIES, false), u, true).mruns
  {
    ActedMachine(s, u);
    hide Inv, ActMachine, MergeMachine;
  }

  lemma ActedMachine(s: Sys, u: nat)
    requires Inv(s)
    ensures var t := ActMachine(s, u, MACHINE_REPLIES, false);
      u in t.mruns ==> t.mruns[u].MActed? && u in t.kube.machines && u in t.mbooks
  {
    if u in s.mruns {
      MS.RunFacts(s, u);
      hide Inv, M.Run, Settle, MachineRunOk;
    }
  }

  lemma MachineFlushes(s: Sys, g: Goal, u: nat) returns (p: Path)
    requires Inv(s)
    ensures From(p, s, g) && u !in Last(p).mruns
  {
    hide Inv, Calm, Next, ActMachine, PatchMachine;
    FlushMachine(s, u);
    var act, patch := SActMachine(u, MACHINE_REPLIES, false), SPatchMachine(u, true);
    CalmMachineAct(s, g, u);
    p := Grow(Start(s), s, g, act);
    UnfoldsMachine(s, act);
    UnfoldsMachine(Last(p), patch);
    PlainlyCalm(Last(p), g, patch);
    p := Grow(p, s, g, patch);
  }

  lemma MachineRunTurn(s: Sys, g: Goal, u: nat) returns (p: Path)
    requires Inv(s) && u !in s.mruns
    ensures From(p, s, g) && RunsMachine(p, 0, |p.steps|, u)
  {
    hide Inv, Calm, Next;
    PlainlyCalm(s, g, SLoadMachine(u));
    p := Grow(Start(s), s, g, SLoadMachine(u));
    CalmMachineAct(Last(p), g, u);
    p := Grow(p, s, g, SActMachine(u, MACHINE_REPLIES, false));
    PlainlyCalm(Last(p), g, SPatchMachine(u, true));
    p := Grow(p, s, g, SPatchMachine(u, true));
    PlainlyCalm(Last(p), g, SVanishMachine(u));
    p := Grow(p, s, g, SVanishMachine(u));
    assert MachineRunAt(p, u, 0, 1, 2, 3);
  }

  /** A turn of the machine controller: the run under way, if any, ends, and a whole
      run follows. */
  lemma MachineTurn(s: Sys, g: Goal, u: nat) returns (p: Path)
    requires Inv(s)
    ensures From(p, s, g) && RunsMachine(p, 0, |p.steps|, u)
  {
    hide Inv, Calm, Next, RunsMachine;
    var q := MachineFlushes(s, g, u);
    var r := MachineRunTurn(Last(q), g, u);
    p := Join(q, r, s, g);
    MachineInStretch(r, p, |q.steps|, 0, |r.steps|, u);
    MachineWider(p, |q.steps|, |p.steps|, 0, |p.steps|, u);
  }

  lemma DeploymentUpActed(s: Sys, k: Key, rep: F.Replies)
    requires k in s.fruns && s.fruns[k].FLoaded? && s.fruns[k].d.deletion.None?
    ensures var t := ActDeploymentUp(s, k, rep, false);
      k in t.fruns && t.fruns[k].FActed? && t.kube.deployments == s.kube.deployments
  {
    hide F.RunUp;
  }

  lemma DeploymentGuardActed(s: Sys, k: Key, rep: F.Replies)
    requires k in s.fruns && s.fruns[k].FLoaded?
    ensures var t := ActDeploymentGuard(s, k, rep);
      k in t.fruns && !t.fruns[k].FLoaded? && t.kube.deployments == s.kube.deployments
  {
    hide F.Guard, F.Begin, MachinesOf;
  }

  lemma DeploymentReclaimActed(s: Sys, k: Key, rep: F.Replies)
    requires k in s.fruns && s.fruns[k].FCleared?
    ensures var t := ActDeploymentReclaim(s, k, rep);
      (k in t.fruns ==> t.fruns[k].FActed?) && t.kube.deployments == s.kube.deployments
  {
    hide F.Reclaim, F.Begin;
  }

  lemma ActedOrGone(s: Sys, k: Key, rep: F.Replies)
    requires Inv(s)
    ensures var t := ActDeployment(s, k, rep, false);
      && (k in t.fruns ==> k in s.fruns && k in t.kube.deployments && !t.fruns[k].FLoaded?)
      && (k in t.fruns && !s.fruns[k].FLoaded? ==> t.fruns[k].FActed?)
  {
    hide ActDeploymentUp, ActDeploymentGuard, ActDeploymentReclaim;
    if k in s.fruns {
      DS.RunFacts(s, k);
      hide Inv, DeploymentRunOk;
      if s.fruns[k].FCleared? {
        DeploymentReclaimActed(s, k, rep);
      } else if s.fruns[k].FLoaded? {
        if s.fruns[k].d.deletion.None? { DeploymentUpActed(s, k, rep); } else { DeploymentGuardActed(s, k, rep); }
      }
    }
  }

  lemma FlushDeployment(s: Sys, k: Key, r: F.Replies, r': F.Replies)
    requires Inv(s) && Inv(ActDeployment(s, k, r, false))
    ensures var t := ActDeployment(ActDeployment(s, k, r, false), k, r', false); k !in PatchDeployment(t, k, true).fruns
  {
    hide Inv, ActDeployment, MergeDeployment;
    var s1 := ActDeployment(s, k, r, false);
    ActedOrGone(s, k, r);
    ActedOrGone(s1, k, r');
  }

  lemma DeploymentActs(p: Path, s: Sys, g: Goal) returns (q: Path)
    requires From(p, s, g)
    ensures From(q, s, g) && |q.steps| == |p.steps| + 1 && q.steps[|p.steps|].SActDeployment?
        && q.steps[|p.steps|].k == g.fk
    ensures q.steps[..|p.steps|] == p.steps && q.states[..|p.states|] == p.states
    ensures var step := q.steps[|p.steps|]; !step.paused && Last(q) == ActDeployment(Last(p), g.fk, step.frep, false)
  {
    hide Calm, ActDeployment, Inv, DeploymentReplies;
    CalmDeploymentAct(Last(p), g);
    q := Grow(p, s, g, SActDeployment(g.fk, DeploymentReplies(Last(p), g), false));
  }

  lemma DeploymentFlushes(s: Sys, g: Goal) returns (p: Path)
    requires Inv(s)
    ensures From(p, s, g) && g.fk !in Last(p).fruns
  {
    hide Inv, Calm, Next, ActDeployment, PatchDeployment;
    p := DeploymentActs(Start(s), s, g);
    var q := DeploymentActs(p, s, g);
    FlushDeployment(s, g.fk, p.steps[0].frep, q.steps[1].frep);
    UnfoldsDeployment(Last(q), SPatchDeployment(g.fk, true));
    PlainlyCalm(Last(q), g, SPatchDeployment(g.fk, true));
    p := Grow(q, s, g, SPatchDeployment(g.fk, true));
  }

  lemma DeploymentRunTurn(s: Sys, g: Goal) returns (p: Path)
    requires Inv(s) && g.fk !in s.fruns
    ensures From(p, s, g) && RunsDeployment(p, 0, |p.steps|, g.fk)
  {
    hide Inv, Calm, Next;
    var fk := g.fk;
    PlainlyCalm(s, g, SLoadDeployment(fk));
    p := Grow(Start(s), s, g, SLoadDeployment(fk));
    p := DeploymentActs(p, s, g);
    p := DeploymentActs(p, s, g);
    PlainlyCalm(Last(p), g, SPatchDeployment(fk, true));
    p := Grow(p, s, g, SPatchDeployment(fk, true));
    PlainlyCalm(Last(p), g, SVanishDeployment(fk));
    p := Grow(p, s, g, SVanishDeployment(fk));
    assert DeploymentRunAt(p, fk, 0, 1, 2, 3, 4);
  }

  /** A turn of the deployment controller. */
  lemma DeploymentTurn(s: Sys, g: Goal) returns (p: Path)
    requires Inv(s)
    ensures From(p, s, g) && RunsDeployment(p, 0, |p.steps|, g.fk)
  {
    hide Inv, Calm, Next, RunsDeployment;
    var q := DeploymentFlushes(s, g);
    var r := DeploymentRunTurn(Last(q), g);
    p := Join(q, r, s, g);
    DeploymentInStretch(r, p, |q.steps|, 0, |r.steps|, g.fk);
    DeploymentWider(p, |q.steps|, |p.steps|, 0, |p.steps|, g.fk);
  }

  lemma UpActed(s: Sys, k: Key)
    requires k in s.cruns && s.cruns[k].CLoaded? && k in s.cbooks && s.cruns[k].c.deletion.None?
    ensures var t := ActClusterUp(s, k, CLUSTER_REPLIES, false);
      k in t.cruns && t.cruns[k].CActed? && t.kube.clusters == s.kube.clusters && k in t.cbooks
  {
    hide C.RunUp, UpBook;
  }

  lemma GuardActed(s: Sys, k: Key)
    requires k in s.cruns && s.cruns[k].CLoaded?
    ensures var t := ActClusterGuard(s, k, CLUSTER_REPLIES);
      (k in t.cruns ==> !t.cruns[k].CLoaded?) && t.kube.clusters == s.kube.clusters && t.cbooks == s.cbooks
  {
    hide C.Guard, C.Begin, MachinesOf;
  }

  lemma TeardownActed(s: Sys, k: Key)
    requires k in s.cruns && s.cruns[k].CCleared?
    ensures var t := ActClusterTeardown(s, k, CLUSTER_REPLIES);
      k in t.cruns && t.cruns[k].CActed? && t.kube.clusters == s.kube.clusters && t.cbooks == s.cbooks
  {
    hide C.Teardown, C.Begin;
  }

  lemma ClusterActedOrGone(s: Sys, k: Key)
    requires Inv(s)
    ensures var t := ActCluster(s, k, CLUSTER_REPLIES, false);
      && (k in t.cruns ==> k in t.kube.clusters && k in t.cbooks && !t.cruns[k].CLoaded?)
      && (k in s.cruns && s.cruns[k].CCleared? && k in t.cruns ==> t.cruns[k].CActed?)
      && (k in s.cruns && s.cruns[k].CActed? ==> t == s)
  {
    hide ActClusterUp, ActClusterGuard, ActClusterTeardown;
    if k in s.cruns {
      CS.RunFacts(s, k);
      hide Inv, ClusterRunOk, ClusterBooked, PlainCluster, Gated;
      if s.cruns[k].CCleared? {
        TeardownActed(s, k);
      } else if s.cruns[k].CLoaded? {
        if s.cruns[k].c.deletion.None? { UpActed(s, k); } else { GuardActed(s, k); }
      }
    }
  }

  lemma FlushCluster(s: Sys, k: Key)
    requires Inv(s) && Inv(ActCluster(s, k, CLUSTER_REPLIES, false))
    ensures var t := ActCluster(ActCluster(s, k, CLUSTER_REPLIES, false), k, CLUSTER_REPLIES, false);
      k !in PatchCluster(t, k, true).cruns
  {
    var s1 := ActCluster(s, k, CLUSTER_REPLIES, false);
    ClusterActedOrGone(s, k);
    ClusterActedOrGone(s1, k);
    hide Inv, ActCluster, MergeCluster;
  }

  lemma ClusterActs(p: Path, s: Sys, g: Goal) returns (q: Path)
    requires From(p, s, g)
    ensures From(q, s, g) && q.steps == p.steps + [SActCluster(g.k, CLUSTER_REPLIES, false)]
    ensures q.states == p.states + [ActCluster(Last(p), g.k, CLUSTER_REPLIES, false)]
  {
    hide Calm, ActCluster, Inv;
    CalmClusterAct(Last(p), g);
    q := Grow(p, s, g, SActCluster(g.k, CLUSTER_REPLIES, false));
  }

  lemma ClusterFlushes(s: Sys, g: Goal) returns (p: Path)
    requires Inv(s)
    ensures From(p, s, g) && g.k !in Last(p).cruns
  {
    hide Inv, Calm, Next, ActCluster, PatchCluster;
    p := ClusterActs(Start(s), s, g);
    assert Inv(ActCluster(s, g.k, CLUSTER_REPLIES, false));
    p := ClusterActs(p, s, g);
    FlushCluster(s, g.k);
    UnfoldsCluster(Last(p), SPatchCluster(g.k, true));
    PlainlyCalm(Last(p), g, SPatchCluster(g.k, true));
    p := Grow(p, s, g, SPatchCluster(g.k, true));
  }

  lemma ClusterRunTurn(s: Sys, g: Goal) returns (p: Path)
    requires Inv(s) && g.k !in s.cruns
    ensures From(p, s, g) && RunsCluster(p, 0, |p.steps|, g.k)
  {
    hide Inv, Calm, Next;
    PlainlyCalm(s, g, SLoadCluster(g.k));
    p := Grow(Start(s), s, g, SLoadCluster(g.k));
    p := ClusterActs(p, s, g);
    p := ClusterActs(p, s, g);
    PlainlyCalm(Last(p), g, SPatchCluster(g.k, true));
    p := Grow(p, s, g, SPatchCluster(g.k, true));
    PlainlyCalm(Last(p), g, SVanishCluster(g.k));
    p := Grow(p, s, g, SVanishCluster(g.k));
    assert ClusterRunAt(p, g.k, 0, 1, 2, 3, 4);
  }

  /** A turn of the cluster controller. */
  lemma ClusterTurn(s: Sys, g: Goal) returns (p: Path)
    requires Inv(s)
    ensures From(p, s, g) && RunsCluster(p, 0, |p.steps|, g.k)
  {
    hide Inv, Calm, Next, RunsCluster;
    var q := ClusterFlushes(s, g);
    var r := ClusterRunTurn(Last(q), g);
    p := Join(q, r, s, g);
    ClusterInStretch(r, p, |q.steps|, 0, |r.steps|, g.k);
    ClusterWider(p, |q.steps|, |p.steps|, 0, |p.steps|, g.k);
  }

  // -------------------------------------------------------------------- rounds

  lemma {:induction false} MachineTurns(s: Sys, g: Goal, us: set<nat>) returns (p: Path)
    requires Inv(s)
    ensures From(p, s, g) && forall u | u in us :: RunsMachine(p, 0, |p.steps|, u)
    decreases us
  {
    hide Inv, Calm, Next, RunsMachine;
    if us == {} {
      p := Start(s);
    } else {
      var u :| u in us;
      var q := MachineTurn(s, g, u);
      var r := MachineTurns(Last(q), g, us - {u});
      p := Join(q, r, s, g);
      MachineInStretch(q, p, 0, 0, |q.steps|, u);
      MachineWider(p, 0, |q.steps|, 0, |p.steps|, u);
      forall v | v in us && v != u
        ensures RunsMachine(p, 0, |p.steps|, v)
      {
        MachineInStretch(r, p, |q.steps|, 0, |r.steps|, v);
        MachineWider(p, |q.steps|, |p.steps|, 0, |p.steps|, v);
      }
    }
  }

  /** The stretches of a round in a row: the clock, the machines, the deployment, the
      cluster. */
  lemma RoundOfTurns(p: Path, g: Goal, m: Path, d: Path, c: Path)
    requires IsPath(p) && |p.steps| == 1 + |m.steps| + |d.steps| + |c.steps|
    requires p.steps[0].STick? && p.steps[0].d > 0
    requires Stretch(m, p, 1) && Stretch(d, p, 1 + |m.steps|) && Stretch(c, p, 1 + |m.steps| + |d.steps|)
    requires forall u | u in Members(p.states[0].kube.machines, g.k) :: RunsMachine(m, 0, |m.steps|, u)
    requires RunsDeployment(d, 0, |d.steps|, g.fk) && RunsCluster(c, 0, |c.steps|, g.k)
    ensures Round(p, g, 0, |p.steps|)
  {
    hide Next, Members, RunsMachine, RunsDeployment, RunsCluster, Stretch;
    forall u | u in Members(p.states[0].kube.machines, g.k)
      ensures RunsMachine(p, 0, |p.steps|, u)
    {
      MachineInStretch(m, p, 1, 0, |m.steps|, u);
      MachineWider(p, 1, 1 + |m.steps|, 0, |p.steps|, u);
    }
    var o, o' := 1 + |m.steps|, 1 + |m.steps| + |d.steps|;
    DeploymentInStretch(d, p, o, 0, |d.steps|, g.fk);
    DeploymentWider(p, o, o', 0, |p.steps|, g.fk);
    ClusterInStretch(c, p, o', 0, |c.steps|, g.k);
    ClusterWider(p, o', |p.steps|, 0, |p.steps|, g.k);
    assert p.steps[0].STick? && p.steps[0].d > 0;
  }

  lemma StretchOfStretch(a: Path, b: Path, c: Path, o: nat, o': nat)
    requires Stretch(a, b, o) && Stretch(b, c, o')
    ensures Stretch(a, c, o' + o)
  {
    hide IsPath, Next;
  }

  lemma TickTurn(s: Sys, g: Goal) returns (p: Path)
    requires Inv(s)
    ensures From(p, s, g) && p.steps == [STick(1)] && Last(p).kube.machines == s.kube.machines
  {
    hide Inv, Calm, Next;
    PlainlyCalm(s, g, STick(1));
    MachineFrame(s, STick(1));
    p := Grow(Start(s), s, g, STick(1));
  }

  /** From every state there is a calm round of fair scheduling. */
  lemma OneRound(s: Sys, g: Goal) returns (p: Path)
    requires Inv(s)
    ensures From(p, s, g) && Round(p, g, 0, |p.steps|)
  {
    hide Inv, Calm, Next, Members, RunsMachine, RunsDeployment, RunsCluster, Round;
    var t := TickTurn(s, g);
    var m := MachineTurns(Last(t), g, Members(s.kube.machines, g.k));
    var tm := Join(t, m, s, g);
    var d := DeploymentTurn(Last(tm), g);
    var tmd := Join(tm, d, s, g);
    var c := ClusterTurn(Last(tmd), g);
    p := Join(tmd, c, s, g);
    StretchOfStretch(m, tm, tmd, 1, 0);
    StretchOfStretch(m, tmd, p, 1, 0);
    StretchOfStretch(d, tmd, p, |tm.steps|, 0);
    StretchOfStretch(t, tm, tmd, 0, 0);
    StretchOfStretch(t, tmd, p, 0, 0);
    assert p.steps[0] == t.steps[0];
    RoundOfTurns(p, g, m, d, c);
  }

  function Shifted(cuts: seq<nat>, o: nat): (r: seq<nat>)
    ensures |r| == |cuts| && forall i | 0 <= i < |cuts| :: r[i] == cuts[i] + o
  {
    seq(|cuts|, i requires 0 <= i < |cuts| => cuts[i] + o)
  }

  /** As many rounds in a row as one likes. */
  lemma {:induction false} FairPath(s: Sys, g: Goal, n: nat) returns (p: Path, cuts: seq<nat>)
    requires Inv(s)
    ensures From(p, s, g) && Fair(p, g, cuts) && |cuts| == n + 1
    decreases n
  {
    hide Inv, Calm, Next, Round;
    if n == 0 {
      p, cuts := Start(s), [0];
    } else {
      var q := OneRound(s, g);
      var r, cuts' := FairPath(Last(q), g, n - 1);
      p := Join(q, r, s, g);
      cuts := [0] + Shifted(cuts', |q.steps|);
      RoundInStretch(q, p, g, 0, 0, |q.steps|);
      forall i | 0 <= i < |cuts| - 1
        ensures cuts[i] <= cuts[i + 1] && Round(p, g, cuts[i], cuts[i + 1])
      {
        if i > 0 {
          RoundInStretch(r, p, g, |q.steps|, cuts'[i - 1], cuts'[i]);
        }
      }
    }
  }

  /** So a deletion that is under way can be brought to its end, whatever runs are
      under way: there is a calm and fair path, and it leaves nothing. */
  lemma DeletionCanEnd(s: Sys, g: Goal) returns (p: Path, cuts: seq<nat>)
    requires Reached(s) && Underway(s, g)
    ensures IsPath(p) && p.states[0] == s && Fair(p, g, cuts) && |cuts| > Work(s, g)
    ensures forall i | 0 <= i < |p.steps| :: Calm(p.states[i], g, p.steps[i])
    ensures Gone(p.states[cuts[|cuts| - 1]], g)
  {
    hide Inv, Calm, Next, Round, Underway, Reached, Work, Gone;
    R.ReachedInv(s);
    p, cuts := FairPath(s, g, Work(s, g));
    WholeDeletion(p, g, cuts);
  }

  lemma RoundFromEarlier(p: Path, g: Goal, lo: nat, hi: nat)
    requires IsPath(p) && lo <= hi <= |p.steps| && Round(p, g, lo, hi)
    requires p.states[lo].kube.machines == p.states[0].kube.machines
    requires g.fk in p.states[hi].kube.deployments ==> g.fk in p.states[lo].kube.deployments
    requires g.k in p.states[hi].kube.clusters ==> g.k in p.states[lo].kube.clusters
    ensures Round(p, g, 0, hi)
  {
    hide Next, RunsMachine, RunsDeployment, RunsCluster, Members;
    var s, t := p.states[lo], p.states[hi];
    forall u | u in Members(s.kube.machines, g.k) && u in Members(t.kube.machines, g.k)
      ensures RunsMachine(p, 0, hi, u)
    {
      MachineWider(p, lo, hi, 0, hi, u);
    }
    if g.fk in t.kube.deployments { DeploymentWider(p, lo, hi, 0, hi, g.fk); }
    if g.k in t.kube.clusters { ClusterWider(p, lo, hi, 0, hi, g.k); }
  }

  /** And so can one that is under way after one more step that removes nothing. */
  lemma EndsAfter(s: Sys, g: Goal, step: Step) returns (p: Path, cuts: seq<nat>)
    requires Inv(s) && Calm(s, g, step) && Underway(Next(s, step), g)
    requires var t := Next(s, step);
      t.kube.machines == s.kube.machines && g.fk in t.kube.deployments && g.k in t.kube.clusters
    ensures IsPath(p) && p.states[0] == s && Fair(p, g, cuts) && Gone(p.states[cuts[|cuts| - 1]], g)
    ensures forall i | 0 <= i < |p.steps| :: Calm(p.states[i], g, p.steps[i])
  {
    hide Inv, Calm, Next, Round, Underway, Work, Gone;
    var t := Next(s, step);
    R.NextInv(s, step);
    var q := Grow(Start(s), s, g, step);
    var r, cuts' := FairPath(t, g, Work(t, g) + 1);
    RoundsEnd(r, g, cuts');
    p := Join(q, r, s, g);
    cuts := [0] + Shifted(cuts'[1..], 1);
    assert p.states[1] == t && p.states[0] == s;
    forall i | 0 <= i < |cuts| - 1
      ensures cuts[i] <= cuts[i + 1] && Round(p, g, cuts[i], cuts[i + 1])
    {
      RoundInStretch(r, p, g, 1, cuts'[i], cuts'[i + 1]);
      if i == 0 { RoundFromEarlier(p, g, 1, cuts[1]); }
    }
    assert p.states[cuts[|cuts| - 1]] == r.states[cuts'[|cuts'| - 1]];
  }
}

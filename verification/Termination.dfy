/** Whole-deletion termination: under fair scheduling the winding down ends with
    every object gone. */
module Termination {
  import opened Names
  import opened Store
  import opened Metal
  import opened Protocol
  import opened Invariant
  import opened Liveness
  import opened ControllerRuns
  import R = Reachable
  import CS = ClusterSteps
  import DS = DeploymentSteps
  import F = FirewallSpec

  // -------------------------------------------------------------------- rounds

  ghost predicate RunsMachine(p: Path, lo: nat, hi: nat, u: nat)
    requires IsPath(p)
  {
    exists a: nat, b: nat, c: nat, d: nat :: MachineRunAt(p, u, a, b, c, d) && lo <= a <= d < hi
  }

  ghost predicate RunsDeployment(p: Path, lo: nat, hi: nat, fk: Key)
    requires IsPath(p)
  {
    exists a: nat, b: nat, b': nat, c: nat, d: nat :: DeploymentRunAt(p, fk, a, b, b', c, d) && lo <= a <= d < hi
  }

  ghost predicate RunsCluster(p: Path, lo: nat, hi: nat, k: Key)
    requires IsPath(p)
  {
    exists a: nat, b: nat, b': nat, c: nat, d: nat :: ClusterRunAt(p, k, a, b, b', c, d) && lo <= a <= d < hi
  }

  /** Fair scheduling between two points of a path: every object of ours that does
      not go in the meantime gets a whole run of its controller, and time goes on. */
  ghost predicate Round(p: Path, g: Goal, lo: nat, hi: nat)
    requires IsPath(p) && lo <= hi <= |p.steps|
  {
    var s, t := p.states[lo], p.states[hi];
    && (forall u | u in Members(s.kube.machines, g.k) && u in Members(t.kube.machines, g.k) ::
        RunsMachine(p, lo, hi, u))
    && (g.fk in s.kube.deployments && g.fk in t.kube.deployments ==> RunsDeployment(p, lo, hi, g.fk))
    && (g.k in s.kube.clusters && g.k in t.kube.clusters ==> RunsCluster(p, lo, hi, g.k))
    && (exists i :: lo <= i < hi && p.steps[i].STick? && p.steps[i].d > 0)
  }

  lemma TickWorks(p: Path, g: Goal, lo: nat, i: nat)
    requires CalmPath(p, g) && lo <= i < |p.steps| && p.states[lo].now < g.deadline
    requires p.steps[i].STick? && p.steps[i].d > 0
    ensures !Unchanged(p.states[lo], p.states[i + 1], g)
  {
    hide Next, Calm, Winding, Members, LadenMembers, Stage;
    UnchangedBefore(p, g, lo, i, i + 1);
    PathNext(p, i);
    TickPasses(p.states[i], p.steps[i]);
    hide CalmPath, IsPath;
  }

  lemma TickPasses(s: Sys, step: Step)
    requires step.STick? && step.d > 0
    ensures Next(s, step).now > s.now
  {}

  /** A deployment that has not gone yet has its cluster. */
  lemma ClusterLast(s: Sys, g: Goal)
    requires Winding(s, g) && !Gone(s, g) && Members(s.kube.machines, g.k) == {}
    ensures g.k in s.kube.clusters
  {
    hide Inv, Members;
  }

  lemma ShowsAtTheEnd(p: Path, g: Goal, lo: nat, i: nat, hi: nat)
    requires CalmPath(p, g) && lo <= i <= hi <= |p.steps| && !Unchanged(p.states[lo], p.states[i], g)
    ensures !Unchanged(p.states[lo], p.states[hi], g)
  {
    UnchangedBefore(p, g, lo, i, hi);
    hide CalmPath, Unchanged;
  }

  lemma MachineRound(p: Path, g: Goal, lo: nat, hi: nat, u: nat)
    requires CalmPath(p, g) && lo <= hi <= |p.steps| && Round(p, g, lo, hi)
    requires p.states[lo].now >= g.deadline && u in Members(p.states[lo].kube.machines, g.k)
    ensures !Unchanged(p.states[lo], p.states[hi], g)
  {
    hide Winding, Calm, Next, Members, LadenMembers, MachineRunAt, RunsDeployment, RunsCluster, Stage;
    if u in Members(p.states[hi].kube.machines, g.k) {
      assert RunsMachine(p, lo, hi, u);
      var a: nat, b: nat, c: nat, d: nat :| MachineRunAt(p, u, a, b, c, d) && lo <= a <= d < hi;
      MachineRunWorks(p, g, lo, u, a, b, c, d);
      ShowsAtTheEnd(p, g, lo, d + 1, hi);
    }
  }

  lemma DeploymentRound(p: Path, g: Goal, lo: nat, hi: nat)
    requires CalmPath(p, g) && lo <= hi <= |p.steps| && Round(p, g, lo, hi)
    requires Members(p.states[lo].kube.machines, g.k) == {} && Stage(p.states[lo].kube.deployments, g.fk) == 1
    ensures !Unchanged(p.states[lo], p.states[hi], g)
  {
    hide Winding, Calm, Next, Members, LadenMembers, DeploymentRunAt, RunsMachine, RunsCluster;
    if g.fk in p.states[hi].kube.deployments {
      var a: nat, b: nat, b': nat, c: nat, d: nat :| DeploymentRunAt(p, g.fk, a, b, b', c, d) && lo <= a <= d < hi;
      DeploymentRunWorks(p, g, lo, a, b, b', c, d);
      ShowsAtTheEnd(p, g, lo, d + 1, hi);
    }
  }

  lemma ClusterRound(p: Path, g: Goal, lo: nat, hi: nat)
    requires CalmPath(p, g) && lo <= hi <= |p.steps| && Round(p, g, lo, hi) && g.k in p.states[lo].kube.clusters
    requires Members(p.states[lo].kube.machines, g.k) == {} && Stage(p.states[lo].kube.deployments, g.fk) != 1
    ensures !Unchanged(p.states[lo], p.states[hi], g)
  {
    hide Winding, Calm, Next, Members, LadenMembers, ClusterRunAt, RunsMachine, RunsDeployment, Stage;
    if g.k in p.states[hi].kube.clusters {
      var a: nat, b: nat, b': nat, c: nat, d: nat :| ClusterRunAt(p, g.k, a, b, b', c, d) && lo <= a <= d < hi;
      ClusterRunWorks(p, g, lo, a, b, b', c, d);
      ShowsAtTheEnd(p, g, lo, d + 1, hi);
    }
  }

  /** Every round makes the work smaller, until everything is gone for good. */
  lemma RoundWorks(p: Path, g: Goal, lo: nat, hi: nat)
    requires CalmPath(p, g) && lo <= hi <= |p.steps| && Round(p, g, lo, hi)
    ensures var s, t := p.states[lo], p.states[hi]; if Gone(s, g) then Gone(t, g) else Work(t, g) < Work(s, g)
  {
    hide Winding, Calm, Next, Members, LadenMembers, Stage, Work;
    var s, t := p.states[lo], p.states[hi];
    WindsOn(p, g, 0, lo);
    WindsOn(p, g, lo, hi);
    if Gone(s, g) {
      GoneByShrinking(s, t, g);
    } else {
      ShrinkingWork(s, t, g);
      hide Unchanged, Shrinks, RunsMachine, RunsDeployment, RunsCluster;
      if s.now < g.deadline {
        var i: nat :| lo <= i < hi && p.steps[i].STick? && p.steps[i].d > 0;
        TickWorks(p, g, lo, i);
        ShowsAtTheEnd(p, g, lo, i + 1, hi);
      } else if Members(s.kube.machines, g.k) != {} {
        var u :| u in Members(s.kube.machines, g.k);
        MachineRound(p, g, lo, hi, u);
      } else if Stage(s.kube.deployments, g.fk) == 1 {
        DeploymentRound(p, g, lo, hi);
      } else {
        ClusterLast(s, g);
        ClusterRound(p, g, lo, hi);
      }
    }
  }

  lemma GoneByShrinking(s: Sys, t: Sys, g: Goal)
    requires Shrinks(s, t, g) && Gone(s, g)
    ensures Gone(t, g)
  {
    hide Members, LadenMembers;
  }

  // --------------------------------------------------------------- termination

  /** A path cut into rounds. */
  ghost predicate Fair(p: Path, g: Goal, cuts: seq<nat>)
    requires IsPath(p)
  {
    && |cuts| > 0 && cuts[0] == 0 && (forall n | 0 <= n < |cuts| :: cuts[n] <= |p.steps|)
    && forall n | 0 <= n < |cuts| - 1 :: cuts[n] <= cuts[n + 1] && Round(p, g, cuts[n], cuts[n + 1])
  }

  lemma {:induction false} AfterRounds(p: Path, g: Goal, cuts: seq<nat>, n: nat)
    requires CalmPath(p, g) && Fair(p, g, cuts) && n < |cuts|
    ensures Gone(p.states[cuts[n]], g) || Work(p.states[cuts[n]], g) + n <= Work(p.states[0], g)
  {
    hide Winding, Calm, Next, Work, Gone, Round;
    if n > 0 {
      AfterRounds(p, g, cuts, n - 1);
      assert cuts[n - 1] <= cuts[n] && Round(p, g, cuts[n - 1], cuts[n]) by {
        var m := n - 1;
        assert cuts[m] <= cuts[m + 1] && Round(p, g, cuts[m], cuts[m + 1]);
      }
      RoundWorks(p, g, cuts[n - 1], cuts[n]);
    }
  }

  lemma NoWork(s: Sys, g: Goal)
    requires Work(s, g) == 0
    ensures Gone(s, g)
  {
    hide LadenMembers;
  }

  /** Each machine weighs at most two, also with an allocation that a run loaded before
      the request may still make; deployment and cluster weigh three together. */
  lemma WorkBound(s: Sys, g: Goal)
    ensures Work(s, g) <= 2 * |Members(s.kube.machines, g.k)| + TimeLeft(s.now, g.deadline) + 3
  {
    SubsetSize(LadenMembers(s, g), Members(s.kube.machines, g.k));
  }

  /** What can be seen when the deletion is requested: cluster and machines are marked,
      the cluster names its deployment, its node network is recorded and can be freed
      (or has just been), the deployment is its own, or nobody's and the cluster still
      waits for it, and the template is there. */
  predicate Requested(s: Sys, g: Goal) {
    && Leaving(s.kube.machines, g) && g.k in s.kube.clusters
    && var c := s.kube.clusters[g.k];
       && ClusterLeaving(c, g) && c.netId.Some?
       && (NetworkFreeable(c, s.metal) || (g.k in s.cruns && Torn(s.cruns[g.k])))
       && (g.fk in s.kube.deployments ==>
             && F.TemplateKey(g.fk, s.kube.deployments[g.fk]) in s.kube.templates
             && (s.kube.deployments[g.fk].owner == Some(g.k)
                 || (s.kube.deployments[g.fk].owner.None? && c.finalizer && !PastGuard(g.k, s.cruns))))
  }

  predicate PastGuard(k: Key, runs: map<Key, ClusterRun>) {
    k in runs && (runs[k].CCleared? || Torn(runs[k]))
  }

  /** The deletion is under way from that moment on, whatever runs have been loaded
      before the request. */
  lemma RequestedIsUnderway(s: Sys, g: Goal)
    requires Reached(s) && Requested(s, g)
    ensures Underway(s, g)
  {
    R.ReachedInv(s);
    RequestedCluster(s, g);
    RequestedDeployment(s, g);
    hide Inv, Reached, Leaving, ClusterState, DeploymentState;
  }

  lemma RequestedCluster(s: Sys, g: Goal)
    requires Inv(s) && Requested(s, g)
    ensures ClusterState(s.kube.clusters, s.cruns, g.fk !in s.kube.deployments, s.metal, g)
  {
    if g.fk in s.kube.deployments { DS.OwnerFacts(s, g.fk); }
    if g.k in s.cruns { CS.RunFacts(s, g.k); }
    hide Inv, Leaving, PlainCluster, Gated, ClusterBooked, NoFirewallsOf;
    assert g.fk in s.kube.deployments && s.kube.deployments[g.fk].owner == Some(g.k) ==>
      !Deserted(g.k, s.kube.machines, s.kube.deployments);
    hide Deserted;
  }

  lemma RequestedDeployment(s: Sys, g: Goal)
    requires Inv(s) && Requested(s, g)
    ensures DeploymentState(s, g)
  {
    if g.fk in s.kube.deployments { DS.OwnerFacts(s, g.fk); }
    hide Inv, Leaving, NoFirewallsOf, Unheld, NetworkFreeable, Torn;
  }

  lemma UnderwayWinds(s: Sys, g: Goal)
    requires Reached(s) && Underway(s, g)
    ensures Winding(s, g)
  {
    R.ReachedInv(s);
    hide Inv, Reached;
  }

  lemma RoundsEnd(p: Path, g: Goal, cuts: seq<nat>)
    requires CalmPath(p, g) && Fair(p, g, cuts) && |cuts| > Work(p.states[0], g)
    ensures Gone(p.states[cuts[|cuts| - 1]], g)
  {
    hide Calm, Next, Winding, Gone, Work, Round;
    AfterRounds(p, g, cuts, |cuts| - 1);
    if Work(p.states[cuts[|cuts| - 1]], g) == 0 {
      NoWork(p.states[cuts[|cuts| - 1]], g);
    }
  }

  /** Whole-deletion termination. From whatever state the protocol has reached, also
      with runs under way that have read their object before the request: once cluster
      and machines are marked, with fair scheduling and without provider errors and lost
      patches, as many rounds as the work counts remove every machine object, the
      firewall deployment and the cluster, however their runs interleave. */
  lemma WholeDeletion(p: Path, g: Goal, cuts: seq<nat>)
    requires IsPath(p) && Reached(p.states[0]) && Underway(p.states[0], g)
    requires forall i | 0 <= i < |p.steps| :: Calm(p.states[i], g, p.steps[i])
    requires Fair(p, g, cuts) && |cuts| > Work(p.states[0], g)
    ensures Gone(p.states[cuts[|cuts| - 1]], g)
  {
    hide Calm, Next, Reached, Underway, Winding, Gone, Work, Round;
    UnderwayWinds(p.states[0], g);
    RoundsEnd(p, g, cuts);
  }
}

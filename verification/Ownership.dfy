/** Who owns the machine that the machine controller frees. */
module Ownership {
  import opened Names
  import opened Store
  import opened Metal
  import opened Protocol
  import opened Invariant
  import opened StepFrames
  import R = Reachable
  import MS = MachineSteps
  import DS = DeploymentSteps
  import H = History
  import M = MachineSpec
  import F = FirewallSpec

  type Machines = map<nat, Machine>
  type Runs = map<nat, MachineRun>
  type Hosts = map<string, Host>

  /** The object records the id, or a patch under way will. */
  predicate Claims(u: nat, id: string, ms: Machines, runs: Runs) {
    u in ms && (Records(ms[u], id) || id in Pending(u, runs))
  }

  /** No two objects claim one id, and a claimed machine that is live is the one
      allocated for the object. */
  ghost predicate Owned(ms: Machines, runs: Runs, hs: Hosts) {
    && (forall u, v, id | Claims(u, id, ms, runs) && Claims(v, id, ms, runs) :: u == v)
    && (forall u, id | Claims(u, id, ms, runs) && id in hs :: hs[id].origin == ByMachine(u))
  }

  /** The step hands out no id that an object still claims. */
  ghost predicate NoRecycling(s: Sys, step: Step) {
    forall id, u | id in Next(s, step).metal.hosts && id !in s.metal.hosts :: !Claims(u, id, s.kube.machines, s.mruns)
  }

  // ---------------------------------------------------------- preservation

  ghost predicate FewerClaims(ms: Machines, runs: Runs, ms': Machines, runs': Runs) {
    forall u, id :: Claims(u, id, ms', runs') ==> Claims(u, id, ms, runs)
  }

  /** Hosts that are new are claimed by nobody. */
  ghost predicate Unclaimed(ms: Machines, runs: Runs, hs: Hosts, hs': Hosts) {
    forall id | id in hs' ::
      (id in hs && hs'[id].origin == hs[id].origin) || (forall u :: !Claims(u, id, ms, runs))
  }

  lemma OwnedShrinks(ms: Machines, runs: Runs, hs: Hosts, ms': Machines, runs': Runs, hs': Hosts)
    requires Owned(ms, runs, hs) && FewerClaims(ms, runs, ms', runs') && Unclaimed(ms, runs, hs, hs')
    ensures Owned(ms', runs', hs')
  {
    hide Claims;
  }

  lemma OwnedGrows(ms: Machines, runs: Runs, hs: Hosts, runs': Runs, hs': Hosts, u: nat, id: string)
    requires Owned(ms, runs, hs) && Unclaimed(ms, runs, hs, hs' - {id})
    requires forall v :: !Claims(v, id, ms, runs)
    requires forall v, i :: Claims(v, i, ms, runs') ==> Claims(v, i, ms, runs) || (v == u && i == id)
    requires id in hs' ==> hs'[id].origin == ByMachine(u)
    ensures Owned(ms, runs', hs')
  {
    hide Claims;
    assert forall i | i in hs' && i != id :: i in hs' - {id};
  }

  /** Only `u` gains a claim, and only to a host that is new and its own. */
  lemma OwnedByAct(ms: Machines, runs: Runs, hs: Hosts, runs': Runs, hs': Hosts, u: nat, id: string)
    requires Owned(ms, runs, hs) && Unclaimed(ms, runs, hs, hs')
    requires forall v, i | Claims(v, i, ms, runs') && !Claims(v, i, ms, runs) ::
      v == u && i == id && id !in hs && id in hs' && hs'[id].origin == ByMachine(u)
    ensures Owned(ms, runs', hs')
  {
    hide Claims;
    if id in hs' && id !in hs && hs'[id].origin == ByMachine(u) {
      assert Unclaimed(ms, runs, hs, hs' - {id});
      OwnedGrows(ms, runs, hs, runs', hs', u, id);
    } else {
      OwnedShrinks(ms, runs, hs, ms, runs', hs');
    }
  }

  // ----------------------------------------- hosts keep the one they are for

  predicate SameRequests(hs: Hosts, hs': Hosts) {
    forall id | id in hs && id in hs' :: hs'[id].origin == hs[id].origin && hs'[id].project == hs[id].project
  }

  lemma ActMachineOrigins(s: Sys, u: nat, rep: M.Replies, paused: bool)
    ensures SameRequests(s.metal.hosts, ActMachine(s, u, rep, paused).metal.hosts)
  {
    if u in s.mruns && s.mruns[u].MLoaded? && u in s.mbooks {
      hide M.Run, M.PlainPartitions, Settle, M.KeepsID, M.RecordedID;
      var o := M.Run(u, s.mruns[u].m, s.mruns[u].c, s.metal, rep, paused, s.now);
      assert SameRequests(s.metal.hosts, o.metal.hosts);
      hide SameRequests;
    }
  }

  lemma ActDeploymentOrigins(s: Sys, k: Key, rep: F.Replies, paused: bool)
    requires Inv(s)
    ensures SameRequests(s.metal.hosts, ActDeployment(s, k, rep, paused).metal.hosts)
  {
    DS.ActReshapes(s, k, rep, paused);
    hide Inv, ActDeployment;
  }

  lemma FreedOrigins(s: Sys, id: string)
    ensures SameRequests(s.metal.hosts, FreeExternally(s, id).metal.hosts)
  {}

  lemma RecycledOrigins(s: Sys, id: string, h: Host)
    ensures SameRequests(s.metal.hosts, Recycle(s, id, h).metal.hosts)
  {}

  lemma ReportedOrigins(s: Sys, id: string, r: Report)
    ensures SameRequests(s.metal.hosts, ReportHost(s, id, r).metal.hosts)
  {
    if id in s.metal.hosts {
      UpdatedOrigins(s.metal.hosts, id, s.metal.hosts[id].(report := r));
    } else {
      SameHosts(s.metal.hosts);
    }
    hide SameRequests;
  }

  lemma UpdatedOrigins(hs: Hosts, id: string, h: Host)
    requires id in hs && h.origin == hs[id].origin && h.project == hs[id].project
    ensures SameRequests(hs, hs[id := h])
  {}

  lemma SameHosts(hs: Hosts)
    ensures SameRequests(hs, hs)
  {}

  lemma Origins(s: Sys, step: Step)
    requires Inv(s)
    ensures SameRequests(s.metal.hosts, Next(s, step).metal.hosts)
  {
    hide Inv, Next, ActMachine, ActDeployment, FreeExternally, Recycle, ReportHost, SameRequests;
    if OnMachines(step) { UnfoldsMachine(s, step); }
    if OnDeployments(step) { UnfoldsDeployment(s, step); }
    if step.SFreeExternally? || step.SRecycle? || step.SReportHost? { UnfoldsHost(s, step); }
    if step.SActMachine? {
      ActMachineOrigins(s, step.u, step.mrep, step.paused);
    } else if step.SActDeployment? {
      ActDeploymentOrigins(s, step.k, step.frep, step.paused);
    } else if step.SFreeExternally? {
      FreedOrigins(s, step.id);
    } else if step.SRecycle? {
      RecycledOrigins(s, step.id, step.host);
    } else if step.SReportHost? {
      ReportedOrigins(s, step.id, step.report);
    } else {
      HostFrame(s, step);
      SameHostsOrigins(s.metal.hosts);
    }
  }

  lemma SameHostsOrigins(hs: Hosts)
    ensures SameRequests(hs, hs)
  {}

  lemma NewHostsUnclaimed(s: Sys, step: Step)
    requires Inv(s) && NoRecycling(s, step)
    ensures Unclaimed(s.kube.machines, s.mruns, s.metal.hosts, Next(s, step).metal.hosts)
  {
    Origins(s, step);
    hide Inv, Next, Claims;
  }

  lemma ActHostsUnclaimed(s: Sys, u: nat, rep: M.Replies, paused: bool)
    requires Inv(s) && NoRecycling(s, SActMachine(u, rep, paused))
    ensures Unclaimed(s.kube.machines, s.mruns, s.metal.hosts, ActMachine(s, u, rep, paused).metal.hosts)
  {
    hide Inv, ActMachine, NoRecycling, Unclaimed;
    NewHostsUnclaimed(s, SActMachine(u, rep, paused));
  }

  // -------------------------------------------------- claims, step by step

  lemma RunPending(s: Sys, u: nat, m: Machine, o: M.Outcome, v: nat, id: string)
    requires u in s.mbooks && Claims(v, id, s.kube.machines, RecordRun(s, u, m, o).mruns)
    ensures Claims(v, id, s.kube.machines, s.mruns)
         || (v == u && id in o.metal.hosts && id !in s.metal.hosts && m.providerID == "" && o.obj.providerID != "")
  {
    hide Settle, Records;
  }

  lemma ActClaims(s: Sys, u: nat, rep: M.Replies, paused: bool, v: nat, id: string)
    requires Inv(s)
    requires Claims(v, id, s.kube.machines, ActMachine(s, u, rep, paused).mruns)
    ensures Claims(v, id, s.kube.machines, s.mruns)
         || (v == u && !rep.alloc.Denied? && id == rep.alloc.id && id !in s.metal.hosts
             && id in ActMachine(s, u, rep, paused).metal.hosts
             && ActMachine(s, u, rep, paused).metal.hosts[id].origin == ByMachine(u))
  {
    if u in s.mruns && s.mruns[u].MLoaded? && u in s.mbooks {
      MS.RunStarts(s, u);
      var m, c := s.mruns[u].m, s.mruns[u].c;
      RunPending(s, u, m, M.Run(u, m, c, s.metal, rep, paused, s.now), v, id);
      hide Inv, M.Run, M.PlainPartitions, Claims, RecordRun, M.KeepsID, M.RecordedID;
    }
  }

  lemma PatchClaims(s: Sys, u: nat, applied: bool)
    requires Inv(s)
    ensures var t := PatchMachine(s, u, applied); FewerClaims(s.kube.machines, s.mruns, t.kube.machines, t.mruns)
  {
    if u in s.mruns && s.mruns[u].MActed? {
      MS.RunFacts(s, u);
      MS.Merged(s.kube.machines[u], s.mruns[u].before, s.mruns[u].after);
      hide Inv, MergeMachine, Released, ClusterSeen, DecodeProviderID, FewerClaims;
      if applied {
        PatchedClaims(u, s.kube.machines, s.mruns,
            MergeMachine(s.kube.machines[u], s.mruns[u].before, s.mruns[u].after));
      } else {
        EndedClaims(u, s.kube.machines, s.mruns);
      }
    }
  }

  lemma PatchedClaims(u: nat, ms: Machines, runs: Runs, m: Machine)
    requires u in ms && (forall id | Records(m, id) :: Records(ms[u], id) || id in Pending(u, runs))
    ensures FewerClaims(ms, runs, ms[u := m], runs - {u})
  {
    hide Records;
  }

  lemma EndedClaims(u: nat, ms: Machines, runs: Runs)
    ensures FewerClaims(ms, runs, ms, runs - {u})
  {
    hide Records;
  }

  lemma NewMachineClaims(s: Sys, u: nat, m: Machine)
    requires Inv(s)
    ensures var t := CreateMachine(s, u, m); FewerClaims(s.kube.machines, s.mruns, t.kube.machines, t.mruns)
  {
    if u !in s.mbooks { R.NewUid(s, u); }
    hide Inv, DecodeProviderID;
  }

  lemma ObjectClaims(s: Sys, step: Step)
    requires Inv(s)
    requires step.SLoadMachine? || step.SVanishMachine? || step.SCreateMachine? || step.SDeleteMachine?
        || step.SSetSecret?
    ensures var t := Next(s, step); FewerClaims(s.kube.machines, s.mruns, t.kube.machines, t.mruns)
  {
    hide Inv, DecodeProviderID, CreateMachine;
    if step.SCreateMachine? {
      NewMachineClaims(s, step.u, step.machine);
      hide FewerClaims;
    }
  }

  // -------------------------------------------------------------- every step

  lemma ActOwned(s: Sys, u: nat, rep: M.Replies, paused: bool)
    requires Inv(s) && Owned(s.kube.machines, s.mruns, s.metal.hosts) && NoRecycling(s, SActMachine(u, rep, paused))
    ensures var t := ActMachine(s, u, rep, paused); Owned(s.kube.machines, t.mruns, t.metal.hosts)
  {
    var t, id := ActMachine(s, u, rep, paused), if rep.alloc.Denied? then "" else rep.alloc.id;
    hide Inv, ActMachine, Claims, Owned, NoRecycling, Unclaimed, Next;
    ActHostsUnclaimed(s, u, rep, paused);
    forall v, i | Claims(v, i, s.kube.machines, t.mruns) && !Claims(v, i, s.kube.machines, s.mruns)
      ensures v == u && i == id && id !in s.metal.hosts && id in t.metal.hosts
          && t.metal.hosts[id].origin == ByMachine(u)
    {
      ActClaims(s, u, rep, paused, v, i);
    }
    OwnedByAct(s.kube.machines, s.mruns, s.metal.hosts, t.mruns, t.metal.hosts, u, id);
  }

  lemma NextOwned(s: Sys, step: Step)
    requires Inv(s) && Owned(s.kube.machines, s.mruns, s.metal.hosts) && NoRecycling(s, step)
    ensures var t := Next(s, step); Owned(t.kube.machines, t.mruns, t.metal.hosts)
  {
    var t := Next(s, step);
    if step.SActMachine? {
      ActOwned(s, step.u, step.mrep, step.paused);
    } else {
      NewHostsUnclaimed(s, step);
      StepClaims(s, step);
      hide Inv, Claims, Next, Owned;
      OwnedShrinks(s.kube.machines, s.mruns, s.metal.hosts, t.kube.machines, t.mruns, t.metal.hosts);
    }
  }

  lemma StepClaims(s: Sys, step: Step)
    requires Inv(s) && !step.SActMachine?
    ensures var t := Next(s, step); FewerClaims(s.kube.machines, s.mruns, t.kube.machines, t.mruns)
  {
    if step.SPatchMachine? {
      PatchClaims(s, step.u, step.applied);
    } else if OnMachines(step) {
      ObjectClaims(s, step);
    } else {
      MachineFrame(s, step);
    }
    hide Inv, Next, Claims, FewerClaims;
  }

  // ------------------------------------------------------------ free safety

  ghost predicate IsRunWithoutRecycling(states: seq<Sys>, steps: seq<Step>) {
    IsRun(states, steps) && forall i | 0 <= i < |steps| :: NoRecycling(states[i], steps[i])
  }

  ghost predicate ReachedWithoutRecycling(s: Sys) {
    exists states: seq<Sys>, steps: seq<Step> :: IsRunWithoutRecycling(states, steps) && states[|steps|] == s
  }

  lemma {:induction false} RunOwned(states: seq<Sys>, steps: seq<Step>, i: nat)
    requires IsRunWithoutRecycling(states, steps) && i <= |steps|
    ensures Owned(states[i].kube.machines, states[i].mruns, states[i].metal.hosts)
  {
    hide Next, NoRecycling, Inv;
    if i > 0 {
      hide Init, Owned;
      RunOwned(states, steps, i - 1);
      R.RunInv(states, steps, i - 1);
      NextOwned(states[i - 1], steps[i - 1]);
    }
  }

  /** If no id is handed out while an object still claims it, then at every moment
      the objects' provider ids are pairwise distinct, and each names the machine
      allocated for its object. */
  lemma OwnedAlways(s: Sys)
    requires ReachedWithoutRecycling(s)
    ensures Owned(s.kube.machines, s.mruns, s.metal.hosts) && Reached(s)
  {
    var states, steps :| IsRunWithoutRecycling(states, steps) && states[|steps|] == s;
    RunOwned(states, steps, |steps|);
    assert IsRun(states, steps);
    hide IsRun, Owned;
  }

  /** Whatever the machine controller frees is the machine that the object it runs
      for records, in the project of its cluster, and the object is being deleted. */
  lemma FreesTheRecorded(s: Sys, u: nat, rep: M.Replies, paused: bool, id: string)
    requires Reached(s)
    requires id in s.metal.hosts && id !in ActMachine(s, u, rep, paused).metal.hosts
    ensures
      && u in s.kube.machines && Records(s.kube.machines[u], id)
      && s.kube.machines[u].deletion.Some? && s.kube.machines[u].finalizer
      && s.kube.machines[u].cluster in s.kube.clusters
      && s.metal.hosts[id].project == s.kube.clusters[s.kube.machines[u].cluster].project
  {
    R.ReachedInv(s);
    hide Reached;
    RecordedIsFreed(s, u, rep, paused, id);
  }

  lemma RecordedIsFreed(s: Sys, u: nat, rep: M.Replies, paused: bool, id: string)
    requires Inv(s) && id in s.metal.hosts && id !in ActMachine(s, u, rep, paused).metal.hosts
    ensures u in s.kube.machines && Records(s.kube.machines[u], id)
    ensures s.kube.machines[u].deletion.Some? && s.kube.machines[u].finalizer
    ensures s.kube.machines[u].cluster in s.kube.clusters
         && s.metal.hosts[id].project == s.kube.clusters[s.kube.machines[u].cluster].project
  {
    hide RecordRun, M.Run, M.PlainPartitions, M.RecordedID, Inv;
    MS.RunStarts(s, u);
    RunFrees(u, s.mruns[u].m, s.mruns[u].c, s.metal, rep, paused, s.now, id);
    SameRecordedID(s.mruns[u].m, s.kube.machines[u]);
    hide ActMachine;
  }

  lemma SameRecordedID(m: Machine, m': Machine)
    requires m.providerID == m'.providerID
    ensures M.RecordedID(m) == M.RecordedID(m')
  {}

  lemma RunFrees(u: nat, m: Machine, c: Cluster, metal: Metal, rep: M.Replies, paused: bool, now: Time, id: string)
    requires id in metal.hosts && id !in M.Run(u, m, c, metal, rep, paused, now).metal.hosts
    ensures m.deletion.Some? && m.finalizer && m.providerID != "" && M.RecordedID(m) == id
    ensures metal.hosts[id].project == c.project
  {
    hide DecodeProviderID;
  }

  /** Free safety: without recycling of claimed ids, every machine the machine
      controller frees was allocated for the very object it runs for, and no other
      object records it. */
  lemma FreeSafety(s: Sys, u: nat, rep: M.Replies, paused: bool, id: string)
    requires ReachedWithoutRecycling(s)
    requires id in s.metal.hosts && id !in ActMachine(s, u, rep, paused).metal.hosts
    ensures
      && s.metal.hosts[id].origin == ByMachine(u)
      && (forall v | v in s.kube.machines && Records(s.kube.machines[v], id) :: v == u)
  {
    OwnedAlways(s);
    FreesTheRecorded(s, u, rep, paused, id);
    hide ReachedWithoutRecycling, Reached, ActMachine, Records, Owned;
    RecordedIsOwned(s.kube.machines, s.mruns, s.metal.hosts, u, id);
  }

  lemma RecordedIsOwned(ms: Machines, runs: Runs, hs: Hosts, u: nat, id: string)
    requires Owned(ms, runs, hs) && u in ms && Records(ms[u], id) && id in hs
    ensures hs[id].origin == ByMachine(u)
    ensures forall v | v in ms && Records(ms[v], id) :: v == u
  {
    hide Records;
    assert Claims(u, id, ms, runs);
    forall v | v in ms && Records(ms[v], id)
      ensures v == u
    {
      assert Claims(v, id, ms, runs);
    }
  }

  // ------------------------------------- firewalls, from the search to the frees

  /** No step brings a host under one of these ids. */
  predicate Unrenewed(s: Sys, steps: seq<Step>, ids: set<string>) {
    forall i | 0 <= i < |steps| ::
      forall id | id in ids && id in Exec(s, steps[..i + 1]).metal.hosts :: id in Exec(s, steps[..i]).metal.hosts
  }

  lemma UnrenewedBefore(s: Sys, steps: seq<Step>, ids: set<string>)
    requires steps != [] && Unrenewed(s, steps, ids)
    ensures var before := steps[..|steps| - 1];
      && Unrenewed(s, before, ids)
      && (forall id | id in ids && id in Exec(s, steps).metal.hosts :: id in Exec(s, before).metal.hosts)
  {
    hide Exec;
    var before := steps[..|steps| - 1];
    assert forall i | 0 <= i <= |before| :: before[..i] == steps[..i];
    assert before == steps[..|before|] && steps == steps[..|before| + 1];
  }

  predicate OfDeployment(h: Host, k: Key) {
    h.origin.ByDeployment? && h.origin.deployment == k
  }

  /** A host under one of these ids is the one that was there. */
  lemma {:induction false} FoundStays(s: Sys, steps: seq<Step>, ids: set<string>)
    requires Inv(s) && Unrenewed(s, steps, ids)
    ensures Inv(Exec(s, steps))
    ensures forall id | id in ids && id in Exec(s, steps).metal.hosts ::
      id in s.metal.hosts && Exec(s, steps).metal.hosts[id].origin == s.metal.hosts[id].origin
  {
    hide Inv, Next, Unrenewed;
    if steps != [] {
      var before, step := steps[..|steps| - 1], steps[|steps| - 1];
      UnrenewedBefore(s, steps, ids);
      FoundStays(s, before, ids);
      R.NextInv(Exec(s, before), step);
      Origins(Exec(s, before), step);
    }
  }

  lemma {:induction false} GoneStays(s: Sys, steps: seq<Step>, ids: set<string>, j: nat, id: string)
    requires Unrenewed(s, steps, ids) && j < |steps| && steps[j] == SFreeExternally(id) && id in ids
    ensures id !in Exec(s, steps).metal.hosts
    decreases |steps|
  {
    UnrenewedBefore(s, steps, ids);
    if j < |steps| - 1 {
      hide Next, Unrenewed;
      GoneStays(s, steps[..|steps| - 1], ids, j, id);
    }
  }

  /** Only a run for the deployment brings it a firewall. */
  predicate BringsNone(s: Sys, t: Sys, k: Key) {
    forall id | id in t.metal.hosts && OfDeployment(t.metal.hosts[id], k) :: id in s.metal.hosts
  }

  lemma OnlyOwnRunsAllocate(s: Sys, step: Step, k: Key)
    requires Inv(s) && !(step.SActDeployment? && step.k == k)
    ensures BringsNone(s, Next(s, step), k)
  {
    hide Inv, BringsNone;
    if step.SActDeployment? {
      hide ActDeployment;
      OthersAllocateTheirs(s, step.k, step.frep, step.paused, k);
    } else if step.SActMachine? {
      hide ActMachine;
      MachinesAllocateWorkers(s, step.u, step.mrep, step.paused, k);
    } else if step.SFreeExternally? || step.SRecycle? || step.SReportHost? {
      WorldAllocatesForeign(s, step, k);
      hide Next;
    } else {
      HostFrame(s, step);
      hide Next;
      SameHostsBringNone(s, Next(s, step), k);
    }
  }

  lemma SameHostsBringNone(s: Sys, t: Sys, k: Key)
    requires t.metal.hosts == s.metal.hosts
    ensures BringsNone(s, t, k)
  {}

  lemma OthersAllocateTheirs(s: Sys, d: Key, rep: F.Replies, paused: bool, k: Key)
    requires Inv(s) && d != k
    ensures BringsNone(s, ActDeployment(s, d, rep, paused), k)
  {
    hide Inv, ActDeployment;
    DS.ActReshapes(s, d, rep, paused);
  }

  lemma MachinesAllocateWorkers(s: Sys, u: nat, rep: M.Replies, paused: bool, k: Key)
    ensures BringsNone(s, ActMachine(s, u, rep, paused), k)
  {
    hide M.Run, Settle, M.KeepsID, M.PlainPartitions, M.RecordedID;
  }

  lemma WorldAllocatesForeign(s: Sys, step: Step, k: Key)
    requires step.SFreeExternally? || step.SRecycle? || step.SReportHost?
    ensures BringsNone(s, Next(s, step), k)
  {}

  lemma {:induction false} NoneAdded(s: Sys, steps: seq<Step>, k: Key, id: string)
    requires Inv(s) && forall i | 0 <= i < |steps| :: !(steps[i].SActDeployment? && steps[i].k == k)
    requires id in Exec(s, steps).metal.hosts && OfDeployment(Exec(s, steps).metal.hosts[id], k)
    ensures Inv(Exec(s, steps)) && id in s.metal.hosts && OfDeployment(s.metal.hosts[id], k)
  {
    hide Inv, Next;
    if steps != [] {
      var before, step := steps[..|steps| - 1], steps[|steps| - 1];
      InvAlong(s, before);
      OnlyOwnRunsAllocate(Exec(s, before), step, k);
      Origins(Exec(s, before), step);
      NoneAdded(s, before, k, id);
      R.NextInv(Exec(s, before), step);
    }
  }

  lemma {:induction false} InvAlong(s: Sys, steps: seq<Step>)
    requires Inv(s)
    ensures Inv(Exec(s, steps))
  {
    hide Inv, Next;
    if steps != [] {
      InvAlong(s, steps[..|steps| - 1]);
      R.NextInv(Exec(s, steps[..|steps| - 1]), steps[|steps| - 1]);
    }
  }

  /** A run for the deployment has just searched for its firewalls. */
  predicate Searched(s: Sys, k: Key, order: seq<string>) {
    && k in s.fruns && s.fruns[k].FCleared? && s.fruns[k].c.netId.Some?
    && var r := s.fruns[k];
       Lists(order, Matching(s.metal, r.c.partition, r.c.project, FirewallTags(r.c.netId.value, r.ck, k)))
  }

  /** Each of the ids is freed at some moment, and no other run for the deployment acts. */
  predicate AllFreedAlone(steps: seq<Step>, k: Key, order: seq<string>) {
    && (forall id | id in order :: SFreeExternally(id) in steps)
    && (forall i | 0 <= i < |steps| :: !(steps[i].SActDeployment? && steps[i].k == k))
  }

  lemma ListedAreOwn(s: Sys, k: Key, order: seq<string>, id: string)
    requires Inv(s) && Searched(s, k, order) && id in s.metal.hosts
    ensures id in Elems(order) <==> OfDeployment(s.metal.hosts[id], k)
  {
    DS.RunStarts(s, k);
    var r := s.fruns[k];
    hide Homes, Owners, Held, MachineBooks, ClusterBooks, MachineRuns, ClusterRuns, DeploymentRuns, Gates, Covered,
      Plain;
    DS.SearchIsExact(s, k, r.d, r.ck, r.c, id);
    hide Matching, FirewallTags;
  }

  /** The search and the frees of a deletion may lie apart, and the frees from each
      other, with anything in between. As long as ids that were found are not handed out
      again, whatever answers to one of them at any moment is a firewall of this
      deployment; and once each of them has been freed none of its firewalls is left. */
  lemma SearchedThenFreed(s: Sys, steps: seq<Step>, k: Key, order: seq<string>)
    requires Reached(s) && Searched(s, k, order) && Unrenewed(s, steps, Elems(order))
    ensures forall id | id in order && id in Exec(s, steps).metal.hosts ::
        OfDeployment(Exec(s, steps).metal.hosts[id], k)
    ensures AllFreedAlone(steps, k, order) ==> NoFirewallsOf(k, Exec(s, steps).metal.hosts)
  {
    R.ReachedInv(s);
    hide Inv, Reached, Exec, Unrenewed, Searched, Matching;
    var ids, hs := Elems(order), Exec(s, steps).metal.hosts;
    FoundStays(s, steps, ids);
    forall id | id in order && id in hs
      ensures OfDeployment(hs[id], k)
    {
      assert id in ids;
      ListedAreOwn(s, k, order, id);
    }
    if AllFreedAlone(steps, k, order) {
      forall id | id in hs && hs[id].origin.ByDeployment?
        ensures hs[id].origin.deployment != k
      {
        if OfDeployment(hs[id], k) {
          NoneAdded(s, steps, k, id);
          ListedAreOwn(s, k, order, id);
          var j :| 0 <= j < |steps| && steps[j] == SFreeExternally(id);
          GoneStays(s, steps, ids, j, id);
        }
      }
    }
  }

  /** Without that, one that was freed and went to someone else in between is taken from
      its new owner. */
  lemma RenewedFirewallIsFreed(s: Sys, k: Key, order: seq<string>, id: string, h: Host)
    requires Reached(s) && Searched(s, k, order) && id in order && ForeignHost(h)
    ensures var t := Exec(s, [SFreeExternally(id), SRecycle(id, h)]);
      && id in t.metal.hosts && t.metal.hosts[id] == h && !OfDeployment(h, k)
      && id !in FreeHost(t.metal, id, Freed).hosts
  {
    hide Exec, Next;
    FreedAndRenewed(s, id, h);
  }

  lemma FreedAndRenewed(s: Sys, id: string, h: Host)
    ensures Exec(s, [SFreeExternally(id), SRecycle(id, h)]) == Recycle(FreeExternally(s, id), id, h)
  {
    TwoSteps(s, SFreeExternally(id), SRecycle(id, h));
    hide Exec;
  }

  lemma TwoSteps(s: Sys, a: Step, b: Step)
    ensures Exec(s, [a, b]) == Next(Next(s, a), b)
  {
    hide Next;
    assert [a, b][..1] == [a] && [a][..0] == [];
    assert Exec(s, [a]) == Next(Exec(s, []), a);
  }
}

/** The steps of users and of the world around, and the invariant of every run. */
module Reachable {
  import opened Names
  import opened Store
  import opened Metal
  import opened Protocol
  import opened Invariant
  import opened Frames
  import MS = MachineSteps
  import CS = ClusterSteps
  import DS = DeploymentSteps

  type Runs = map<nat, MachineRun>
  type Books = map<nat, MachineBook>

  // ------------------------------------------------- machine objects change

  /** An edit of a machine object that leaves runs for it valid. */
  predicate Edits(m: Machine, m': Machine) {
    StableMachine(m', m) && (m.deletion.Some? ==> m'.deletion == m.deletion)
  }

  lemma EditedHeld(cs: Clusters, ms: Machines, hs: Hosts, runs: Runs, books: Books, u: nat, m': Machine)
    requires Held(cs, ms, hs, runs, books) && u in ms && Edits(ms[u], m')
    ensures Held(cs, ms[u := m'], hs, runs, books)
  {}

  lemma EditedBooks(ms: Machines, runs: Runs, books: Books, u: nat, m': Machine)
    requires MachineBooks(ms, runs, books) && u in ms && Edits(ms[u], m')
    ensures MachineBooks(ms[u := m'], runs, books)
  {
    forall v | v in books
      ensures Booked(v, books[v], ms[u := m'], runs)
    {
      assert Booked(v, books[v], ms, runs);
    }
  }

  lemma EditedRuns(cs: Clusters, ms: Machines, hs: Hosts, runs: Runs, books: Books, now: Time, u: nat, m': Machine)
    requires MachineRuns(cs, ms, hs, runs, books, now) && u in ms && Edits(ms[u], m')
    ensures MachineRuns(cs, ms[u := m'], hs, runs, books, now)
  {}

  lemma EditMachine(s: Sys, u: nat, m': Machine)
    requires Inv(s) && u in s.kube.machines && Edits(s.kube.machines[u], m')
    ensures Inv(s.(kube := s.kube.(machines := s.kube.machines[u := m'])))
  {
    hide Plain, Owners, Covered, Held, MachineBooks, ClusterBooks, MachineRuns, ClusterRuns, DeploymentRuns, Homes;
    var ms := s.kube.machines;
    EditedHeld(s.kube.clusters, ms, s.metal.hosts, s.mruns, s.mbooks, u, m');
    EditedBooks(ms, s.mruns, s.mbooks, u, m');
    EditedRuns(s.kube.clusters, ms, s.metal.hosts, s.mruns, s.mbooks, s.now, u, m');
    HomesByMachines(s.kube.clusters, ms, ms[u := m'], s.mbooks);
    ClusterRunsByMachines(s.kube.clusters, ms, ms[u := m'], s.kube.deployments, s.cruns);
  }

  lemma AddedHeld(cs: Clusters, ms: Machines, hs: Hosts, runs: Runs, books: Books, u: nat, m: Machine, b: MachineBook)
    requires Held(cs, ms, hs, runs, books) && u !in books && u !in ms
    ensures Held(cs, ms[u := m], hs, runs, books[u := b])
  {}

  lemma AddedBooks(ms: Machines, runs: Runs, books: Books, u: nat, m: Machine)
    requires MachineBooks(ms, runs, books) && u !in runs && m.providerID == ""
    ensures MachineBooks(ms[u := m], runs, books[u := MachineBook(m.cluster, 0, 0, {})])
  {
    forall v | v in books && v != u
      ensures Booked(v, books[v], ms[u := m], runs)
    {
      assert Booked(v, books[v], ms, runs);
    }
  }

  lemma AddedRuns(cs: Clusters, ms: Machines, hs: Hosts, runs: Runs, books: Books, now: Time, u: nat, m: Machine,
                  b: MachineBook)
    requires MachineRuns(cs, ms, hs, runs, books, now) && u !in runs
    ensures MachineRuns(cs, ms[u := m], hs, runs, books[u := b], now)
  {}

  lemma AddedHomes(cs: Clusters, ms: Machines, books: Books, u: nat, m: Machine)
    requires Homes(cs, ms, books) && m.cluster in cs && Staying(cs[m.cluster])
    ensures Homes(cs, ms[u := m], books[u := MachineBook(m.cluster, 0, 0, {})])
  {}

  lemma AddedClusterRuns(cs: Clusters, ms: Machines, ds: Deployments, runs: map<Key, ClusterRun>, u: nat, m: Machine)
    requires ClusterRuns(cs, ms, ds, runs) && m.cluster in cs && cs[m.cluster].deletion.None?
    ensures ClusterRuns(cs, ms[u := m], ds, runs)
  {
    forall k | k != m.cluster && Deserted(k, ms, ds)
      ensures Deserted(k, ms[u := m], ds)
    {}
  }

  lemma NewUid(s: Sys, u: nat)
    requires Inv(s) && u !in s.mbooks
    ensures u !in s.mruns && u !in s.kube.machines
  {
    hide Plain, Owners, Covered, Held, MachineBooks, ClusterBooks, ClusterRuns, DeploymentRuns, Gates;
  }

  lemma CreateMachineInv(s: Sys, u: nat, m: Machine)
    requires Inv(s)
    ensures Inv(CreateMachine(s, u, m))
  {
    hide Plain, Owners, Covered, Held, MachineBooks, ClusterBooks, MachineRuns, ClusterRuns, DeploymentRuns, Homes;
    if && u !in s.mbooks && m.cluster in s.kube.clusters && s.kube.clusters[m.cluster].deletion.None?
       && m.providerID == "" && !m.finalizer && m.deletion.None? && !m.ready && !m.provisioned {
      NewUid(s, u);
      var ms, b := s.kube.machines, MachineBook(m.cluster, 0, 0, {});
      AddedHeld(s.kube.clusters, ms, s.metal.hosts, s.mruns, s.mbooks, u, m, b);
      AddedBooks(ms, s.mruns, s.mbooks, u, m);
      AddedRuns(s.kube.clusters, ms, s.metal.hosts, s.mruns, s.mbooks, s.now, u, m, b);
      AddedHomes(s.kube.clusters, ms, s.mbooks, u, m);
      AddedClusterRuns(s.kube.clusters, ms, s.kube.deployments, s.cruns, u, m);
    }
  }

  // --------------------------------------------------------------- the world

  lemma LaterRuns(cs: Clusters, ms: Machines, hs: Hosts, runs: Runs, books: Books, now: Time, now': Time)
    requires MachineRuns(cs, ms, hs, runs, books, now) && now <= now'
    ensures MachineRuns(cs, ms, hs, runs, books, now')
  {}

  lemma TickInv(s: Sys, d: Time)
    requires Inv(s)
    ensures Inv(Tick(s, d))
  {
    hide Plain, Owners, Covered, Held, MachineBooks, ClusterBooks, MachineRuns, ClusterRuns, DeploymentRuns, Homes,
      Gates;
    if d > 0 {
      LaterRuns(s.kube.clusters, s.kube.machines, s.metal.hosts, s.mruns, s.mbooks, s.now, s.now + d);
    }
  }

  lemma FewerInv(s: Sys, hs': Hosts)
    requires Inv(s) && FewerHosts(s.metal.hosts, hs')
    ensures Inv(s.(metal := s.metal.(hosts := hs')))
  {
    hide Plain, Owners, Covered, Held, MachineBooks, ClusterBooks, MachineRuns, ClusterRuns, DeploymentRuns, Homes,
      Gates;
    ByFewerHosts(s, hs');
  }

  lemma CoveredByForeign(cs: Clusters, ds: Deployments, hs: Hosts, id: string, h: Host)
    requires Covered(cs, ds, hs) && ForeignHost(h)
    ensures Covered(cs, ds, hs[id := h])
  {}

  lemma RecycleInv(s: Sys, id: string, h: Host)
    requires Inv(s)
    ensures Inv(Recycle(s, id, h))
  {
    hide Owners, Covered, Held, MachineBooks, ClusterBooks, MachineRuns, ClusterRuns, DeploymentRuns, Homes, Gates;
    if id !in s.metal.hosts && ForeignHost(h) {
      CoveredByForeign(s.kube.clusters, s.kube.deployments, s.metal.hosts, id, h);
      DS.HeldByOther(s.kube.clusters, s.kube.machines, s.metal.hosts, s.mruns, s.mbooks, id, h);
      MachineRunsByMore(s.kube.clusters, s.kube.machines, s.metal.hosts, id, h, s.mruns, s.mbooks, s.now);
      DeploymentRunsByMore(s.kube.clusters, s.kube.deployments, s.metal.hosts, id, h, s.fruns);
    }
  }

  /** The invariant does not speak of templates. */
  lemma TemplatesInv(s: Sys, templates: map<Key, Template>)
    requires Inv(s)
    ensures Inv(s.(kube := s.kube.(templates := templates)))
  {
    hide Plain, Owners, Covered, Held, MachineBooks, ClusterBooks, MachineRuns, ClusterRuns, DeploymentRuns, Homes,
      Gates;
  }

  // -------------------------------------------------------------- every step

  lemma MachineStepInv(s: Sys, step: Step)
    requires Inv(s)
    requires OnMachines(step)
    ensures Inv(Next(s, step))
  {
    hide Inv, LoadMachine, ActMachine, VanishMachine, CreateMachine;
    match step
    case SLoadMachine(u) => MS.LoadMachineInv(s, u);
    case SActMachine(u, rep, paused) => MS.ActMachineInv(s, u, rep, paused);
    case SPatchMachine(u, applied) =>
      if u in s.mruns && s.mruns[u].MActed? {
        if applied { MS.PatchMachineApplied(s, u); } else { MS.PatchMachineLost(s, u); }
      }
    case SVanishMachine(u) => MS.VanishMachineInv(s, u);
    case SCreateMachine(u, m) => CreateMachineInv(s, u, m);
    case SDeleteMachine(u) =>
      if u in s.kube.machines && s.kube.machines[u].deletion.None? {
        EditMachine(s, u, s.kube.machines[u].(deletion := Some(s.now)));
      }
    case SSetSecret(u, secret) =>
      if u in s.kube.machines {
        EditMachine(s, u, s.kube.machines[u].(secret := Some(secret)));
      }
  }

  lemma ClusterStepInv(s: Sys, step: Step)
    requires Inv(s)
    requires OnClusters(step)
    ensures Inv(Next(s, step))
  {
    hide Inv, LoadCluster, ActCluster, PatchCluster, VanishCluster, CreateCluster, DeleteCluster;
    match step
    case SLoadCluster(k) => CS.LoadClusterInv(s, k);
    case SActCluster(k, rep, paused) => CS.ActClusterInv(s, k, rep, paused);
    case SPatchCluster(k, applied) => CS.PatchClusterInv(s, k, applied);
    case SVanishCluster(k) => CS.VanishClusterInv(s, k);
    case SCreateCluster(k, c) => CS.CreateClusterInv(s, k, c);
    case SDeleteCluster(k) => CS.DeleteClusterInv(s, k);
  }

  lemma DeploymentStepInv(s: Sys, step: Step)
    requires Inv(s)
    requires OnDeployments(step)
    ensures Inv(Next(s, step))
  {
    hide Inv, LoadDeployment, ActDeployment, PatchDeployment, VanishDeployment, CreateDeployment, DeleteDeployment,
      DropRef;
    match step
    case SLoadDeployment(k) => DS.LoadDeploymentInv(s, k);
    case SActDeployment(k, rep, paused) => DS.ActDeploymentInv(s, k, rep, paused);
    case SPatchDeployment(k, applied) => DS.PatchDeploymentInv(s, k, applied);
    case SVanishDeployment(k) => DS.VanishDeploymentInv(s, k);
    case SCreateDeployment(k, d) => DS.CreateDeploymentInv(s, k, d);
    case SDeleteDeployment(k) => DS.DeleteDeploymentInv(s, k);
    case SDropRef(k) => DS.DropRefInv(s, k);
  }

  lemma HostStepInv(s: Sys, step: Step)
    requires Inv(s)
    requires step.SFreeExternally? || step.SRecycle? || step.SReportHost?
    ensures Inv(Next(s, step))
  {
    hide Inv, Recycle, ForeignHost;
    match step
    case SFreeExternally(id) => FewerInv(s, s.metal.hosts - {id});
    case SRecycle(id, h) => RecycleInv(s, id, h);
    case SReportHost(id, r) =>
      if id in s.metal.hosts {
        FewerInv(s, s.metal.hosts[id := s.metal.hosts[id].(report := r)]);
      }
  }

  lemma WorldStepInv(s: Sys, step: Step)
    requires Inv(s)
    requires step.SSetTemplate? || step.SRemoveTemplate? || step.STick?
    ensures Inv(Next(s, step))
  {
    hide Inv, Tick, SetTemplate, RemoveTemplate;
    match step
    case SSetTemplate(_, _) => TemplatesInv(s, Next(s, step).kube.templates);
    case SRemoveTemplate(_) => TemplatesInv(s, Next(s, step).kube.templates);
    case STick(d) => TickInv(s, d);
  }

  lemma NextInv(s: Sys, step: Step)
    requires Inv(s)
    ensures Inv(Next(s, step))
  {
    hide Inv, Next;
    if OnMachines(step) {
      MachineStepInv(s, step);
    } else if OnClusters(step) {
      ClusterStepInv(s, step);
    } else if OnDeployments(step) {
      DeploymentStepInv(s, step);
    } else if step.SFreeExternally? || step.SRecycle? || step.SReportHost? {
      HostStepInv(s, step);
    } else {
      WorldStepInv(s, step);
    }
  }

  lemma {:induction false} RunInv(states: seq<Sys>, steps: seq<Step>, i: nat)
    requires IsRun(states, steps) && i <= |steps|
    ensures Inv(states[i])
  {
    hide Inv, Next, Init;
    if i == 0 {
      InitInv(states[0]);
    } else {
      RunInv(states, steps, i - 1);
      NextInv(states[i - 1], steps[i - 1]);
    }
  }

  /** The invariant holds in every state that is ever reached, whatever the
      interleaving, the replies and the lost patches. */
  lemma ReachedInv(s: Sys)
    requires Reached(s)
    ensures Inv(s)
  {
    hide Inv, Next, Init;
    var states, steps :| IsRun(states, steps) && states[|steps|] == s;
    RunInv(states, steps, |steps|);
  }
}

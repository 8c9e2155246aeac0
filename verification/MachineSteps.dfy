/** The steps of the machine controller and of machine objects keep the
    invariant. */
module MachineSteps {
  import opened Names
  import opened Store
  import opened Metal
  import opened Protocol
  import opened Invariant
  import opened Frames
  import M = MachineSpec
  import C = ClusterSpec
  import F = FirewallSpec

  type Runs = map<nat, MachineRun>
  type Books = map<nat, MachineBook>

  // --------------------------------------------------------------- loading

  /** A run with nothing pending is replaced by another one. */
  predicate Idle(u: nat, runs: Runs, r: MachineRun) {
    Pending(u, runs) == {} && (r.MActed? ==> r.pending == {})
  }

  lemma IdleHeld(cs: Clusters, ms: Machines, hs: Hosts, runs: Runs, books: Books, u: nat, r: MachineRun)
    requires Held(cs, ms, hs, runs, books) && Idle(u, runs, r)
    ensures Held(cs, ms, hs, runs[u := r], books)
  {}

  lemma IdleBooks(ms: Machines, runs: Runs, books: Books, u: nat, r: MachineRun)
    requires MachineBooks(ms, runs, books) && Idle(u, runs, r)
    ensures MachineBooks(ms, runs[u := r], books)
  {
    assert forall v :: Pending(v, runs[u := r]) == Pending(v, runs);
  }

  lemma LoadRuns(cs: Clusters, ms: Machines, hs: Hosts, runs: Runs, books: Books, now: Time, u: nat)
    requires Homes(cs, ms, books) && MachineRuns(cs, ms, hs, runs, books, now) && u in ms
    ensures MachineRuns(cs, ms, hs, runs[u := MLoaded(ms[u], cs[ms[u].cluster])], books, now)
  {}

  lemma LoadMachineInv(s: Sys, u: nat)
    requires Inv(s)
    ensures Inv(LoadMachine(s, u))
  {
    hide Plain, Owners, Covered, Gates, Held, MachineBooks, ClusterBooks, MachineRuns, ClusterRuns, DeploymentRuns;
    if u in s.kube.machines && u !in s.mruns {
      var m := s.kube.machines[u];
      var r := MLoaded(m, s.kube.clusters[m.cluster]);
      IdleHeld(s.kube.clusters, s.kube.machines, s.metal.hosts, s.mruns, s.mbooks, u, r);
      IdleBooks(s.kube.machines, s.mruns, s.mbooks, u, r);
      LoadRuns(s.kube.clusters, s.kube.machines, s.metal.hosts, s.mruns, s.mbooks, s.now, u);
    }
  }

  // -------------------------------------------------------------- patching

  /** On top of a stable object a patch stores what the run has computed. */
  lemma Merged(stored: Machine, before: Machine, after: Machine)
    requires StableMachine(stored, before) && M.SameMachine(after, before)
    ensures var m := MergeMachine(stored, before, after);
      && m.providerID == after.providerID && m.finalizer == after.finalizer && m.provisioned == after.provisioned
      && m.cluster == stored.cluster && m.deletion == stored.deletion
  {}

  lemma PatchedHeld(cs: Clusters, ms: Machines, hs: Hosts, runs: Runs, books: Books, now: Time, u: nat)
    requires Held(cs, ms, hs, runs, books) && MachineRuns(cs, ms, hs, runs, books, now)
    requires u in runs && runs[u].MActed?
    ensures u in ms && u in books
    ensures Held(cs, ms[u := MergeMachine(ms[u], runs[u].before, runs[u].after)], hs, runs - {u}, books)
  {
    Merged(ms[u], runs[u].before, runs[u].after);
    var m := MergeMachine(ms[u], runs[u].before, runs[u].after);
    forall id | id in hs && hs[id].origin == ByMachine(u)
      ensures HostHeld(id, hs[id], u, cs, ms[u := m], runs - {u}, books)
    {
      assert HostHeld(id, hs[id], hs[id].origin.uid, cs, ms, runs, books);
    }
    forall id | id in hs && hs[id].origin.ByMachine? && hs[id].origin.uid != u
      ensures HostHeld(id, hs[id], hs[id].origin.uid, cs, ms[u := m], runs - {u}, books)
    {
      assert HostHeld(id, hs[id], hs[id].origin.uid, cs, ms, runs, books);
    }
  }

  lemma PatchedBooks(ms: Machines, runs: Runs, books: Books, u: nat, m: Machine)
    requires MachineBooks(ms, runs, books) && u in runs && runs[u].MActed? && u in ms && u in books
    requires One(m.providerID != "") == One(ms[u].providerID != "") + |Pending(u, runs)|
    ensures MachineBooks(ms[u := m], runs - {u}, books)
  {
    forall v | v in books
      ensures Booked(v, books[v], ms[u := m], runs - {u})
    {
      assert Booked(v, books[v], ms, runs);
    }
  }

  lemma PatchedRuns(cs: Clusters, ms: Machines, hs: Hosts, runs: Runs, books: Books, now: Time, u: nat, m: Machine)
    requires MachineRuns(cs, ms, hs, runs, books, now)
    ensures MachineRuns(cs, ms[u := m], hs, runs - {u}, books, now)
  {}

  lemma LostHeld(cs: Clusters, ms: Machines, hs: Hosts, runs: Runs, books: Books, u: nat, b: MachineBook)
    requires Held(cs, ms, hs, runs, books) && u in books
    requires b.orphans == books[u].orphans + Pending(u, runs)
    ensures Held(cs, ms, hs, runs - {u}, books[u := b])
  {}

  lemma LostBooks(ms: Machines, runs: Runs, books: Books, u: nat, pending: set<string>)
    requires MachineBooks(ms, runs, books) && u in books && u in ms && pending == Pending(u, runs)
    ensures MachineBooks(ms, runs - {u},
      books[u := books[u].(lost := books[u].lost + |pending|, orphans := books[u].orphans + pending)])
  {
    var b := books[u].(lost := books[u].lost + |pending|, orphans := books[u].orphans + pending);
    UnionSize(books[u].orphans, pending);
    forall v | v in books
      ensures Booked(v, books[u := b][v], ms, runs - {u})
    {
      assert Booked(v, books[v], ms, runs);
    }
  }

  lemma UnionSize(a: set<string>, b: set<string>)
    ensures |a + b| <= |a| + |b|
  {
    assert a + b == a + (b - a);
    assert |a + (b - a)| == |a| + |b - a|;
    assert b == (b - a) + (b * a);
  }

  lemma LostRuns(cs: Clusters, ms: Machines, hs: Hosts, runs: Runs, books: Books, now: Time, u: nat, b: MachineBook)
    requires MachineRuns(cs, ms, hs, runs, books, now)
    ensures MachineRuns(cs, ms, hs, runs - {u}, books[u := b], now)
  {}

  lemma RunFacts(s: Sys, u: nat)
    requires Inv(s) && u in s.mruns
    ensures u in s.kube.machines && u in s.mbooks
    ensures MachineRunOk(u, s.mruns[u], s.kube.machines[u], s.kube.clusters, s.metal.hosts, s.mbooks[u].orphans, s.now)
    ensures s.kube.machines[u].cluster in s.kube.clusters
    ensures s.kube.machines[u].provisioned ==> s.kube.machines[u].providerID != ""
  {
    hide Plain, Owners, Covered, Held, MachineBooks, ClusterBooks, ClusterRuns, DeploymentRuns;
  }

  /** What a patch stores accounts for the allocation it was waiting for. */
  lemma PatchSettles(s: Sys, u: nat)
    requires Inv(s) && u in s.mruns && s.mruns[u].MActed?
    ensures u in s.kube.machines && u in s.mbooks
    ensures var m := MergeMachine(s.kube.machines[u], s.mruns[u].before, s.mruns[u].after);
      && m.cluster == s.kube.machines[u].cluster
      && One(m.providerID != "") == One(s.kube.machines[u].providerID != "") + |Pending(u, s.mruns)|
      && (m.provisioned ==> m.providerID != "")
  {
    RunFacts(s, u);
    hide Inv;
    Merged(s.kube.machines[u], s.mruns[u].before, s.mruns[u].after);
  }

  lemma PatchMachineApplied(s: Sys, u: nat)
    requires Inv(s) && u in s.mruns && s.mruns[u].MActed?
    ensures Inv(PatchMachine(s, u, true))
  {
    hide Plain, Owners, Covered, Held, MachineBooks, ClusterBooks, MachineRuns, ClusterRuns, DeploymentRuns, Homes;
    hide MergeMachine;
    PatchSettles(s, u);
    var m := MergeMachine(s.kube.machines[u], s.mruns[u].before, s.mruns[u].after);
    PatchedHeld(s.kube.clusters, s.kube.machines, s.metal.hosts, s.mruns, s.mbooks, s.now, u);
    PatchedBooks(s.kube.machines, s.mruns, s.mbooks, u, m);
    PatchedRuns(s.kube.clusters, s.kube.machines, s.metal.hosts, s.mruns, s.mbooks, s.now, u, m);
    assert MachinesEvolve(s.kube.machines, s.kube.machines[u := m]);
    HomesByMachines(s.kube.clusters, s.kube.machines, s.kube.machines[u := m], s.mbooks);
    ClusterRunsByMachines(s.kube.clusters, s.kube.machines, s.kube.machines[u := m], s.kube.deployments, s.cruns);
  }

  lemma HomesBook(cs: Clusters, ms: Machines, books: Books, u: nat, b: MachineBook)
    requires Homes(cs, ms, books) && u in books && b.cluster == books[u].cluster
    ensures Homes(cs, ms, books[u := b])
  {}

  lemma PatchMachineLost(s: Sys, u: nat)
    requires Inv(s) && u in s.mruns && s.mruns[u].MActed?
    ensures Inv(PatchMachine(s, u, false))
  {
    hide Plain, Owners, Covered, Held, MachineBooks, ClusterBooks, MachineRuns, ClusterRuns, DeploymentRuns, Homes,
      Gates;
    hide MergeMachine;
    PatchSettles(s, u);
    var r, b := s.mruns[u], s.mbooks[u];
    var b' := b.(lost := b.lost + |r.pending|, orphans := b.orphans + r.pending);
    LostHeld(s.kube.clusters, s.kube.machines, s.metal.hosts, s.mruns, s.mbooks, u, b');
    LostBooks(s.kube.machines, s.mruns, s.mbooks, u, r.pending);
    LostRuns(s.kube.clusters, s.kube.machines, s.metal.hosts, s.mruns, s.mbooks, s.now, u, b');
    HomesBook(s.kube.clusters, s.kube.machines, s.mbooks, u, b');
  }

  // ------------------------------------------------------------- vanishing

  lemma VanishedHeld(cs: Clusters, ms: Machines, hs: Hosts, runs: Runs, books: Books, u: nat)
    requires Held(cs, ms, hs, runs, books) && u in ms && !ms[u].finalizer
    ensures Held(cs, ms - {u}, hs, runs - {u}, books)
  {}

  lemma VanishedBooks(ms: Machines, runs: Runs, books: Books, u: nat)
    requires MachineBooks(ms, runs, books) && u in ms && u in books && Pending(u, runs) == {}
    ensures MachineBooks(ms - {u}, runs - {u}, books)
  {
    forall v | v in books
      ensures Booked(v, books[v], ms - {u}, runs - {u})
    {
      assert Booked(v, books[v], ms, runs);
    }
  }

  lemma VanishedRuns(cs: Clusters, ms: Machines, hs: Hosts, runs: Runs, books: Books, now: Time, u: nat)
    requires MachineRuns(cs, ms, hs, runs, books, now)
    ensures MachineRuns(cs, ms - {u}, hs, runs - {u}, books, now)
  {}

  lemma VanishMachineInv(s: Sys, u: nat)
    requires Inv(s)
    ensures Inv(VanishMachine(s, u))
  {
    var ms := s.kube.machines;
    hide Plain, Owners, Covered, Held, MachineBooks, ClusterBooks, MachineRuns, ClusterRuns, DeploymentRuns, Homes;
    if u in ms && ms[u].deletion.Some? && !ms[u].finalizer {
      NothingPending(s, u);
      VanishedHeld(s.kube.clusters, ms, s.metal.hosts, s.mruns, s.mbooks, u);
      VanishedBooks(ms, s.mruns, s.mbooks, u);
      VanishedRuns(s.kube.clusters, ms, s.metal.hosts, s.mruns, s.mbooks, s.now, u);
      HomesByMachines(s.kube.clusters, ms, ms - {u}, s.mbooks);
      ClusterRunsByMachines(s.kube.clusters, ms, ms - {u}, s.kube.deployments, s.cruns);
    }
  }

  lemma NothingPending(s: Sys, u: nat)
    requires Inv(s) && u in s.kube.machines && !s.kube.machines[u].finalizer
    ensures u in s.mbooks && Pending(u, s.mruns) == {}
  {
    if u in s.mruns {
      RunFacts(s, u);
      hide Inv, Released;
    } else {
      hide Plain, Owners, Covered, Held, MachineBooks, ClusterBooks, MachineRuns, ClusterRuns, DeploymentRuns, Gates;
    }
  }

  // ---------------------------------------------------------------- acting

  lemma ActedRuns(cs: Clusters, ms: Machines, hs: Hosts, runs: Runs, books: Books, now: Time,
                  u: nat, r: MachineRun, b: MachineBook)
    requires MachineRuns(cs, ms, hs, runs, books, now) && u in ms
    requires MachineRunOk(u, r, ms[u], cs, hs, b.orphans, now)
    ensures MachineRuns(cs, ms, hs, runs[u := r], books[u := b], now)
  {}

  /** What a run of the machine controller starts from. */
  predicate Starts(s: Sys, u: nat, m: Machine, c: Cluster) {
    && u in s.mruns && s.mruns[u] == MLoaded(m, c) && u in s.kube.machines && u in s.mbooks
    && StableMachine(s.kube.machines[u], m) && m.cluster in s.kube.clusters
    && ClusterSeen(s.kube.clusters[m.cluster], c) && Lacks(c.partition, '/')
    && M.PlainPartitions(s.metal)
  }

  lemma RunStarts(s: Sys, u: nat)
    requires Inv(s) && u in s.mruns && s.mruns[u].MLoaded?
    ensures Starts(s, u, s.mruns[u].m, s.mruns[u].c)
  {
    RunFacts(s, u);
    hide Homes, Owners, Covered, Held, MachineBooks, ClusterBooks, MachineRuns, ClusterRuns, DeploymentRuns, Gates;
  }

  /** Once the recorded machine is out of the cluster's project, the object holds
      no provider machine but orphans. */
  lemma ReleasedByRun(cs: Clusters, ms: Machines, hs: Hosts, runs: Runs, books: Books, u: nat, m: Machine)
    requires Held(cs, ms, hs, runs, books) && Pending(u, runs) == {} && u in books
    requires u in ms ==> StableMachine(ms[u], m) && m.cluster in cs
    requires m.cluster in cs && m.providerID != "" && M.RecordedID(m) in hs ==>
      hs[M.RecordedID(m)].project != cs[m.cluster].project
    ensures Released(u, hs, books[u].orphans)
  {
    forall id | id in hs && hs[id].origin == ByMachine(u)
      ensures id in books[u].orphans
    {
      assert HostHeld(id, hs[id], hs[id].origin.uid, cs, ms, runs, books);
    }
  }

  /** A run that leaves no more hosts than there were. */
  predicate Barren(s: Sys, u: nat, m: Machine, o: M.Outcome) {
    u in s.mbooks && o.metal == s.metal.(hosts := o.metal.hosts) && FewerHosts(s.metal.hosts, o.metal.hosts)
  }

  lemma BarrenShape(s: Sys, u: nat, m: Machine, o: M.Outcome)
    requires Barren(s, u, m, o)
    ensures RecordRun(s, u, m, o) == s.(metal := o.metal, mruns := s.mruns[u := MActed(m, o.obj, {})])
  {
    assert o.metal.hosts.Keys - s.metal.hosts.Keys == {};
    SettleNothing(s.mbooks[u]);
    hide Settle;
    assert s.mbooks[u := s.mbooks[u]] == s.mbooks;
  }

  lemma RecordBarren(s: Sys, u: nat, m: Machine, o: M.Outcome)
    requires Inv(s) && Barren(s, u, m, o) && Pending(u, s.mruns) == {} && u in s.kube.machines
    requires Held(s.kube.clusters, s.kube.machines, o.metal.hosts, s.mruns, s.mbooks) ==>
      MachineRunOk(u, MActed(m, o.obj, {}), s.kube.machines[u], s.kube.clusters, o.metal.hosts, s.mbooks[u].orphans,
          s.now)
    ensures Inv(RecordRun(s, u, m, o))
  {
    hide Plain, Owners, Covered, Held, MachineBooks, ClusterBooks, MachineRuns, ClusterRuns, DeploymentRuns, Homes,
      Gates;
    hide MachineRunOk, FewerHosts, RecordRun;
    var hs', r := o.metal.hosts, MActed(m, o.obj, {});
    BarrenShape(s, u, m, o);
    ByFewerHosts(s, hs');
    ActedRuns(s.kube.clusters, s.kube.machines, hs', s.mruns, s.mbooks, s.now, u, r, s.mbooks[u]);
    IdleHeld(s.kube.clusters, s.kube.machines, hs', s.mruns, s.mbooks, u, r);
    IdleBooks(s.kube.machines, s.mruns, s.mbooks, u, r);
    assert s.mbooks[u := s.mbooks[u]] == s.mbooks;
  }

  lemma BarrenRun(s: Sys, u: nat, rep: M.Replies, paused: bool)
    requires u in s.mruns && s.mruns[u].MLoaded? && Starts(s, u, s.mruns[u].m, s.mruns[u].c)
    requires var o := M.Run(u, s.mruns[u].m, s.mruns[u].c, s.metal, rep, paused, s.now);
      o.metal == s.metal || s.mruns[u].m.deletion.Some?
    ensures var m := s.mruns[u].m; var o := M.Run(u, m, s.mruns[u].c, s.metal, rep, paused, s.now);
      && Barren(s, u, m, o)
      && (Held(s.kube.clusters, s.kube.machines, o.metal.hosts, s.mruns, s.mbooks) ==>
            MachineRunOk(u, MActed(m, o.obj, {}), s.kube.machines[u], s.kube.clusters, o.metal.hosts,
                         s.mbooks[u].orphans, s.now))
  {
    hide M.Run, Held;
    var m := s.mruns[u].m;
    var o := M.Run(u, m, s.mruns[u].c, s.metal, rep, paused, s.now);
    if Held(s.kube.clusters, s.kube.machines, o.metal.hosts, s.mruns, s.mbooks) && m.finalizer && !o.obj.finalizer {
      ReleasedByRun(s.kube.clusters, s.kube.machines, o.metal.hosts, s.mruns, s.mbooks, u, m);
    }
  }

  // ------------------------------------------------------------- allocating

  /** A run that has allocated a host. */
  predicate Fertile(s: Sys, u: nat, m: Machine, o: M.Outcome, id: string, h: Host) {
    && M.Allocates(s.metal, o.metal, id, h) && h.origin == ByMachine(u) && h.kind == Worker
    && Lacks(Deref(h.partition), '/')
    && u in s.mbooks && u in s.kube.machines && StableMachine(s.kube.machines[u], m)
    && m.cluster in s.kube.clusters && h.project == s.kube.clusters[m.cluster].project
    && s.kube.clusters[m.cluster].netId.Some? && h.networks == [s.kube.clusters[m.cluster].netId.value]
    && m.finalizer && o.obj.finalizer && m.providerID == "" && M.SameMachine(o.obj, m) && M.KeepsID(m, o.obj)
    && (o.obj.providerID != "" ==> M.RecordedID(o.obj) == id)
  }

  function FertileBook(b: MachineBook, known: bool, id: string): MachineBook {
    if known then b.(allocs := b.allocs + 1)
    else b.(allocs := b.allocs + 1, lost := b.lost + 1, orphans := b.orphans + {id})
  }

  lemma SettleNothing(b: MachineBook)
    ensures Settle(b, {}, {}) == b
  {
    assert b.orphans + ({} - {}) == b.orphans;
  }

  lemma SettleOne(b: MachineBook, id: string)
    ensures Settle(b, {id}, {id}) == FertileBook(b, true, id)
    ensures Settle(b, {id}, {}) == FertileBook(b, false, id)
  {
    assert {id} - {id} == {} && {id} - {} == {id};
    assert b.orphans + {} == b.orphans;
  }

  lemma FertileShape(s: Sys, u: nat, m: Machine, o: M.Outcome, id: string, h: Host)
    requires u in s.mbooks && m.providerID == "" && M.Allocates(s.metal, o.metal, id, h)
    ensures var known := o.obj.providerID != "";
      RecordRun(s, u, m, o)
      == s.(metal := s.metal.(hosts := s.metal.hosts[id := h]),
            mruns := s.mruns[u := MActed(m, o.obj, if known then {id} else {})],
            mbooks := s.mbooks[u := FertileBook(s.mbooks[u], known, id)])
  {
    SettleOne(s.mbooks[u], id);
    hide Settle, FertileBook;
    assert o.metal.hosts.Keys - s.metal.hosts.Keys == {id};
  }

  lemma FertileHeld(cs: Clusters, ms: Machines, hs: Hosts, runs: Runs, books: Books, u: nat, m: Machine, m': Machine,
                    id: string, h: Host)
    requires Held(cs, ms, hs, runs, books) && Pending(u, runs) == {} && id !in hs && u in books && u in ms
    requires h.origin == ByMachine(u) && ms[u].finalizer
    requires ms[u].cluster in cs && h.project == cs[ms[u].cluster].project
    requires cs[ms[u].cluster].netId.Some? && h.networks == [cs[ms[u].cluster].netId.value]
    ensures Held(cs, ms, hs[id := h], runs[u := MActed(m, m', {id})], books[u := FertileBook(books[u], true, id)])
    ensures Held(cs, ms, hs[id := h], runs[u := MActed(m, m', {})], books[u := FertileBook(books[u], false, id)])
  {}

  lemma FertileBooks(ms: Machines, runs: Runs, books: Books, u: nat, m: Machine, m': Machine, id: string)
    requires MachineBooks(ms, runs, books) && Pending(u, runs) == {} && u in books && u in ms
    ensures MachineBooks(ms, runs[u := MActed(m, m', {id})], books[u := FertileBook(books[u], true, id)])
    ensures MachineBooks(ms, runs[u := MActed(m, m', {})], books[u := FertileBook(books[u], false, id)])
  {
    UnionSize(books[u].orphans, {id});
    forall v, known: bool | v in books
      ensures Booked(v, books[u := FertileBook(books[u], known, id)][v], ms,
                     runs[u := MActed(m, m', if known then {id} else {})])
    {
      assert Booked(v, books[v], ms, runs);
    }
  }

  lemma CoveredByWorker(cs: Clusters, ds: Deployments, hs: Hosts, id: string, h: Host)
    requires Covered(cs, ds, hs) && h.origin.ByMachine? && h.kind == Worker
    ensures Covered(cs, ds, hs[id := h])
  {}

  lemma FertileRuns(cs: Clusters, ms: Machines, hs: Hosts, runs: Runs, books: Books, now: Time,
                    u: nat, r: MachineRun, b: MachineBook, id: string, h: Host)
    requires MachineRuns(cs, ms, hs, runs, books, now) && u in ms && id !in hs && h.origin == ByMachine(u)
    requires MachineRunOk(u, r, ms[u], cs, hs[id := h], b.orphans, now)
    ensures MachineRuns(cs, ms, hs[id := h], runs[u := r], books[u := b], now)
  {
    forall v | v in books && v in runs && v != u && Released(v, hs, books[v].orphans)
      ensures Released(v, hs[id := h], books[v].orphans)
    {}
  }

  lemma RecordFertile(s: Sys, u: nat, m: Machine, o: M.Outcome, id: string, h: Host)
    requires Inv(s) && Fertile(s, u, m, o, id, h) && Pending(u, s.mruns) == {}
    ensures Inv(RecordRun(s, u, m, o))
  {
    hide Owners, Covered, Held, MachineBooks, ClusterBooks, MachineRuns, ClusterRuns, DeploymentRuns, Homes, Gates;
    hide RecordRun, M.RecordedID;
    var known := o.obj.providerID != "";
    var r, b := MActed(m, o.obj, if known then {id} else {}), FertileBook(s.mbooks[u], known, id);
    FertileShape(s, u, m, o, id, h);
    FertileHeld(s.kube.clusters, s.kube.machines, s.metal.hosts, s.mruns, s.mbooks, u, m, o.obj, id, h);
    FertileBooks(s.kube.machines, s.mruns, s.mbooks, u, m, o.obj, id);
    CoveredByWorker(s.kube.clusters, s.kube.deployments, s.metal.hosts, id, h);
    FertileRuns(s.kube.clusters, s.kube.machines, s.metal.hosts, s.mruns, s.mbooks, s.now, u, r, b, id, h);
    DeploymentRunsByMore(s.kube.clusters, s.kube.deployments, s.metal.hosts, id, h, s.fruns);
    HomesBook(s.kube.clusters, s.kube.machines, s.mbooks, u, b);
  }

  lemma FertileRun(s: Sys, u: nat, rep: M.Replies, paused: bool)
    requires u in s.mruns && s.mruns[u].MLoaded? && Starts(s, u, s.mruns[u].m, s.mruns[u].c)
    requires var o := M.Run(u, s.mruns[u].m, s.mruns[u].c, s.metal, rep, paused, s.now);
      o.metal != s.metal && s.mruns[u].m.deletion.None?
    ensures var m, c := s.mruns[u].m, s.mruns[u].c;
      && !rep.alloc.Denied? && c.netId.Some?
      && Fertile(s, u, m, M.Run(u, m, c, s.metal, rep, paused, s.now), rep.alloc.id,
                 M.MachineHost(u, m, c, c.netId.value, rep.report))
  {
    hide M.Run;
  }

  lemma ActMachineInv(s: Sys, u: nat, rep: M.Replies, paused: bool)
    requires Inv(s)
    ensures Inv(ActMachine(s, u, rep, paused))
  {
    hide M.Run, RecordRun;
    if u in s.mruns && s.mruns[u].MLoaded? && u in s.mbooks {
      RunStarts(s, u);
      var m, c := s.mruns[u].m, s.mruns[u].c;
      var o := M.Run(u, m, c, s.metal, rep, paused, s.now);
      hide Inv;
      if o.metal == s.metal || m.deletion.Some? {
        BarrenRun(s, u, rep, paused);
        RecordBarren(s, u, m, o);
      } else {
        FertileRun(s, u, rep, paused);
        RecordFertile(s, u, m, o, rep.alloc.id, M.MachineHost(u, m, c, c.netId.value, rep.report));
      }
    }
  }
}

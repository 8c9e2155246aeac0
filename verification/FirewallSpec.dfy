/** What one run of the firewall deployment controller does. */
module FirewallSpec {
  import opened Names
  import opened Store
  import opened Metal

  datatype Replies = Replies(
    patchTemplate: bool, alloc: Grant, report: Report,
    list: bool, search: Option<seq<string>>, frees: seq<Release>)

  type Templates = map<Key, Template>

  /** `panicked` is a run ended by a nil dereference: it reaches no patch. */
  datatype Outcome = Outcome(obj: Deployment, templates: Templates, metal: Metal, failed: bool, panicked: bool)

  function TemplateKey(k: Key, d: Deployment): Key {
    Key(k.ns, d.template)
  }

  /** What no run changes. */
  predicate SameDeployment(a: Deployment, b: Deployment) {
    && a.template == b.template && a.owner == b.owner && a.clusterLabel == b.clusterLabel
    && a.deletion == b.deletion
  }

  // ----------------------------------------------------------- the request

  function FirewallNetworks(networks: seq<string>, net: string): (r: seq<string>)
    ensures net in r && networks <= r && |r| <= |networks| + 1
    ensures net in networks ==> r == networks
  {
    if net in networks then networks else networks + [net]
  }

  function Egress(rules: seq<EgressRule>): (r: seq<FirewallEgress>)
    ensures |r| == |rules|
    ensures forall i | 0 <= i < |rules| ::
      r[i] == FirewallEgress(rules[i].comment, rules[i].ports, rules[i].protocol, rules[i].to)
  {
    if rules == [] then []
    else
      var e := rules[|rules| - 1];
      Egress(rules[..|rules| - 1]) + [FirewallEgress(e.comment, e.ports, e.protocol, e.to)]
  }

  function Ingress(rules: seq<IngressRule>): (r: seq<FirewallIngress>)
    ensures |r| == |rules|
    ensures forall i | 0 <= i < |rules| ::
      r[i] == FirewallIngress(rules[i].comment, rules[i].ports, rules[i].protocol, rules[i].from)
  {
    if rules == [] then []
    else
      var e := rules[|rules| - 1];
      Ingress(rules[..|rules| - 1]) + [FirewallIngress(e.comment, e.ports, e.protocol, e.from)]
  }

  /** The request a firewall is allocated with. */
  function FirewallHost(k: Key, ck: Key, c: Cluster, net: string, t: Template, report: Report): Host
    requires t.rules.Some?
  {
    Host(Firewall, ck.name + "-firewall", c.project, Some(c.partition), FirewallNetworks(t.networks, net),
         FirewallTags(net, ck, k), t.image, t.size,
         Some(FirewallRules(Egress(t.rules.value.egress), Ingress(t.rules.value.ingress))),
         ByDeployment(ck, k, net), report)
  }

  // ---------------------------------------------------------- provisioning

  /** `t` is the template as it was read; the patch replaces its owner list. */
  function OwnTemplate(k: Key, tk: Key, t: Template, templates: Templates, ok: bool): (r: Option<Templates>)
    ensures k in t.owners ==> r == Some(templates)
    ensures r.Some? && r.value != templates ==>
      tk in templates && r.value == templates[tk := templates[tk].(owners := t.owners + {k})]
  {
    if k in t.owners then Some(templates)
    else if !ok || tk !in templates then None
    else Some(templates[tk := templates[tk].(owners := t.owners + {k})])
  }

  predicate NewFirewall(metal: Metal, metal': Metal, id: string, host: Host) {
    id !in metal.hosts && id != "" && metal' == metal.(hosts := metal.hosts[id := host])
  }

  function Allocate(k: Key, d: Deployment, ck: Key, c: Cluster, t: Template, templates: Templates,
                    metal: Metal, rep: Replies): (o: Outcome)
    requires c.netId.Some? && t.rules.Some?
    ensures SameDeployment(o.obj, d) && o.obj.finalizer == d.finalizer && !o.panicked
    ensures o.templates == templates
    ensures o.metal != metal ==>
      && !rep.alloc.Denied?
      && NewFirewall(metal, o.metal, rep.alloc.id, FirewallHost(k, ck, c, c.netId.value, t, rep.report))
    ensures o.failed ==> o.obj == d
    ensures !o.failed ==>
      rep.alloc.Granted? && o.obj.ref == Some(EncodeProviderID(Some(c.partition), rep.alloc.id)) && o.obj.ready
  {
    var metal' := AllocateHost(metal, FirewallHost(k, ck, c, c.netId.value, t, rep.report), rep.alloc);
    match HostAnswer(metal, rep.alloc)
    case None => Outcome(d, templates, metal', true, false)
    case Some(id) =>
      Outcome(d.(ref := Some(EncodeProviderID(Some(c.partition), id)), ready := true), templates, metal', false, false)
  }

  /** Provisioning: template ownership, then one firewall unless a reference to
      one is stored, never without an initial rule set. */
  function Reconcile(k: Key, d: Deployment, ck: Key, c: Cluster, t: Template, templates: Templates,
                     metal: Metal, rep: Replies): (o: Outcome)
    ensures SameDeployment(o.obj, d) && o.obj.finalizer == d.finalizer && !o.panicked
    ensures o.metal != metal ==>
      && c.netId.Some? && d.ref.None? && t.rules.Some? && !rep.alloc.Denied?
      && NewFirewall(metal, o.metal, rep.alloc.id, FirewallHost(k, ck, c, c.netId.value, t, rep.report))
    ensures d.ref.Some? ==> o.obj.ref == d.ref
  {
    if c.netId.None? then Outcome(d, templates, metal, true, false)
    else match OwnTemplate(k, TemplateKey(k, d), t, templates, rep.patchTemplate)
      case None => Outcome(d, templates, metal, true, false)
      case Some(templates') =>
        if d.ref.Some? then Outcome(d.(ready := true), templates', metal, false, false)
        else if t.rules.None? then Outcome(d, templates', metal, true, false)
        else Allocate(k, d, ck, c, t, templates', metal, rep)
  }

  // -------------------------------------------------------------- deletion

  function ReleaseAt(frees: seq<Release>, i: nat): Release {
    if i < |frees| then frees[i] else Refused
  }

  /** The provider after the first `n` firewalls of the answer were freed. */
  function FreeFirst(metal: Metal, order: seq<string>, frees: seq<Release>, n: nat): Metal
    requires n <= |order|
  {
    if n == 0 then metal
    else FreeHost(FreeFirst(metal, order, frees, n - 1), order[n - 1], ReleaseAt(frees, n - 1))
  }

  /** The firewalls among the first `n` for which an error was collected. */
  function ErrorsFirst(metal: Metal, order: seq<string>, frees: seq<Release>, n: nat): seq<string>
    requires n <= |order|
  {
    if n == 0 then []
    else
      var freed := FreeHostSucceeds(FreeFirst(metal, order, frees, n - 1), order[n - 1], ReleaseAt(frees, n - 1));
      ErrorsFirst(metal, order, frees, n - 1) + (if freed then [] else [order[n - 1]])
  }

  function FreedAmong(order: seq<string>, frees: seq<Release>, n: nat): set<string>
    requires n <= |order|
  {
    set i | 0 <= i < n && !ReleaseAt(frees, i).Refused? :: order[i]
  }

  /** Partial failure: the loop takes away exactly the firewalls whose free went
      through, touches nothing else, and collects an error for exactly those whose
      free was not confirmed. */
  lemma {:induction false} LoopFrees(metal: Metal, order: seq<string>, frees: seq<Release>, n: nat)
    requires n <= |order| && NoDuplicates(order) && Elems(order) <= metal.hosts.Keys
    ensures var m := FreeFirst(metal, order, frees, n);
      && m == metal.(hosts := m.hosts) && m.hosts == metal.hosts - FreedAmong(order, frees, n)
    ensures forall id :: id in ErrorsFirst(metal, order, frees, n)
              <==> exists i :: 0 <= i < n && order[i] == id && !ReleaseAt(frees, i).Freed?
  {
    if n == 0 {
      assert metal.hosts - FreedAmong(order, frees, 0) == metal.hosts;
    } else {
      LoopFrees(metal, order, frees, n - 1);
      var m, id, r := FreeFirst(metal, order, frees, n - 1), order[n - 1], ReleaseAt(frees, n - 1);
      assert id in Elems(order);
      assert id !in FreedAmong(order, frees, n - 1);
      assert FreedAmong(order, frees, n) == FreedAmong(order, frees, n - 1) + if r.Refused? then {} else {id};
      assert FreeFirst(metal, order, frees, n).hosts == metal.hosts - FreedAmong(order, frees, n);
      var before, after := ErrorsFirst(metal, order, frees, n - 1), ErrorsFirst(metal, order, frees, n);
      assert FreeHostSucceeds(m, id, r) <==> r.Freed?;
      forall x
        ensures x in after <==> exists i :: 0 <= i < n && order[i] == x && !ReleaseAt(frees, i).Freed?
      {
        assert x in after <==> x in before || (x == id && !r.Freed?);
        if x == id && !r.Freed? { assert order[n - 1] == x && !ReleaseAt(frees, n - 1).Freed?; }
        if i: int :| 0 <= i < n && order[i] == x && !ReleaseAt(frees, i).Freed? {
          assert i == n - 1 || (0 <= i < n - 1 && order[i] == x);
        }
      }
    }
  }

  /** Without an error every firewall of the answer is gone. */
  lemma NoErrorsFreeAll(metal: Metal, order: seq<string>, frees: seq<Release>)
    requires NoDuplicates(order) && Elems(order) <= metal.hosts.Keys
    requires ErrorsFirst(metal, order, frees, |order|) == []
    ensures FreeFirst(metal, order, frees, |order|).hosts == metal.hosts - Elems(order)
  {
    LoopFrees(metal, order, frees, |order|);
    forall i | 0 <= i < |order|
      ensures ReleaseAt(frees, i).Freed?
    {
      assert order[i] !in ErrorsFirst(metal, order, frees, |order|);
    }
    assert FreedAmong(order, frees, |order|) == Elems(order);
  }

  datatype Verdict = Stop(failed: bool) | Clear

  /** The guard of deletion: the machines go first. */
  function Guard(d: Deployment, machinesLeft: bool, rep: Replies): (v: Verdict)
    ensures v.Clear? <==> d.finalizer && rep.list && !machinesLeft
    ensures v.Stop? ==> (v.failed <==> d.finalizer)
  {
    if !d.finalizer then Stop(false)
    else if !rep.list || machinesLeft then Stop(true)
    else Clear
  }

  /** Behind the guard all firewalls found by the creation tags are freed; the
      stored reference plays no part. Without a node network on the cluster the code
      dereferences nil. */
  function Reclaim(k: Key, d: Deployment, ck: Key, c: Cluster, templates: Templates, metal: Metal,
                   rep: Replies): (o: Outcome)
    ensures SameDeployment(o.obj, d) && o.templates == templates && o.obj.ref == d.ref
    ensures o.obj.finalizer ==> d.finalizer
    ensures o.panicked <==> c.netId.None?
    ensures o.metal != metal || (d.finalizer && !o.obj.finalizer) ==>
      && c.netId.Some? && rep.search.Some?
      && Lists(rep.search.value, Matching(metal, c.partition, c.project, FirewallTags(c.netId.value, ck, k)))
      && o.metal == FreeFirst(metal, rep.search.value, rep.frees, |rep.search.value|)
    ensures d.finalizer ==> (!o.obj.finalizer <==> !o.failed)
    ensures d.finalizer && !o.obj.finalizer ==>
      ErrorsFirst(metal, rep.search.value, rep.frees, |rep.search.value|) == []
  {
    if c.netId.None? then Outcome(d, templates, metal, true, true)
    else
      var ids := Matching(metal, c.partition, c.project, FirewallTags(c.netId.value, ck, k));
      if rep.search.None? || !Lists(rep.search.value, ids) then Outcome(d, templates, metal, true, false)
      else
        var order := rep.search.value;
        var metal' := FreeFirst(metal, order, rep.frees, |order|);
        if ErrorsFirst(metal, order, rep.frees, |order|) != []
        then Outcome(d, templates, metal', true, false)
        else Outcome(d.(finalizer := false), templates, metal', false, false)
  }

  /** Deletion in a row: guard and reclamation. */
  function Delete(k: Key, d: Deployment, ck: Key, c: Cluster, machinesLeft: bool, templates: Templates,
                  metal: Metal, rep: Replies): (o: Outcome)
    ensures SameDeployment(o.obj, d) && o.templates == templates && o.obj.ref == d.ref
    ensures o.panicked <==> d.finalizer && rep.list && !machinesLeft && c.netId.None?
    ensures o.metal != metal || (d.finalizer && !o.obj.finalizer) ==> d.finalizer && !machinesLeft
    ensures d.finalizer ==> (!o.obj.finalizer <==> !o.failed)
  {
    match Guard(d, machinesLeft, rep)
    case Stop(failed) => Outcome(d, templates, metal, failed, false)
    case Clear => Reclaim(k, d, ck, c, templates, metal, rep)
  }

  function Begin(d: Deployment, paused: bool): Deployment {
    d.(conds := SetPaused(d.conds, paused, IsPaused))
  }

  /** The arms other than deletion. */
  function RunUp(k: Key, d: Deployment, ck: Key, c: Cluster, t: Template, templates: Templates,
                 metal: Metal, rep: Replies, paused: bool): (o: Outcome)
    requires paused || d.deletion.None?
    ensures SameDeployment(o.obj, d) && !o.panicked && (d.ref.Some? ==> o.obj.ref == d.ref)
    ensures d.finalizer ==> o.obj.finalizer
    ensures o.obj.finalizer && !d.finalizer ==> !paused
    ensures o.metal != metal ==>
      && !paused && d.finalizer && c.netId.Some? && d.ref.None? && t.rules.Some? && !rep.alloc.Denied?
      && NewFirewall(metal, o.metal, rep.alloc.id, FirewallHost(k, ck, c, c.netId.value, t, rep.report))
  {
    var p := Begin(d, paused);
    if paused then Outcome(p, templates, metal, false, false)
    else if !p.finalizer then Outcome(p.(finalizer := true), templates, metal, false, false)
    else Reconcile(k, p, ck, c, t, templates, metal, rep)
  }

  /** One run, from snapshot to patch, that nothing interrupts. */
  function Run(k: Key, d: Deployment, ck: Key, c: Cluster, t: Template, machinesLeft: bool, templates: Templates,
               metal: Metal, rep: Replies, paused: bool): (o: Outcome)
    ensures SameDeployment(o.obj, d)
    ensures o.obj.finalizer && !d.finalizer ==> !paused && d.deletion.None?
    ensures o.metal != metal && d.deletion.None? ==>
      && d.finalizer && c.netId.Some? && d.ref.None? && t.rules.Some? && !rep.alloc.Denied?
      && o.obj.finalizer && !o.panicked
      && NewFirewall(metal, o.metal, rep.alloc.id, FirewallHost(k, ck, c, c.netId.value, t, rep.report))
    ensures (o.metal != metal && d.deletion.Some?) || (d.finalizer && !o.obj.finalizer) ==>
      && d.deletion.Some? && d.finalizer && !machinesLeft && c.netId.Some? && rep.search.Some?
      && Lists(rep.search.value, Matching(metal, c.partition, c.project, FirewallTags(c.netId.value, ck, k)))
      && o.metal == FreeFirst(metal, rep.search.value, rep.frees, |rep.search.value|)
    ensures d.finalizer && !o.obj.finalizer ==>
      ErrorsFirst(metal, rep.search.value, rep.frees, |rep.search.value|) == []
  {
    if paused || d.deletion.None? then RunUp(k, d, ck, c, t, templates, metal, rep, paused)
    else Delete(k, Begin(d, false), ck, c, machinesLeft, templates, metal, rep)
  }
}

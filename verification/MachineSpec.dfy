/** What one run of the machine controller does, as functions of the snapshot it
    read, the provider as it is when the run acts, and the replies it gets. */
module MachineSpec {
  import opened Names
  import opened Store
  import opened Metal

  datatype Replies = Replies(find: bool, secret: bool, alloc: Grant, report: Report, free: Release)

  datatype Outcome = Outcome(obj: Machine, metal: Metal, requeue: Option<Time>, failed: bool)

  // --------------------------------------------------- reading the provider

  datatype Lookup = Absent | Present(host: Host) | LookupError

  /** A machine of another project counts as absent. */
  function Find(m: Machine, c: Cluster, metal: Metal, answered: bool): Lookup {
    if m.providerID == "" then Absent
    else match FindHost(metal, DecodeProviderID(m.providerID), answered)
      case HostError => LookupError
      case NoHost => Absent
      case AHost(h) => if h.project != c.project then Absent else Present(h)
  }

  function NotCreated(m: Machine): Machine {
    m.(conds := m.conds[MachineCreated := Cond(false, InternalError)])
  }

  /** The condition a failed lookup leaves on the object. */
  function AfterLookup(m: Machine, l: Lookup): Machine {
    if l.LookupError? then NotCreated(m) else m
  }

  datatype Trouble = NotAlive(liveliness: Option<Liveliness>) | CrashLoop | ReclaimFailing

  function Troubles(r: Report): seq<Trouble> {
    (if r.liveliness == Some(Alive) then [] else [NotAlive(r.liveliness)])
    + (if r.events.Some? && r.events.value.crashLoop == Some(true) then [CrashLoop] else [])
    + (if r.events.Some? && r.events.value.failedReclaim == Some(true) then [ReclaimFailing] else [])
  }

  /** Ready means that the newest event is the machine phoning home. */
  predicate HasPhonedHome(r: Report) {
    r.events.Some? && |r.events.value.log| > 0 && r.events.value.log[0] == Some(PhonedHome)
  }

  function KindOf(n: Nic): Option<AddressKind> {
    if n.kind == Some(PrivatePrimaryUnshared) then Some(InternalIP)
    else if n.kind == Some(External) then Some(ExternalIP)
    else None
  }

  function Tagged(kind: AddressKind, ips: seq<string>): (r: seq<Address>)
    ensures |r| == |ips|
  {
    seq(|ips|, i requires 0 <= i < |ips| => Address(kind, ips[i]))
  }

  function NicAddresses(n: Nic): seq<Address> {
    if KindOf(n).Some? then Tagged(KindOf(n).value, n.ips) else []
  }

  function AllNicAddresses(nics: seq<Nic>): seq<Address> {
    if nics == [] then [] else AllNicAddresses(nics[..|nics| - 1]) + NicAddresses(nics[|nics| - 1])
  }

  function Addresses(r: Report): seq<Address> {
    (if r.hostname.Some? then [Address(HostName, r.hostname.value)] else []) + AllNicAddresses(r.nics)
  }

  function SetIf(labels: map<Label, string>, key: Label, value: Option<string>): map<Label, string> {
    if value.Some? then labels[key := value.value] else labels
  }

  function Labelled(labels: map<Label, string>, h: Host): map<Label, string> {
    var a := SetIf(labels, HostnameLabel, h.report.hostname);
    var b := SetIf(a, ZoneLabel, h.partition);
    var c := SetIf(b, RackLabel, if h.report.rack != "" then Some(h.report.rack) else None);
    var d := SetIf(c, AsnLabel, h.report.asn);
    SetIf(d, ChassisLabel, h.report.chassis)
  }

  // ------------------------------------------------------ what a run may do

  predicate PlainPartitions(metal: Metal) {
    forall id | id in metal.hosts :: Lacks(Deref(metal.hosts[id].partition), '/')
  }

  predicate Allocates(metal: Metal, metal': Metal, id: string, host: Host) {
    id !in metal.hosts && id != "" && metal' == metal.(hosts := metal.hosts[id := host])
  }

  predicate Frees(metal: Metal, metal': Metal, id: string) {
    id in metal.hosts && metal' == metal.(hosts := metal.hosts - {id})
  }

  /** What no run changes. */
  predicate SameMachine(a: Machine, b: Machine) {
    && a.cluster == b.cluster && a.name == b.name && a.controlPlane == b.controlPlane
    && a.image == b.image && a.size == b.size && a.secret == b.secret && a.deletion == b.deletion
  }

  function RecordedID(m: Machine): string {
    DecodeProviderID(m.providerID)
  }

  /** The provider id is written once: from then on every run names the same
      machine, and `provisioned` is a latch that implies it. */
  predicate KeepsID(m: Machine, m': Machine) {
    && (m.providerID != "" ==> m'.providerID != "" && RecordedID(m') == RecordedID(m))
    && (m.provisioned ==> m'.provisioned)
    && (m'.provisioned && !m.provisioned ==> m'.providerID != "")
  }

  // ---------------------------------------------------------------- the arms

  /** The request a machine is allocated with. */
  function MachineHost(uid: nat, m: Machine, c: Cluster, net: string, report: Report): Host {
    Host(Worker, m.name.name, c.project, Some(c.partition), [net],
         MachineTags(net, m.cluster, m.name, m.controlPlane) + AdditionalMachineTags(c.partition, m.name),
         m.image, m.size, None, ByMachine(uid), report)
  }

  /** The object once its provider machine is known. */
  function Observed(m: Machine, id: string, h: Host): (r: Machine)
    ensures SameMachine(r, m) && r.finalizer == m.finalizer && r.providerID != ""
    ensures Lacks(Deref(h.partition), '/') ==> RecordedID(r) == id
    ensures var e := h.report.events; var booted := e.Some? && |e.value.log| > 0 && e.value.log[0] == Some(PhonedHome);
      (r.ready <==> m.ready || booted) && (r.provisioned <==> m.provisioned || booted)
  {
    ProviderIDRoundTrip(h.partition, id);
    var healthy, ready := Troubles(h.report) == [], HasPhonedHome(h.report);
    m.(providerID := EncodeProviderID(h.partition, id),
       labels := Labelled(m.labels, h),
       ready := m.ready || ready,
       provisioned := m.provisioned || ready,
       addresses := Addresses(h.report),
       conds := m.conds[MachineCreated := Cond(true, Created)]
                       [MachineHealthy := Cond(healthy, if healthy then Healthy else NotHealthy)]
                       [MachineReady := Cond(ready, if ready then IsReady else NotReady)])
  }

  function ObservedRequeue(h: Host): Option<Time> {
    if Troubles(h.report) == [] && HasPhonedHome(h.report) then None else Some(30 * SECOND)
  }

  predicate MayProvision(m: Machine, c: Cluster) {
    c.netId.Some? && c.endpoint.host != "" && m.secret.Some?
  }

  /** Provisioning of an object whose machine is recorded: it looks, and never
      allocates again, not even when the machine has been deleted externally. */
  function Renew(m: Machine, c: Cluster, metal: Metal, rep: Replies): (o: Outcome)
    requires m.providerID != ""
    ensures SameMachine(o.obj, m) && o.obj.finalizer == m.finalizer && o.metal == metal
    ensures PlainPartitions(metal) ==> KeepsID(m, o.obj)
    ensures o.obj.providerID != ""
  {
    match Find(m, c, metal, rep.find)
    case Absent => Outcome(m.(failure := Some(DeletedExternally)), metal, None, true)
    case LookupError => Outcome(NotCreated(m), metal, None, true)
    case Present(h) => Outcome(Observed(m, RecordedID(m), h), metal, ObservedRequeue(h), false)
  }

  /** The object after the answer to an allocation. */
  function Answered(m: Machine, host: Host, answer: Option<string>, metal: Metal): (o: Outcome)
    requires m.providerID == ""
    ensures SameMachine(o.obj, m) && o.obj.finalizer == m.finalizer && KeepsID(m, o.obj) && o.metal == metal
    ensures (o.failed <==> answer.None?) && (o.obj.providerID == "" <==> o.failed)
    ensures answer.Some? && Lacks(Deref(host.partition), '/') ==> RecordedID(o.obj) == answer.value
  {
    match answer
    case None => Outcome(NotCreated(m), metal, None, true)
    case Some(id) => Outcome(Observed(m, id, host), metal, ObservedRequeue(host), false)
  }

  /** First provisioning. An allocation whose id is not recorded has failed. */
  function Create(uid: nat, m: Machine, c: Cluster, metal: Metal, rep: Replies): (o: Outcome)
    requires m.providerID == "" && c.netId.Some?
    ensures SameMachine(o.obj, m) && o.obj.finalizer == m.finalizer && KeepsID(m, o.obj)
    ensures o.metal == metal ==> o.obj.providerID == ""
    ensures o.metal != metal ==>
      && !rep.alloc.Denied?
      && Allocates(metal, o.metal, rep.alloc.id, MachineHost(uid, m, c, c.netId.value, rep.report))
      && (o.obj.providerID != "" && Lacks(c.partition, '/') ==> RecordedID(o.obj) == rep.alloc.id)
      && (o.obj.providerID == "" <==> o.failed)
  {
    if !rep.secret then Outcome(NotCreated(m), metal, None, true)
    else
      var host := MachineHost(uid, m, c, c.netId.value, rep.report);
      var metal' := AllocateHost(metal, host, rep.alloc);
      assert metal' != metal ==> Allocates(metal, metal', rep.alloc.id, host);
      Answered(m, host, HostAnswer(metal, rep.alloc), metal')
  }

  /** Provisioning: behind three gates, looking up the recorded machine or
      allocating the first one on the cluster's node network. */
  function Reconcile(uid: nat, m: Machine, c: Cluster, metal: Metal, rep: Replies): (o: Outcome)
    ensures SameMachine(o.obj, m) && o.obj.finalizer == m.finalizer
    ensures PlainPartitions(metal) ==> KeepsID(m, o.obj)
    ensures o.metal == metal ==> (m.providerID == "" <==> o.obj.providerID == "")
    ensures o.metal != metal ==>
      && m.providerID == "" && MayProvision(m, c) && !rep.alloc.Denied?
      && Allocates(metal, o.metal, rep.alloc.id, MachineHost(uid, m, c, c.netId.value, rep.report))
      && (o.obj.providerID != "" && Lacks(c.partition, '/') ==> RecordedID(o.obj) == rep.alloc.id)
      && (o.obj.providerID == "" <==> o.failed)
  {
    if !MayProvision(m, c) then Outcome(m, metal, None, true)
    else if m.providerID != "" then Renew(m, c, metal, rep)
    else Create(uid, m, c, metal, rep)
  }

  /** Deletion. It frees only the recorded machine and only in the cluster's
      project; the finalizer goes once that machine is not in the project any
      more, for a control-plane machine not before the grace period is over. */
  function Delete(m: Machine, c: Cluster, metal: Metal, rep: Replies, now: Time): (o: Outcome)
    requires m.deletion.Some?
    ensures SameMachine(o.obj, m) && KeepsID(m, o.obj) && o.obj.providerID == m.providerID
    ensures o.obj.finalizer ==> m.finalizer
    ensures o.metal != metal ==>
      && m.finalizer && m.providerID != "" && Frees(metal, o.metal, RecordedID(m))
      && metal.hosts[RecordedID(m)].project == c.project
    ensures m.finalizer && !o.obj.finalizer ==>
      && (m.controlPlane ==> now > m.deletion.value + GRACE)
      && (m.providerID != "" && RecordedID(m) in o.metal.hosts ==> o.metal.hosts[RecordedID(m)].project != c.project)
  {
    if !m.finalizer then Outcome(m, metal, None, false)
    else match Find(m, c, metal, rep.find)
      case Absent =>
        if !m.controlPlane || m.deletion.value + GRACE < now
        then Outcome(m.(finalizer := false), metal, None, false)
        else Outcome(m, metal, Some(GRACE / 2), false)
      case LookupError => Outcome(NotCreated(m), metal, None, true)
      case Present(h) =>
        var metal' := FreeHost(metal, RecordedID(m), rep.free);
        if !FreeHostSucceeds(metal, RecordedID(m), rep.free) then Outcome(m, metal', None, true)
        else if !m.controlPlane then Outcome(m.(finalizer := false), metal', None, false)
        else Outcome(m, metal', Some(MINUTE), false)
  }

  /** One run, from snapshot to patch. */
  function Run(uid: nat, m: Machine, c: Cluster, metal: Metal, rep: Replies, paused: bool, now: Time): (o: Outcome)
    ensures SameMachine(o.obj, m) && o.metal == metal.(hosts := o.metal.hosts)
    ensures PlainPartitions(metal) ==> KeepsID(m, o.obj)
    ensures o.metal == metal ==> (m.providerID == "" <==> o.obj.providerID == "")
    ensures o.metal != metal ==> m.finalizer && !paused
    ensures o.metal != metal && m.deletion.None? ==>
      && o.obj.finalizer && m.providerID == "" && MayProvision(m, c) && !rep.alloc.Denied?
      && Allocates(metal, o.metal, rep.alloc.id, MachineHost(uid, m, c, c.netId.value, rep.report))
      && (o.obj.providerID != "" && Lacks(c.partition, '/') ==> RecordedID(o.obj) == rep.alloc.id)
      && (o.obj.providerID == "" <==> o.failed)
    ensures o.metal != metal && m.deletion.Some? ==>
      && m.providerID != "" && o.obj.providerID == m.providerID && Frees(metal, o.metal, RecordedID(m))
      && metal.hosts[RecordedID(m)].project == c.project
    ensures m.finalizer && !o.obj.finalizer ==>
      && m.deletion.Some? && !paused
      && (m.controlPlane ==> now > m.deletion.value + GRACE)
      && (m.providerID != "" && RecordedID(m) in o.metal.hosts ==> o.metal.hosts[RecordedID(m)].project != c.project)
    ensures o.obj.finalizer && !m.finalizer ==> m.deletion.None?
  {
    var p := m.(conds := SetPaused(m.conds, paused, NotPaused));
    if paused then Outcome(p, metal, None, false)
    else if p.deletion.Some? then Delete(p, c, metal, rep, now)
    else if !p.finalizer then Outcome(p.(finalizer := true), metal, None, false)
    else Reconcile(uid, p, c, metal, rep)
  }
}

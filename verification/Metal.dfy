/** The metal-api as the controllers see it: networks, ip addresses and hosts
    (machines and firewalls share one id space). Each call takes the reply the
    outside world gives to it, so every outcome of every call is an input. */
module Metal {
  import opened Names
  import opened Store

  /** Reply to an allocation. `Unseen` is an allocation whose answer is lost on
      the way back: the caller sees an error. */
  datatype Grant = Granted(id: string) | Unseen(id: string) | Denied

  /** Reply to a free. */
  datatype Release = Freed | FreedUnseen | Refused

  datatype NicKind = PrivatePrimaryUnshared | External | OtherKind(text: string)
  datatype Nic = Nic(kind: Option<NicKind>, ips: seq<string>)

  datatype Event = PhonedHome | OtherEvent(text: string)
  datatype Events = Events(crashLoop: Option<bool>, failedReclaim: Option<bool>, log: seq<Option<Event>>)

  datatype Liveliness = Alive | OtherState(text: string)

  /** What the provider reports about a host beyond the request it was made by. */
  datatype Report = Report(
    hostname: Option<string>, nics: seq<Nic>, rack: string, asn: Option<string>, chassis: Option<string>,
    liveliness: Option<Liveliness>, events: Option<Events>)

  datatype HostKind = Worker | Firewall

  datatype FirewallEgress = FirewallEgress(comment: string, ports: seq<int>, protocol: string, to: seq<string>)
  datatype FirewallIngress = FirewallIngress(comment: string, ports: seq<int>, protocol: string, from: seq<string>)
  datatype FirewallRules = FirewallRules(egress: seq<FirewallEgress>, ingress: seq<FirewallIngress>)

  /** Who asked for a host; no controller reads it. */
  datatype Origin = ByMachine(uid: nat) | ByDeployment(cluster: Key, deployment: Key, net: string) | Foreign

  /** An allocated host. Hosts without an allocation are absent. */
  datatype Host = Host(
    kind: HostKind, name: string, project: string, partition: Option<string>, networks: seq<string>,
    tags: seq<Tag>, image: string, size: string, rules: Option<FirewallRules>, origin: Origin, report: Report)

  datatype IpKind = Static | Ephemeral

  /** `spentNets` and `spentIps` are names handed out before: the provider does
      not give them out again. `lenient` says whether freeing an absent network
      succeeds. */
  datatype Metal = Metal(
    nets: map<string, string>, ips: map<string, IpKind>, hosts: map<string, Host>,
    defaults: seq<string>, spentNets: set<string>, spentIps: set<string>, lenient: bool)

  predicate Usable(g: Grant, taken: set<string>) {
    !g.Denied? && g.id !in taken && g.id != ""
  }

  function Answer(g: Grant, taken: set<string>): Option<string> {
    if g.Granted? && Usable(g, taken) then Some(g.id) else None
  }

  /** At most the granted name is spent; an answer tells which. */
  predicate Spends(spent: set<string>, spent': set<string>, g: Grant) {
    spent' == spent || (!g.Denied? && g.id !in spent && spent' == spent + {g.id})
  }

  predicate SpendsFor(spent: set<string>, spent': set<string>, g: Grant, id: string) {
    g.Granted? && g.id == id && id != "" && id !in spent && id in spent' && spent' == spent + {id}
  }

  // ----------------------------------------------------------------- networks

  function AllocateNetwork(m: Metal, project: string, g: Grant): Metal {
    if Usable(g, m.spentNets + m.nets.Keys)
    then m.(nets := m.nets[g.id := project], spentNets := m.spentNets + {g.id})
    else m
  }

  function NetworkAnswer(m: Metal, g: Grant): Option<string> {
    Answer(g, m.spentNets + m.nets.Keys)
  }

  function FreeNetwork(m: Metal, net: string, r: Release): Metal {
    if r.Refused? then m else m.(nets := m.nets - {net})
  }

  predicate FreeNetworkSucceeds(m: Metal, net: string, r: Release) {
    r.Freed? && (net in m.nets || m.lenient)
  }

  // ------------------------------------------------------------- ip addresses

  function AllocateIP(m: Metal, g: Grant): Metal {
    if Usable(g, m.spentIps + m.ips.Keys)
    then m.(ips := m.ips[g.id := Ephemeral], spentIps := m.spentIps + {g.id})
    else m
  }

  function IPAnswer(m: Metal, g: Grant): Option<string> {
    Answer(g, m.spentIps + m.ips.Keys)
  }

  datatype FoundIP = NoIP | AnIP(kind: IpKind) | IPError

  function FindIP(m: Metal, ip: string, answered: bool): FoundIP {
    if !answered then IPError else if ip in m.ips then AnIP(m.ips[ip]) else NoIP
  }

  function FreeIP(m: Metal, ip: string, r: Release): Metal {
    if r.Refused? then m else m.(ips := m.ips - {ip})
  }

  // -------------------------------------------------------------------- hosts

  function AllocateHost(m: Metal, host: Host, g: Grant): Metal {
    if Usable(g, m.hosts.Keys) then m.(hosts := m.hosts[g.id := host]) else m
  }

  function HostAnswer(m: Metal, g: Grant): Option<string> {
    Answer(g, m.hosts.Keys)
  }

  datatype FoundHost = NoHost | AHost(host: Host) | HostError

  function FindHost(m: Metal, id: string, answered: bool): FoundHost {
    if !answered then HostError else if id in m.hosts then AHost(m.hosts[id]) else NoHost
  }

  function FreeHost(m: Metal, id: string, r: Release): Metal {
    if r.Refused? then m else m.(hosts := m.hosts - {id})
  }

  predicate FreeHostSucceeds(m: Metal, id: string, r: Release) {
    r.Freed? && id in m.hosts
  }

  // ---------------------------------------------------------- firewall search

  /** Partition, project and the set of tags, as in a firewall search. */
  predicate Matches(h: Host, partition: string, project: string, tags: seq<Tag>) {
    h.kind == Firewall && h.project == project && h.partition == Some(partition) && HasAll(h.tags, tags)
  }

  function Matching(m: Metal, partition: string, project: string, tags: seq<Tag>): set<string> {
    set id | id in m.hosts && Matches(m.hosts[id], partition, project, tags)
  }

  function Elems(s: seq<string>): set<string> {
    set x | x in s
  }

  predicate NoDuplicates(s: seq<string>) {
    forall i, j | 0 <= i < j < |s| :: s[i] != s[j]
  }

  /** The search answers with all matching firewalls, in an order of the
      provider's choosing; any other reply is a failed call. */
  predicate Lists(order: seq<string>, ids: set<string>) {
    NoDuplicates(order) && Elems(order) == ids
  }
}

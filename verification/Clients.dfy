/** The two services the reconcilers work on, as objects they share: the client of
    the metal-api and the client of the Kubernetes API server. A reply says how the
    outside world answers a call. */
module Clients {
  import opened Names
  import opened Store
  import opened Metal

  class MetalApi {
    var networks: map<string, string>
    var ips: map<string, IpKind>
    var hosts: map<string, Host>
    var spentNetworks: set<string>
    var spentIps: set<string>
    const defaults: seq<string>
    const lenient: bool

    constructor (m: Metal)
      ensures View() == m
    {
      networks, ips, hosts := m.nets, m.ips, m.hosts;
      spentNetworks, spentIps, defaults, lenient := m.spentNets, m.spentIps, m.defaults, m.lenient;
    }

    function View(): Metal
      reads this
    {
      Metal(networks, ips, hosts, defaults, spentNetworks, spentIps, lenient)
    }

    method FindMachine(id: string, answered: bool) returns (r: FoundHost)
      ensures r == FindHost(View(), id, answered)
    {
      if !answered { return HostError; }
      if id in hosts { r := AHost(hosts[id]); } else { r := NoHost; }
    }

    /** Machines and firewalls are allocated by the same bookkeeping. */
    method Allocate(host: Host, g: Grant) returns (id: Option<string>)
      modifies this`hosts
      ensures View() == AllocateHost(old(View()), host, g) && id == HostAnswer(old(View()), g)
    {
      id := None;
      if !g.Denied? && g.id !in hosts && g.id != "" {
        hosts := hosts[g.id := host];
        if g.Granted? { id := Some(g.id); }
      }
    }

    method FreeMachine(id: string, r: Release) returns (ok: bool)
      modifies this`hosts
      ensures View() == FreeHost(old(View()), id, r) && ok == FreeHostSucceeds(old(View()), id, r)
    {
      ok := r.Freed? && id in hosts;
      if !r.Refused? { hosts := hosts - {id}; }
    }

    /** The search answers with the hosts that match, in the order it chooses; a
        wrong list counts as a failed call. */
    method FindFirewalls(partition: string, project: string, tags: seq<Tag>, search: Option<seq<string>>)
      returns (r: Option<seq<string>>)
      ensures r == if search.Some? && Lists(search.value, Matching(View(), partition, project, tags)) then search
          else None
    {
      r := None;
      if search.Some? && Lists(search.value, Matching(View(), partition, project, tags)) {
        r := search;
      }
    }

    method AllocateNet(project: string, g: Grant) returns (id: Option<string>)
      modifies this`networks, this`spentNetworks
      ensures View() == AllocateNetwork(old(View()), project, g) && id == NetworkAnswer(old(View()), g)
    {
      id := None;
      if !g.Denied? && g.id !in spentNetworks + networks.Keys && g.id != "" {
        networks, spentNetworks := networks[g.id := project], spentNetworks + {g.id};
        if g.Granted? { id := Some(g.id); }
      }
    }

    method FreeNet(id: string, r: Release) returns (ok: bool)
      modifies this`networks
      ensures View() == FreeNetwork(old(View()), id, r) && ok == FreeNetworkSucceeds(old(View()), id, r)
    {
      ok := r.Freed? && (id in networks || lenient);
      if !r.Refused? { networks := networks - {id}; }
    }

    method FindDefaultNetworks(answered: bool) returns (r: Option<seq<string>>)
      ensures r == if answered then Some(defaults) else None
    {
      r := if answered then Some(defaults) else None;
    }

    method AllocateAddress(g: Grant) returns (ip: Option<string>)
      modifies this`ips, this`spentIps
      ensures View() == AllocateIP(old(View()), g) && ip == IPAnswer(old(View()), g)
    {
      ip := None;
      if !g.Denied? && g.id !in spentIps + ips.Keys && g.id != "" {
        ips, spentIps := ips[g.id := Ephemeral], spentIps + {g.id};
        if g.Granted? { ip := Some(g.id); }
      }
    }

    method FindAddress(ip: string, answered: bool) returns (r: FoundIP)
      ensures r == FindIP(View(), ip, answered)
    {
      if !answered { return IPError; }
      if ip in ips { r := AnIP(ips[ip]); } else { r := NoIP; }
    }

    method FreeAddress(ip: string, r: Release) returns (ok: bool)
      modifies this`ips
      ensures View() == FreeIP(old(View()), ip, r) && ok == r.Freed?
    {
      ok := r.Freed?;
      if !r.Refused? { ips := ips - {ip}; }
    }
  }

  class KubeClient {
    var clusters: map<Key, Cluster>
    var machines: map<nat, Machine>
    var deployments: map<Key, Deployment>
    var templates: map<Key, Template>

    constructor (k: Kube)
      ensures View() == k
    {
      clusters, machines, deployments, templates := k.clusters, k.machines, k.deployments, k.templates;
    }

    function View(): Kube
      reads this
    {
      Kube(clusters, machines, deployments, templates)
    }

    /** Listing with limit one: is any machine object labelled for the cluster? */
    method AnyMachine(cluster: Key, answered: bool) returns (r: Option<bool>)
      ensures r == if answered then Some(MachinesOf(View(), cluster) != {}) else None
    {
      r := if answered then Some(MachinesOf(View(), cluster) != {}) else None;
    }

    method GetDeployment(k: Key) returns (r: Option<Deployment>)
      ensures r == if k in deployments then Some(deployments[k]) else None
    {
      r := if k in deployments then Some(deployments[k]) else None;
    }

    /** One controlling owner only: the update of a deployment that another
        cluster controls is rejected. */
    method UpdateOwner(k: Key, owner: Key, accepted: bool) returns (ok: bool)
      requires k in deployments
      modifies this`deployments
      ensures ok == (accepted && old(deployments)[k].owner.None?)
      ensures deployments == if ok
        then old(deployments)[k := old(deployments)[k].(owner := Some(owner), clusterLabel := Some(owner.name))]
        else old(deployments)
    {
      ok := accepted && deployments[k].owner.None?;
      if ok {
        deployments := deployments[k := deployments[k].(owner := Some(owner), clusterLabel := Some(owner.name))];
      }
    }

    method DeleteDeployment(k: Key, now: Time, accepted: bool) returns (ok: bool)
      requires k in deployments
      modifies this`deployments
      ensures ok == accepted
      ensures deployments == if ok then old(deployments)[k := old(deployments)[k].(deletion := Some(now))]
                             else old(deployments)
    {
      ok := accepted;
      if ok { deployments := deployments[k := deployments[k].(deletion := Some(now))]; }
    }

    method PatchTemplateOwners(k: Key, owners: set<Key>, accepted: bool) returns (ok: bool)
      modifies this`templates
      ensures ok == (accepted && k in old(templates))
      ensures templates == if ok then old(templates)[k := old(templates)[k].(owners := owners)] else old(templates)
    {
      ok := accepted && k in templates;
      if ok { templates := templates[k := templates[k].(owners := owners)]; }
    }

    /** The final patch of a run, applied whole or lost. */
    method PatchCluster(k: Key, before: Cluster, after: Cluster, applied: bool)
      requires k in clusters
      modifies this`clusters
      ensures clusters == if applied then old(clusters)[k := MergeCluster(old(clusters)[k], before, after)]
                          else old(clusters)
    {
      if applied { clusters := clusters[k := MergeCluster(clusters[k], before, after)]; }
    }

    method PatchMachine(u: nat, before: Machine, after: Machine, applied: bool)
      requires u in machines
      modifies this`machines
      ensures machines == if applied then old(machines)[u := MergeMachine(old(machines)[u], before, after)]
                          else old(machines)
    {
      if applied { machines := machines[u := MergeMachine(machines[u], before, after)]; }
    }

    method PatchDeployment(k: Key, before: Deployment, after: Deployment, applied: bool)
      requires k in deployments
      modifies this`deployments
      ensures deployments == if applied
        then old(deployments)[k := MergeDeployment(old(deployments)[k], before, after)] else old(deployments)
    {
      if applied { deployments := deployments[k := MergeDeployment(deployments[k], before, after)]; }
    }
  }
}

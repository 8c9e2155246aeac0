/** Strings the three controllers exchange through the provider: qualified
    names, tags and the provider id stored on a machine. */
module Names {

  datatype Option<+T> = None | Some(value: T)

  /** A namespaced name, as Kubernetes keys its objects. */
  datatype Key = Key(ns: string, name: string)

  function Deref(s: Option<string>): string {
    if s.Some? then s.value else ""
  }

  // ---------------------------------------------------------------- cutting

  predicate Lacks(s: string, c: char) {
    c !in s
  }

  /** The text behind the first `c` of `s`; empty when there is no `c`. */
  function After(s: string, c: char): string {
    if s == [] then ""
    else if s[0] == c then s[1..]
    else After(s[1..], c)
  }

  function TrimPrefix(s: string, p: string): string {
    if p <= s then s[|p|..] else s
  }

  /** Cutting at a separator gives the tail back exactly when the head has no
      separator of its own; otherwise what comes back is longer. */
  lemma {:induction false} AfterJoin(head: string, c: char, tail: string)
    ensures Lacks(head, c) ==> After(head + [c] + tail, c) == tail
    ensures !Lacks(head, c) ==> |After(head + [c] + tail, c)| > |tail|
  {
    var s := head + [c] + tail;
    if head == [] {
      assert s[1..] == tail;
    } else if head[0] == c {
      assert s[1..] == head[1..] + [c] + tail;
    } else {
      assert s[1..] == head[1..] + [c] + tail;
      assert Lacks(head, c) <==> Lacks(head[1..], c) by {
        assert head == [head[0]] + head[1..];
      }
      AfterJoin(head[1..], c, tail);
    }
  }

  // ------------------------------------------------------------ provider id

  const SCHEME := "metal://"

  function EncodeProviderID(partition: Option<string>, id: string): string {
    SCHEME + Deref(partition) + "/" + id
  }

  function DecodeProviderID(providerID: string): string {
    After(TrimPrefix(providerID, SCHEME), '/')
  }

  /** Decoding undoes encoding, for ids with or without slashes, exactly when
      the partition is free of slashes. */
  lemma ProviderIDRoundTrip(partition: Option<string>, id: string)
    ensures DecodeProviderID(EncodeProviderID(partition, id)) == id <==> Lacks(Deref(partition), '/')
    ensures EncodeProviderID(partition, id) != ""
  {
    var e := EncodeProviderID(partition, id);
    assert e[|SCHEME|..] == Deref(partition) + ['/'] + id;
    assert SCHEME <= e;
    AfterJoin(Deref(partition), '/', id);
  }

  lemma {:induction false} AfterNothing(s: string, c: char)
    requires Lacks(s, c)
    ensures After(s, c) == ""
  {
    if s != [] {
      assert s[0] in s && forall x | x in s[1..] :: x in s;
      AfterNothing(s[1..], c);
    }
  }

  /** Whatever a user has stored: with or without the scheme, decoding gives the text
      behind the first slash, and nothing where there is none. */
  lemma DecodesBehindFirstSlash(head: string, tail: string)
    requires Lacks(head, '/')
    ensures DecodeProviderID("metal://" + head + "/" + tail) == tail && DecodeProviderID("metal://" + head) == ""
    ensures head != "metal:" ==> DecodeProviderID(head + "/" + tail) == tail
    ensures DecodeProviderID(head) == ""
  {
    AfterJoin(head, '/', tail);
    AfterNothing(head, '/');
    var full, short, bare := "metal://" + head + "/" + tail, "metal://" + head, head + "/" + tail;
    assert full[|SCHEME|..] == head + "/" + tail && SCHEME <= full;
    assert short[|SCHEME|..] == head && SCHEME <= short;
    if SCHEME <= bare {
      assert bare[6] == SCHEME[6] == '/' && forall i | 0 <= i < 6 :: bare[i] == SCHEME[i] && bare[i] != '/';
      assert bare[|head|] == '/';
      assert |head| == 6 && head == bare[..6] == "metal:";
    }
    assert SCHEME[6] == '/';
  }

  /** Two stored ids are equal only if they name the same machine. */
  lemma ProviderIDInjective(p: Option<string>, id: string, q: Option<string>, id': string)
    requires Lacks(Deref(p), '/') && Lacks(Deref(q), '/')
    requires EncodeProviderID(p, id) == EncodeProviderID(q, id')
    ensures id == id' && Deref(p) == Deref(q)
  {
    ProviderIDRoundTrip(p, id);
    ProviderIDRoundTrip(q, id');
    var e := EncodeProviderID(p, id);
    var n := |Deref(p)|;
    assert e[|SCHEME|..][..n] == Deref(p);
    assert e[|SCHEME|..][..n] == Deref(q);
  }

  // ---------------------------------------------------------- qualified name

  function FullName(k: Key): string {
    k.ns + "." + k.name
  }

  /** Namespaces are DNS labels, so they hold no dot. */
  predicate DnsLabel(ns: string) {
    Lacks(ns, '.')
  }

  lemma FullNameInjective(a: Key, b: Key)
    requires DnsLabel(a.ns) && DnsLabel(b.ns)
    requires FullName(a) == FullName(b)
    ensures a == b
  {
    AfterJoin(a.ns, '.', a.name);
    AfterJoin(b.ns, '.', b.name);
    assert |a.ns| == |b.ns|;
    assert FullName(a)[..|a.ns|] == a.ns;
    assert FullName(b)[..|b.ns|] == b.ns;
  }

  /** Without the dot rule two different objects share one qualified name. */
  lemma FullNameNeedsDotFreeNamespaces()
    ensures exists a: Key, b: Key :: a != b && FullName(a) == FullName(b)
  {
    var a, b := Key("x.y", "z"), Key("x", "y.z");
    assert FullName(a) == FullName(b) == "x.y.z";
  }

  // -------------------------------------------------------------------- tags

  datatype TagKey =
    | ClusterID | ClusterResource | MachineResource | DeploymentResource
    | ManagedBy | Purpose | TopologyZone | Hostname

  datatype Tag = Tag(key: TagKey, value: string)

  const GROUP := "metal-stack.infrastructure.cluster.x-k8s.io/"

  function KeyText(k: TagKey): string {
    match k
    case ClusterID => "cluster.metal-stack.io/id"
    case ClusterResource => GROUP + "cluster-resource"
    case MachineResource => GROUP + "machine-resource"
    case DeploymentResource => GROUP + "firewall-deployment-resource"
    case ManagedBy => "firewall.metal-stack.io/managed-by"
    case Purpose => GROUP + "purpose"
    case TopologyZone => "topology.kubernetes.io/zone"
    case Hostname => "kubernetes.io/hostname"
  }

  /** The text of a tag, as it travels to the provider. */
  function Render(t: Tag): string {
    KeyText(t.key) + "=" + t.value
  }

  lemma GroupHasNoEquals()
    ensures Lacks(GROUP, '=')
  {}

  lemma KeyTextsHaveNoEquals(k: TagKey)
    ensures Lacks(KeyText(k), '=')
  {
    if k == MachineResource || k == Purpose || k == ClusterResource || k == DeploymentResource {
      GroupHasNoEquals();
      GroupKeysHaveNoEquals(k);
    } else {
      PlainKeysHaveNoEquals(k);
    }
  }

  lemma GroupKeysHaveNoEquals(k: TagKey)
    requires k == MachineResource || k == Purpose || k == ClusterResource || k == DeploymentResource
    requires Lacks(GROUP, '=')
    ensures Lacks(KeyText(k), '=')
  {}

  lemma PlainKeysHaveNoEquals(k: TagKey)
    requires k == ClusterID || k == ManagedBy || k == TopologyZone || k == Hostname
    ensures Lacks(KeyText(k), '=')
  {}

  lemma KeyTextsDiffer(k: TagKey, l: TagKey)
    requires k != l
    ensures KeyText(k) != KeyText(l)
  {
    var n := |GROUP|;
    assert KeyText(ClusterResource)[n..] == "cluster-resource";
    assert KeyText(MachineResource)[n..] == "machine-resource";
    assert KeyText(DeploymentResource)[n..] == "firewall-deployment-resource";
    assert KeyText(Purpose)[n..] == "purpose";
    assert GROUP[0] == 'm';
  }

  /** Distinct tags have distinct texts, whatever their values hold. */
  lemma RenderInjective(a: Tag, b: Tag)
    requires Render(a) == Render(b)
    ensures a == b
  {
    KeyTextsHaveNoEquals(a.key);
    KeyTextsHaveNoEquals(b.key);
    AfterJoin(KeyText(a.key), '=', a.value);
    AfterJoin(KeyText(b.key), '=', b.value);
    assert |KeyText(a.key)| == |KeyText(b.key)|;
    assert KeyText(a.key) == Render(a)[..|KeyText(a.key)|] == KeyText(b.key);
    if a.key != b.key {
      KeyTextsDiffer(a.key, b.key);
    }
  }

  /** The tags a firewall is created with and later searched by. */
  function FirewallTags(net: string, cluster: Key, deployment: Key): seq<Tag> {
    [ Tag(ClusterID, net), Tag(ClusterResource, FullName(cluster)),
      Tag(ManagedBy, "cluster-api-provider-metal-stack"), Tag(DeploymentResource, FullName(deployment)) ]
  }

  function MachineTags(net: string, cluster: Key, machine: Key, controlPlane: bool): seq<Tag> {
    [ Tag(ClusterID, net), Tag(ClusterResource, FullName(cluster)), Tag(MachineResource, FullName(machine)) ]
    + if controlPlane then [Tag(Purpose, "control-plane")] else []
  }

  function AdditionalMachineTags(partition: string, machine: Key): seq<Tag> {
    [ Tag(TopologyZone, partition), Tag(Hostname, machine.name) ]
  }

  /** A tag search returns the resources that carry every tag asked for. */
  predicate HasAll(tags: seq<Tag>, wanted: seq<Tag>) {
    forall i | 0 <= i < |wanted| :: wanted[i] in tags
  }

  function RenderAll(tags: seq<Tag>): seq<string> {
    seq(|tags|, i requires 0 <= i < |tags| => Render(tags[i]))
  }

  /** Searching on the texts finds the same resources as searching on the tags. */
  lemma SearchOnTexts(tags: seq<Tag>, wanted: seq<Tag>)
    ensures HasAll(tags, wanted)
       <==> forall i | 0 <= i < |wanted| :: RenderAll(wanted)[i] in RenderAll(tags)
  {
    forall i | 0 <= i < |wanted|
      ensures wanted[i] in tags <==> RenderAll(wanted)[i] in RenderAll(tags)
    {
      if wanted[i] in tags {
        var j :| 0 <= j < |tags| && tags[j] == wanted[i];
        assert RenderAll(tags)[j] == RenderAll(wanted)[i];
      }
      if RenderAll(wanted)[i] in RenderAll(tags) {
        var j :| 0 <= j < |tags| && RenderAll(tags)[j] == RenderAll(wanted)[i];
        RenderInjective(tags[j], wanted[i]);
      }
    }
  }

  /** Tag isolation: a search by one deployment's tags finds a firewall exactly
      when that firewall was created by the same deployment of the same cluster
      on the same node network. */
  lemma FirewallTagsIsolate(net: string, c: Key, d: Key, net': string, c': Key, d': Key)
    requires DnsLabel(c.ns) && DnsLabel(d.ns) && DnsLabel(c'.ns) && DnsLabel(d'.ns)
    ensures HasAll(FirewallTags(net, c, d), FirewallTags(net', c', d'))
       <==> net == net' && c == c' && d == d'
  {
    var have, want := FirewallTags(net, c, d), FirewallTags(net', c', d');
    if HasAll(have, want) {
      assert want[0] in have && want[1] in have && want[3] in have;
      FullNameInjective(c, c');
      FullNameInjective(d, d');
    }
  }

  /** Machine tags identify the machine object: all tags of one are among those of
      another exactly when it is the same object on the same network, and a
      control-plane machine only answers for a control-plane machine. */
  lemma MachineTagsIsolate(net: string, c: Key, m: Key, cp: bool, part: string, net': string, c': Key, m': Key,
                           cp': bool)
    requires DnsLabel(c.ns) && DnsLabel(m.ns) && DnsLabel(c'.ns) && DnsLabel(m'.ns)
    ensures HasAll(MachineTags(net, c, m, cp) + AdditionalMachineTags(part, m), MachineTags(net', c', m', cp'))
       <==> net == net' && c == c' && m == m' && (cp' ==> cp)
  {
    var have, want := MachineTags(net, c, m, cp) + AdditionalMachineTags(part, m), MachineTags(net', c', m', cp');
    assert want[0] == Tag(ClusterID, net') && want[1] == Tag(ClusterResource, FullName(c'))
        && want[2] == Tag(MachineResource, FullName(m'));
    if HasAll(have, want) {
      assert want[0] in have && want[1] in have && want[2] in have;
      FullNameInjective(c, c');
      FullNameInjective(m, m');
      if cp' {
        assert want[3] in have;
      }
    }
  }

  /** No machine ever answers a search for a firewall deployment. */
  lemma MachineTagsNeverMatch(net: string, c: Key, m: Key, cp: bool, part: string, net': string, c': Key, d: Key)
    ensures !HasAll(MachineTags(net, c, m, cp) + AdditionalMachineTags(part, m), FirewallTags(net', c', d))
  {
    assert FirewallTags(net', c', d)[3].key == DeploymentResource;
  }
}

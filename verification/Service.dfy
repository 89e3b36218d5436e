/** A Service, its nodes and its settings, and the resources the provider wants for them. */
module Service {
  import opened Basics
  import opened CloudState
  import opened Affinity
  import Ranges

  datatype AddressKind = InternalIP | ExternalIP | OtherAddress

  datatype NodeAddress = NodeAddress(kind: AddressKind, address: string)

  datatype Node = Node(name: string, addresses: seq<NodeAddress>)

  datatype Port = Port(key: Key, nodePort: int)

  datatype Spec = Spec(namespace: string, name: string, annotations: map<string, string>, ports: seq<Port>,
                       sourceRanges: seq<string>, clientIP: bool, timeout: Option<int32>,
                       localPolicy: bool, healthCheckNodePort: int)

  /** The cloud configuration merged with the Service's annotations. */
  datatype Settings = Settings(balancerId: string, subnet: string, zones: seq<string>, algorithm: string,
                               eipIds: seq<string>, eipBandwidth: int, eipKeep: bool, idle: int,
                               probing: bool, delay: int, timeout: int, retries: int,
                               probeKind: string, probePath: string, probeVerb: string,
                               vpc: string, flavor: string, eipType: string)

  /** Everything one reconciliation of one Service on one load balancer depends on. */
  datatype Config = Config(lb: Id, name: string, subnet: string, settings: Settings, service: Spec, nodes: seq<Node>)
  {
    function Ports(): seq<Port> { service.ports }

    function Whitelist(): seq<string> { Ranges.Normalized(service.sourceRanges) }

    function Wanted(): set<Key> { set p | p in service.ports :: p.key }
  }

  /** The name of the listener, pool, monitor and IP group of one port. */
  function ResourceName(base: string, key: Key): string {
    Cut(base + "_" + key.proto + "_" + Decimal(key.port), MAX_NAME)
  }

  // ----- members -----

  /** The first non-empty address of a kind, or "". */
  function FirstOf(kind: AddressKind, addresses: seq<NodeAddress>): string {
    if addresses == [] then ""
    else if addresses[0].kind == kind && addresses[0].address != "" then addresses[0].address
    else FirstOf(kind, addresses[1..])
  }

  function AddressOf(node: Node): Option<string> {
    var internal, external := FirstOf(InternalIP, node.addresses), FirstOf(ExternalIP, node.addresses);
    if internal != "" then Some(internal) else if external != "" then Some(external) else None
  }

  /** The usable nodes by member key; a later node with the same address wins. */
  function WantedNodes(nodes: seq<Node>, nodePort: int): (m: map<MemberKey, Node>)
    ensures forall k :: k in m ==> k.port == nodePort && AddressOf(m[k]) == Some(k.address)
  {
    if nodes == [] then map[]
    else
      var before := WantedNodes(nodes[..|nodes| - 1], nodePort);
      var node := nodes[|nodes| - 1];
      var address := AddressOf(node);
      if address.Some? then before[MemberKey(address.value, nodePort) := node] else before
  }

  /** Exactly the usable nodes have a key. */
  lemma {:induction false} WantedIffUsable(nodes: seq<Node>, nodePort: int, k: MemberKey)
    ensures k in WantedNodes(nodes, nodePort) <==>
            k.port == nodePort && exists i :: 0 <= i < |nodes| && AddressOf(nodes[i]) == Some(k.address)
    decreases |nodes|
  {
    hide AddressOf;
    if nodes != [] {
      var n := |nodes| - 1;
      var before := nodes[..n];
      WantedIffUsable(before, nodePort, k);
      assert forall i :: 0 <= i < n ==> before[i] == nodes[i];
    }
  }

  /** The node wanted for a key is the last one with its address. */
  lemma {:induction false} LastNodeWins(nodes: seq<Node>, nodePort: int, k: MemberKey) returns (i: nat)
    requires k in WantedNodes(nodes, nodePort)
    ensures i < |nodes| && nodes[i] == WantedNodes(nodes, nodePort)[k] && AddressOf(nodes[i]) == Some(k.address)
    ensures forall j :: i < j < |nodes| ==> AddressOf(nodes[j]) != Some(k.address)
    decreases |nodes|
  {
    hide AddressOf;
    var n := |nodes| - 1;
    if AddressOf(nodes[n]) == Some(k.address) {
      i := n;
    } else {
      i := LastNodeWins(nodes[..n], nodePort, k);
    }
  }

  function WantedKeys(cfg: Config, p: Port): set<MemberKey> { WantedNodes(cfg.nodes, p.nodePort).Keys }

  function WantedMember(cfg: Config, p: Port, key: MemberKey): Member
    requires key in WantedKeys(cfg, p)
  {
    Member(key, Cut(WantedNodes(cfg.nodes, p.nodePort)[key].name, MAX_NAME), cfg.subnet)
  }

  function KeysOf(ms: map<Id, Member>): set<MemberKey> {
    set id | id in ms :: ms[id].key
  }

  predicate UniqueMembers(ms: map<Id, Member>) {
    forall a, b :: a in ms && b in ms && a != b ==> ms[a].key != ms[b].key
  }

  // ----- pool, monitor, whitelist -----

  function PersistenceFor(cfg: Config): Option<Persistence> {
    DesiredPersistence(cfg.service.clientIP, cfg.service.timeout)
  }

  /** Algorithm and, when affinity is on, persistence are as wanted; persistence is never switched off. */
  predicate PoolTuned(cfg: Config, pool: Pool) {
    && pool.algorithm == cfg.settings.algorithm
    && (PersistenceFor(cfg).Some? ==> pool.persistence == PersistenceFor(cfg))
  }

  function ProbeFor(cfg: Config, p: Port): Probe {
    var s := cfg.settings;
    if p.key.proto == "UDP" then Probe("UDP_CONNECT", s.delay, s.timeout, s.retries, "", "", 0)
    else if cfg.service.localPolicy && cfg.service.healthCheckNodePort > 0 then
      Probe("HTTP", s.delay, s.timeout, s.retries, "/healthz", "GET", cfg.service.healthCheckNodePort)
    else if IsHttp(s.probeKind) then
      Probe(s.probeKind, s.delay, s.timeout, s.retries,
            if s.probePath == "" then "/" else s.probePath, if s.probeVerb == "" then "GET" else s.probeVerb, 0)
    else Probe("TCP", s.delay, s.timeout, s.retries, "", "", 0)
  }

  predicate MonitorSettled(cfg: Config, p: Port, m: Option<Monitor>) {
    if cfg.settings.probing then m.Some? && m.value.probe == ProbeFor(cfg, p) else m.None?
  }

  /** The group's whitelist is attached, enabled, named for the port and accepted as current. */
  predicate Whitelisted(cfg: Config, p: Port, t: Tree) {
    && t.group.Some? && t.group.value.name == ResourceName(cfg.name, p.key)
    && t.listener.enabled == Some(true) && t.listener.kind == "white"
    && Ranges.SameLengthCover(t.group.value.ips, cfg.Whitelist())
  }

  /** No whitelist of ours is in force. */
  predicate Open(cfg: Config, p: Port, t: Tree) {
    !(t.group.Some? && t.group.value.name == ResourceName(cfg.name, p.key) && t.listener.enabled == Some(true))
  }

  predicate AccessSettled(cfg: Config, p: Port, t: Tree) {
    if cfg.Whitelist() != [] then Whitelisted(cfg, p, t) else Open(cfg, p, t)
  }

  /** The listener, pool, monitor and whitelist of port `p` are as the Service wants them, whatever the nodes. */
  predicate Furnished(cfg: Config, p: Port, t: Tree) {
    && t.listener.lb == cfg.lb && t.listener.key == p.key
    && (cfg.settings.idle > 0 ==> t.listener.idle == cfg.settings.idle)
    && t.pool.Some? && PoolTuned(cfg, t.pool.value)
    && MonitorSettled(cfg, p, t.monitor)
    && AccessSettled(cfg, p, t)
  }

  /** All of it, and exactly the wanted members. */
  predicate Settled(cfg: Config, p: Port, t: Tree) {
    Furnished(cfg, p, t) && KeysOf(t.members) == WantedKeys(cfg, p)
  }

  /** What the caller of the reconciler guarantees about a Service, its settings and its name. */
  predicate Sound(cfg: Config) {
    && |cfg.name| < MAX_NAME
    && (forall i, j :: 0 <= i < j < |cfg.service.ports| ==> cfg.service.ports[i].key != cfg.service.ports[j].key)
    && cfg.settings.algorithm != "" && cfg.settings.idle >= 0
    && cfg.settings.delay > 0 && cfg.settings.timeout > 0 && cfg.settings.retries > 0
  }

  /** A resource made for a Service passes the Service's own prefix test, even when its name is cut, exactly when the
      base name leaves room for the separator: from 255 bytes on, the cut removes it. */
  lemma OwnershipIff(base: string, key: Key)
    ensures Own(base, ResourceName(base, key)) <==> |base| < MAX_NAME
  {
    var full := base + "_" + key.proto + "_" + Decimal(key.port);
    assert base + "_" <= full;
  }
}

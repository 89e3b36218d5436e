/** What a Service asks for, said once more without the functions that compute it: addresses, members, persistence,
    probes, whitelists, the state that serves all ports, and what each request says. */
module Meaning {
  import opened Basics
  import opened CloudState
  import opened Affinity
  import opened Service
  import opened Plan

  // ----- the address of a node -----

  /** The first non-empty address of the kind is at position `i`. */
  predicate FirstAt(node: Node, kind: AddressKind, i: int) {
    && 0 <= i < |node.addresses| && node.addresses[i].kind == kind && node.addresses[i].address != ""
    && forall j :: 0 <= j < i ==> node.addresses[j].kind != kind || node.addresses[j].address == ""
  }

  predicate Lacks(node: Node, kind: AddressKind) {
    forall j :: 0 <= j < |node.addresses| ==> node.addresses[j].kind != kind || node.addresses[j].address == ""
  }

  /** A member for the node gets its first internal address, or else its first external one. */
  ghost predicate Picks(node: Node, address: string) {
    || (exists i :: FirstAt(node, InternalIP, i) && node.addresses[i].address == address)
    || (Lacks(node, InternalIP) && exists i :: FirstAt(node, ExternalIP, i) && node.addresses[i].address == address)
  }

  lemma {:induction false} FirstFound(addresses: seq<NodeAddress>, kind: AddressKind) returns (i: nat)
    ensures FirstOf(kind, addresses) != "" ==>
              FirstAt(Node("", addresses), kind, i) && addresses[i].address == FirstOf(kind, addresses)
    ensures FirstOf(kind, addresses) == "" ==> Lacks(Node("", addresses), kind)
    decreases |addresses|
  {
    i := 0;
    if addresses != [] && !(addresses[0].kind == kind && addresses[0].address != "") {
      var j := FirstFound(addresses[1..], kind);
      i := j + 1;
      assert forall k :: 0 < k < |addresses| ==> addresses[k] == addresses[1..][k - 1];
    }
  }

  lemma FirstIsOnly(node: Node, kind: AddressKind, i: int, j: int)
    requires FirstAt(node, kind, i) && FirstAt(node, kind, j)
    ensures i == j
  {
  }

  lemma OfAnyName(node: Node, kind: AddressKind, i: int)
    ensures FirstAt(node, kind, i) <==> FirstAt(Node("", node.addresses), kind, i)
    ensures Lacks(node, kind) <==> Lacks(Node("", node.addresses), kind)
  {
  }

  /** The address in use is the one picked, and there is none exactly for a node without either. */
  lemma AddressIsPicked(node: Node, address: string)
    ensures AddressOf(node) == Some(address) <==> Picks(node, address)
    ensures AddressOf(node) == None <==> Lacks(node, InternalIP) && Lacks(node, ExternalIP)
  {
    hide FirstOf;
    var i := FirstFound(node.addresses, InternalIP);
    var e := FirstFound(node.addresses, ExternalIP);
    OfAnyName(node, InternalIP, i);
    OfAnyName(node, ExternalIP, e);
    if k :| FirstAt(node, InternalIP, k) && node.addresses[k].address == address {
      if FirstAt(node, InternalIP, i) { FirstIsOnly(node, InternalIP, i, k); }
    }
    if k :| FirstAt(node, ExternalIP, k) && node.addresses[k].address == address {
      if FirstAt(node, ExternalIP, e) { FirstIsOnly(node, ExternalIP, e, k); }
    }
  }

  // ----- members -----

  /** The key of a member that one of the nodes gives rise to. */
  ghost predicate KeyMeant(nodes: seq<Node>, nodePort: int, k: MemberKey) {
    k.port == nodePort && exists i :: 0 <= i < |nodes| && Picks(nodes[i], k.address)
  }

  /** Members are exactly those of the nodes, whatever their names. */
  ghost predicate MembersMeant(nodes: seq<Node>, nodePort: int, ms: map<Id, Member>) {
    && (forall id :: id in ms ==> KeyMeant(nodes, nodePort, ms[id].key))
    && (forall k :: KeyMeant(nodes, nodePort, k) ==> exists id :: id in ms && ms[id].key == k)
  }

  /** A member to be created: address, port and name come from one node, the last one with that address, and the subnet
      is that of the load balancer. */
  ghost predicate MemberMeant(nodes: seq<Node>, nodePort: int, subnet: string, m: Member) {
    && m.key.port == nodePort && m.subnet == subnet
    && exists i ::
         && 0 <= i < |nodes| && Picks(nodes[i], m.key.address)
         && m.name == (if |nodes[i].name| > 255 then nodes[i].name[..255] else nodes[i].name)
         && forall j :: i < j < |nodes| ==> !Picks(nodes[j], m.key.address)
  }

  lemma KeyIsMeant(nodes: seq<Node>, nodePort: int, k: MemberKey)
    ensures k in WantedNodes(nodes, nodePort) <==> KeyMeant(nodes, nodePort, k)
  {
    hide AddressOf, Picks, WantedNodes;
    WantedIffUsable(nodes, nodePort, k);
    forall i | 0 <= i < |nodes| ensures AddressOf(nodes[i]) == Some(k.address) <==> Picks(nodes[i], k.address) {
      AddressIsPicked(nodes[i], k.address);
    }
  }

  lemma MemberIsMeant(cfg: Config, p: Port, key: MemberKey)
    requires key in WantedKeys(cfg, p)
    ensures MemberMeant(cfg.nodes, p.nodePort, cfg.subnet, WantedMember(cfg, p, key))
  {
    hide AddressOf, Picks;
    var i := LastNodeWins(cfg.nodes, p.nodePort, key);
    forall j | 0 <= j < |cfg.nodes|
      ensures AddressOf(cfg.nodes[j]) == Some(key.address) <==> Picks(cfg.nodes[j], key.address)
    {
      AddressIsPicked(cfg.nodes[j], key.address);
    }
  }

  lemma MembersAreMeant(cfg: Config, p: Port, ms: map<Id, Member>)
    ensures KeysOf(ms) == WantedKeys(cfg, p) <==> MembersMeant(cfg.nodes, p.nodePort, ms)
  {
    hide WantedNodes, KeyMeant;
    forall k ensures k in WantedKeys(cfg, p) <==> KeyMeant(cfg.nodes, p.nodePort, k) {
      KeyIsMeant(cfg.nodes, p.nodePort, k);
    }
    assert forall id :: id in ms ==> ms[id].key in KeysOf(ms);
    if MembersMeant(cfg.nodes, p.nodePort, ms) {
      forall k ensures k in KeysOf(ms) <==> k in WantedKeys(cfg, p) {
      }
    }
  }

  // ----- session persistence -----

  /** The persistence of a pool with client affinity: by source address, for the fewest whole minutes that cover the
      timeout, if one is given and not so large that the addition overflows. */
  ghost predicate AffinityMeant(spec: Spec, persistence: Option<Persistence>)
    requires spec.clientIP
  {
    && persistence.Some? && persistence.value.kind == "SOURCE_IP"
    && match spec.timeout
       case None => persistence.value.minutes == 0
       case Some(t) =>
         if t <= LAST_EXACT then LeastCover(t, persistence.value.minutes) else persistence.value.minutes == 1
  }

  lemma LeastIsOne(seconds: int, a: int, b: int)
    requires LeastCover(seconds, a) && LeastCover(seconds, b)
    ensures a == b
  {
  }

  /** The wanted persistence is exactly this, and there is none without affinity. */
  lemma AffinityIsMeant(spec: Spec, persistence: Option<Persistence>)
    ensures spec.clientIP ==>
              (persistence == DesiredPersistence(spec.clientIP, spec.timeout) <==> AffinityMeant(spec, persistence))
    ensures !spec.clientIP ==> DesiredPersistence(spec.clientIP, spec.timeout) == None
  {
    hide Minutes, LeastCover;
    if spec.clientIP && spec.timeout.Some? {
      var t := spec.timeout.value;
      MinutesLeastCover(t);
      if AffinityMeant(spec, persistence) && t <= LAST_EXACT {
        LeastIsOne(t, Minutes(t), persistence.value.minutes);
      }
    }
  }

  /** A pool in order: the wanted algorithm, and with client affinity the wanted persistence. */
  ghost predicate PoolMeant(cfg: Config, pool: Pool) {
    && pool.algorithm == cfg.settings.algorithm
    && (cfg.service.clientIP ==> AffinityMeant(cfg.service, pool.persistence))
  }

  lemma PoolIsMeant(cfg: Config, pool: Pool)
    ensures PoolTuned(cfg, pool) <==> PoolMeant(cfg, pool)
  {
    AffinityIsMeant(cfg.service, pool.persistence);
  }

  // ----- health monitors -----

  /** The probe of a port: UDP ports are probed by UDP_CONNECT, other ports by the health check of the node if traffic
      is local, or else as the settings say. */
  predicate ProbeMeant(cfg: Config, p: Port, probe: Probe) {
    var s, local := cfg.settings, cfg.service.localPolicy && cfg.service.healthCheckNodePort > 0;
    var byHttp := s.probeKind in {"HTTP", "HTTPS"};
    && probe.delay == s.delay && probe.timeout == s.timeout && probe.retries == s.retries
    && (probe.kind == "UDP_CONNECT" <==> p.key.proto == "UDP")
    && (probe.port != 0 <==> p.key.proto != "UDP" && local)
    && (probe.kind in {"HTTP", "HTTPS"} <==> p.key.proto != "UDP" && (local || byHttp))
    && (probe.kind in {"UDP_CONNECT", "HTTP", "HTTPS", "TCP"})
    && (probe.port != 0 ==> probe.port == cfg.service.healthCheckNodePort && probe.kind == "HTTP"
                            && probe.path == "/healthz" && probe.verb == "GET")
    && (probe.port == 0 && probe.kind in {"HTTP", "HTTPS"} ==>
          && probe.kind == s.probeKind
          && (s.probePath != "" ==> probe.path == s.probePath) && (s.probePath == "" ==> probe.path == "/")
          && (s.probeVerb != "" ==> probe.verb == s.probeVerb) && (s.probeVerb == "" ==> probe.verb == "GET"))
    && (probe.kind in {"UDP_CONNECT", "TCP"} ==> probe.path == "" && probe.verb == "")
  }

  lemma ProbeIsMeant(cfg: Config, p: Port, probe: Probe)
    ensures probe == ProbeFor(cfg, p) <==> ProbeMeant(cfg, p, probe)
  {
  }

  /** The monitor of a pool is as meant: there is one exactly if health checks are on. */
  predicate MonitorMeant(cfg: Config, p: Port, m: Option<Monitor>) {
    (m.Some? <==> cfg.settings.probing) && (m.Some? ==> ProbeMeant(cfg, p, m.value.probe))
  }

  lemma MonitorIsMeant(cfg: Config, p: Port, m: Option<Monitor>)
    ensures MonitorSettled(cfg, p, m) <==> MonitorMeant(cfg, p, m)
  {
    if m.Some? { ProbeIsMeant(cfg, p, m.value.probe); }
  }

  // ----- names and source ranges -----

  /** The name of a resource made for a port: base name, protocol and port number, 255 characters at most. */
  predicate NameMeant(base: string, key: Key, name: string) {
    var full := base + "_" + key.proto + "_" + Decimal(key.port);
    name == if |full| > 255 then full[..255] else full
  }

  lemma ResourceNameIsMeant(base: string, key: Key, name: string)
    ensures name == ResourceName(base, key) <==> NameMeant(base, key, name)
  {
  }

  /** Listener `l` binds an IP group made for the port. */
  predicate BindsOurs(cfg: Config, p: Port, s: State, l: Id)
    requires l in s.listeners
  {
    var g := s.listeners[l].group;
    g.Some? && g.value in s.groups && NameMeant(cfg.name, p.key, s.groups[g.value].name)
  }

  /** With source ranges, our group is in force as a white list of as many entries that include all of them; without, no
      group of ours is in force. */
  predicate AccessMeant(cfg: Config, p: Port, s: State, l: Id)
    requires l in s.listeners
  {
    var listener, ranges := s.listeners[l], cfg.Whitelist();
    if ranges == [] then !(BindsOurs(cfg, p, s, l) && listener.enabled == Some(true))
    else
      && BindsOurs(cfg, p, s, l) && listener.enabled == Some(true) && listener.kind == "white"
      && |s.groups[listener.group.value].ips| == |ranges|
      && forall r :: r in ranges ==> r in s.groups[listener.group.value].ips
  }

  lemma AccessIsMeant(cfg: Config, p: Port, s: State, l: Id)
    requires l in s.listeners
    ensures AccessSettled(cfg, p, TreeOf(s, l).value) <==> AccessMeant(cfg, p, s, l)
  {
  }

  // ----- the wanted state -----

  /** Listener `l` serves the port as the Service asks for. */
  ghost predicate ServedBy(cfg: Config, p: Port, s: State, l: Id) {
    && l in s.listeners && s.listeners[l].lb == cfg.lb && s.listeners[l].key == p.key
    && (cfg.settings.idle > 0 ==> s.listeners[l].idle == cfg.settings.idle)
    && AccessMeant(cfg, p, s, l)
    && s.listeners[l].pool.Some?
    && var q := s.listeners[l].pool.value;
       && q in s.pools && PoolMeant(cfg, s.pools[q])
       && q in s.members && MembersMeant(cfg.nodes, p.nodePort, s.members[q])
       && MonitorMeant(cfg, p, Get(s.monitors, s.pools[q].monitor))
  }

  ghost predicate PortServed(cfg: Config, p: Port, s: State) { exists l :: ServedBy(cfg, p, s, l) }

  /** No listener of the Service on the load balancer is on the key of no port. */
  ghost predicate NoneLeft(cfg: Config, s: State) {
    forall l :: l in s.listeners && s.listeners[l].lb == cfg.lb && cfg.name + "_" <= s.listeners[l].name ==>
      exists p :: p in cfg.service.ports && p.key == s.listeners[l].key
  }

  /** Every port is served, and nothing is left on other keys. */
  ghost predicate InPlace(cfg: Config, s: State) {
    (forall p :: p in cfg.service.ports ==> PortServed(cfg, p, s)) && NoneLeft(cfg, s)
  }

  lemma NoStaleIsNoneLeft(cfg: Config, s: State)
    ensures NoStale(cfg, s) <==> NoneLeft(cfg, s)
  {
    forall l | l in s.listeners
      ensures s.listeners[l].key in cfg.Wanted() <==> exists p :: p in cfg.service.ports && p.key == s.listeners[l].key
    {
    }
  }

  lemma SettledIsServed(cfg: Config, p: Port, s: State, l: Id)
    requires s.members.Keys == s.pools.Keys
    ensures (At(s, cfg.lb, p.key, l) && Settled(cfg, p, TreeOf(s, l).value)) <==> ServedBy(cfg, p, s, l)
  {
    hide KeysOf, WantedKeys, MembersMeant, PoolTuned, PoolMeant, MonitorSettled, MonitorMeant, AccessSettled,
        AccessMeant;
    if At(s, cfg.lb, p.key, l) {
      AccessIsMeant(cfg, p, s, l);
      if s.listeners[l].pool.Some? && s.listeners[l].pool.value in s.pools {
        var q := s.listeners[l].pool.value;
        PoolIsMeant(cfg, s.pools[q]);
        MembersAreMeant(cfg, p, s.members[q]);
        MonitorIsMeant(cfg, p, Get(s.monitors, s.pools[q].monitor));
      }
    }
  }

  lemma PortIsServed(cfg: Config, p: Port, s: State)
    requires s.members.Keys == s.pools.Keys
    ensures PortSettled(cfg, s, p) <==> PortServed(cfg, p, s)
  {
    hide Settled, ServedBy;
    if PortSettled(cfg, s, p) {
      var l :| At(s, cfg.lb, p.key, l) && Settled(cfg, p, TreeOf(s, l).value);
      SettledIsServed(cfg, p, s, l);
    }
    if l :| ServedBy(cfg, p, s, l) {
      SettledIsServed(cfg, p, s, l);
    }
  }

  /** What the reconciliation converges to is what the Service asks for. */
  lemma ConvergedIsInPlace(cfg: Config, s: State)
    requires s.members.Keys == s.pools.Keys
    ensures Converged(cfg, s) <==> InPlace(cfg, s)
  {
    hide PortSettled, PortServed, NoStale, NoneLeft;
    NoStaleIsNoneLeft(cfg, s);
    forall p: Port ensures PortSettled(cfg, s, p) <==> PortServed(cfg, p, s) {
      PortIsServed(cfg, p, s);
    }
  }

  // ----- what a call needs -----

  /** A node has an address, internal or external. */
  predicate Usable(node: Node) { !Lacks(node, InternalIP) || !Lacks(node, ExternalIP) }

  /** The port has a node port, there is a usable node, and if there are source ranges, no IP group but our own is bound
      to the listener on the key. */
  predicate FeasibleMeant(cfg: Config, s: State, p: Port) {
    && p.nodePort != 0 && (exists i :: 0 <= i < |cfg.nodes| && Usable(cfg.nodes[i]))
    && (cfg.Whitelist() != [] ==>
          forall l :: l in s.listeners && s.listeners[l].lb == cfg.lb && s.listeners[l].key == p.key
                      && s.listeners[l].group.Some? && s.listeners[l].group.value in s.groups ==>
            NameMeant(cfg.name, p.key, s.groups[s.listeners[l].group.value].name))
  }

  /** The port has a node port, there is a usable node, and a listener with a pool is on the key. */
  ghost predicate ReachableMeant(cfg: Config, s: State, p: Port) {
    && p.nodePort != 0 && (exists i :: 0 <= i < |cfg.nodes| && Usable(cfg.nodes[i]))
    && exists l :: l in s.listeners && s.listeners[l].lb == cfg.lb && s.listeners[l].key == p.key
                   && s.listeners[l].pool.Some? && s.listeners[l].pool.value in s.pools
  }

  lemma UsableIsWanted(cfg: Config, p: Port)
    ensures WantedKeys(cfg, p) != {} <==> exists i :: 0 <= i < |cfg.nodes| && Usable(cfg.nodes[i])
  {
    hide AddressOf, Lacks;
    if i :| 0 <= i < |cfg.nodes| && Usable(cfg.nodes[i]) {
      AddressIsPicked(cfg.nodes[i], "");
      WantedIffUsable(cfg.nodes, p.nodePort, MemberKey(AddressOf(cfg.nodes[i]).value, p.nodePort));
    }
    if WantedKeys(cfg, p) != {} {
      var k :| k in WantedKeys(cfg, p);
      WantedIffUsable(cfg.nodes, p.nodePort, k);
      var i :| 0 <= i < |cfg.nodes| && AddressOf(cfg.nodes[i]) == Some(k.address);
      AddressIsPicked(cfg.nodes[i], "");
    }
  }

  // ----- requests -----

  /** The persistence a request carries. */
  ghost predicate Carries(spec: Spec, persistence: Option<Persistence>) {
    if spec.clientIP then AffinityMeant(spec, persistence) else persistence == None
  }

  /** The group holds as many entries as there are source ranges, and all of them. */
  predicate Covers(cfg: Config, group: Group) {
    |group.ips| == |cfg.Whitelist()| && forall r :: r in cfg.Whitelist() ==> r in group.ips
  }

  /** What a request for port `p` and its listener `l` says, and when it is made. */
  ghost predicate UpkeepMeant(cfg: Config, s: State, p: Port, l: Id, op: Op) {
    && p in cfg.service.ports
    && (op.CreateListener? || (l in s.listeners && s.listeners[l].lb == cfg.lb && s.listeners[l].key == p.key))
    && match op
       case CreateListener(lb, name, key, idle) =>
         lb == cfg.lb && key == p.key && NameMeant(cfg.name, p.key, name) && idle == cfg.settings.idle
       case SetIdle(x, idle) => x == l && idle == cfg.settings.idle && idle > 0
       case SetGroup(x, g, enable, kind) =>
         && x == l && g in s.groups && NameMeant(cfg.name, p.key, s.groups[g].name)
         && (enable <==> cfg.Whitelist() != [])
         && (enable ==> kind == "white" && Covers(cfg, s.groups[g]))
         && (!enable ==> kind == "" && s.listeners[l].group == Some(g) && s.listeners[l].enabled == Some(true))
       case CreateGroup(name, ips) => NameMeant(cfg.name, p.key, name) && ips == cfg.Whitelist() && ips != []
       case UpdateGroup(g, ips) =>
         && s.listeners[l].group == Some(g) && ips == cfg.Whitelist() && ips != []
         && g in s.groups && !Covers(cfg, s.groups[g])
       case CreatePool(x, name, algorithm, persistence) =>
         && x == l && NameMeant(cfg.name, p.key, name) && algorithm == cfg.settings.algorithm
         && Carries(cfg.service, persistence) && AccessMeant(cfg, p, s, l)
       case UpdatePool(q, algorithm, persistence) =>
         && s.listeners[l].pool == Some(q) && algorithm == cfg.settings.algorithm && Carries(cfg.service, persistence)
         && q in s.pools && !PoolMeant(cfg, s.pools[q])
       case CreateMember(q, m) =>
         && s.listeners[l].pool == Some(q) && q in s.members && MemberMeant(cfg.nodes, p.nodePort, cfg.subnet, m)
         && forall id :: id in s.members[q] ==> s.members[q][id].key != m.key
       case DeleteMember(q, id) =>
         && s.listeners[l].pool == Some(q) && q in s.members && id in s.members[q]
         && !KeyMeant(cfg.nodes, p.nodePort, s.members[q][id].key)
         && forall k :: KeyMeant(cfg.nodes, p.nodePort, k) ==> exists x :: x in s.members[q] && s.members[q][x].key == k
       case CreateMonitor(q, name, probe) =>
         && s.listeners[l].pool == Some(q) && cfg.settings.probing && NameMeant(cfg.name, p.key, name)
         && ProbeMeant(cfg, p, probe)
       case UpdateMonitor(m, probe) =>
         && HasMonitor(s, l, m) && cfg.settings.probing && ProbeMeant(cfg, p, probe)
         && probe.kind == s.monitors[m].probe.kind && probe.port == s.monitors[m].probe.port
         && probe != s.monitors[m].probe
       case DeleteMonitor(m) =>
         && HasMonitor(s, l, m)
         && (cfg.settings.probing ==>
               forall probe :: ProbeMeant(cfg, p, probe) ==>
                 probe.kind != s.monitors[m].probe.kind || probe.port != s.monitors[m].probe.port)
       case _ => false
  }

  /** Which listeners a run takes down, and what else it deletes with them. */
  ghost predicate RemovalMeant(cfg: Config, verb: Verb, s: State, l: Id, op: Op) {
    if op.DeleteGroup? then
      && op.group in s.groups && cfg.name + "_" <= s.groups[op.group].name && l !in s.listeners
      && forall k :: k in s.listeners ==> s.listeners[k].group != Some(op.group)
    else
      && (op.DeleteMonitor? || op.DeleteMember? || op.DeletePool? || op.DeleteListener?)
      && l in s.listeners && s.listeners[l].lb == cfg.lb
      && (verb == Ensuring ==> cfg.name + "_" <= s.listeners[l].name
                               && forall p :: p in cfg.service.ports ==> p.key != s.listeners[l].key)
      && (verb == Deleting && cfg.settings.balancerId != "" ==> cfg.name + "_" <= s.listeners[l].name)
  }

  /** What a request of a run says: those of a node update are about members only. */
  ghost predicate RequestMeant(cfg: Config, verb: Verb, s: State, why: Purpose, op: Op) {
    match why
    case ForPort(p, l) =>
      verb != Deleting && (verb == Updating ==> op.CreateMember? || op.DeleteMember?) && UpkeepMeant(cfg, s, p, l, op)
    case Removing(l) => verb != Updating && RemovalMeant(cfg, verb, s, l, op)
    case WholeBalancer => false
  }

  lemma MembersSayMeant(cfg: Config, s: State, p: Port, l: Id, op: Op)
    requires Upkeep(cfg, s, p, l, op) && p in cfg.Ports() && MemberOp(op)
    ensures UpkeepMeant(cfg, s, p, l, op)
  {
    hide WantedNodes, WantedMember, MemberMeant, KeyMeant;
    match op {
      case CreateMember(q, m) => MemberIsMeant(cfg, p, m.key);
      case DeleteMember(q, id) =>
        forall k ensures k in WantedKeys(cfg, p) <==> KeyMeant(cfg.nodes, p.nodePort, k) {
          KeyIsMeant(cfg.nodes, p.nodePort, k);
        }
        assert forall k :: k in WantedKeys(cfg, p) ==> k in KeysOf(s.members[q]);
    }
  }

  lemma UpkeepIsMeant(cfg: Config, s: State, p: Port, l: Id, op: Op)
    requires Upkeep(cfg, s, p, l, op) && p in cfg.Ports() && !MemberOp(op)
    ensures UpkeepMeant(cfg, s, p, l, op)
  {
    hide ProbeFor, ProbeMeant, AccessSettled, AccessMeant, AffinityMeant;
    match op {
      case CreatePool(_, _, _, persistence) =>
        AffinityIsMeant(cfg.service, persistence);
        AccessIsMeant(cfg, p, s, l);
      case UpdatePool(q, _, persistence) =>
        AffinityIsMeant(cfg.service, persistence);
        PoolIsMeant(cfg, s.pools[q]);
      case CreateMonitor(_, _, probe) => ProbeIsMeant(cfg, p, probe);
      case UpdateMonitor(_, probe) => ProbeIsMeant(cfg, p, probe);
      case DeleteMonitor(m) =>
        forall probe | ProbeMeant(cfg, p, probe) ensures probe == ProbeFor(cfg, p) {
          ProbeIsMeant(cfg, p, probe);
        }
      case _ =>
    }
  }

  /** Every request that may be issued says what the Service asks for. */
  lemma JustifiedIsMeant(cfg: Config, verb: Verb, s: State, why: Purpose, op: Op)
    requires Justified(cfg, verb, s, why, op)
    ensures RequestMeant(cfg, verb, s, why, op)
  {
    hide Upkeep, UpkeepMeant;
    if why.ForPort? {
      if MemberOp(op) {
        MembersSayMeant(cfg, s, why.port, why.listener, op);
      } else {
        UpkeepIsMeant(cfg, s, why.port, why.listener, op);
      }
    } else {
      assert op.DeleteGroup? ==> forall k :: k in s.listeners ==> s.listeners[k].group != Some(op.group);
    }
  }
}

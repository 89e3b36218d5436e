/** The value of the in-memory cloud and the effect of every API request on it. */
module CloudState {
  import opened Basics

  type Id = nat

  /** A listener key, "protocol/port" in the API; `Names.ListenerKeyInjective` justifies the pair. */
  datatype Key = Key(proto: string, port: int)

  /** A member key, "address:port" in the API; `Names.MemberKeyInjective` justifies the pair. */
  datatype MemberKey = MemberKey(address: string, port: int)

  datatype Persistence = Persistence(kind: string, minutes: int)

  /** The settings of a health monitor. */
  datatype Probe = Probe(kind: string, delay: int, timeout: int, retries: int, path: string, verb: string, port: int)

  datatype Balancer = Balancer(name: string, subnet: string, publicIps: seq<Id>)

  datatype Listener = Listener(lb: Id, name: string, key: Key, idle: int, pool: Option<Id>,
                               group: Option<Id>, enabled: Option<bool>, kind: string)

  datatype Pool = Pool(listener: Id, name: string, algorithm: string, persistence: Option<Persistence>,
                       monitor: Option<Id>)

  datatype Member = Member(key: MemberKey, name: string, subnet: string)

  datatype Monitor = Monitor(pool: Id, name: string, probe: Probe)

  datatype Group = Group(name: string, ips: seq<string>)

  datatype State = State(balancers: map<Id, Balancer>, listeners: map<Id, Listener>, pools: map<Id, Pool>,
                         members: map<Id, map<Id, Member>>, monitors: map<Id, Monitor>,
                         groups: map<Id, Group>, eips: set<Id>)

  /** The mutating requests of the ELBv3, IP group and EIP APIs that the provider issues. */
  datatype Op =
    | CreateBalancer(name: string, subnet: string, eipIds: seq<Id>, newEip: bool)
    | DeleteBalancer(lb: Id)
    | CreateListener(lb: Id, name: string, key: Key, idle: int)
    | SetIdle(listener: Id, idle: int)
    | SetGroup(listener: Id, group: Id, enable: bool, kind: string)
    | DeleteListener(listener: Id)
    | CreatePool(listener: Id, name: string, algorithm: string, persistence: Option<Persistence>)
    | UpdatePool(pool: Id, algorithm: string, persistence: Option<Persistence>)
    | DeletePool(pool: Id)
    | CreateMember(pool: Id, member: Member)
    | DeleteMember(pool: Id, id: Id)
    | CreateMonitor(pool: Id, name: string, probe: Probe)
    | UpdateMonitor(monitor: Id, probe: Probe)
    | DeleteMonitor(monitor: Id)
    | CreateGroup(name: string, ips: seq<string>)
    | UpdateGroup(group: Id, ips: seq<string>)
    | DeleteGroup(group: Id)
    | DeleteEip(eip: Id)

  predicate Bound(s: State, g: Id) {
    exists l :: l in s.listeners && s.listeners[l].group == Some(g)
  }

  /** The answer of a healthy backend: it refuses to delete a resource that is still in use. */
  function Verdict(s: State, op: Op): Reply {
    match op
    case CreateBalancer(_, _, _, _) => Ok
    case DeleteBalancer(lb) => if lb in s.balancers then Ok else NotFound
    case CreateListener(_, _, _, _) => Ok
    case SetIdle(l, _) => if l in s.listeners then Ok else NotFound
    case SetGroup(l, g, _, _) => if l in s.listeners && g in s.groups then Ok else NotFound
    case DeleteListener(l) =>
      if l !in s.listeners then NotFound else if s.listeners[l].pool.Some? then Conflict else Ok
    case CreatePool(_, _, _, _) => Ok
    case UpdatePool(q, _, _) => if q in s.pools then Ok else NotFound
    case DeletePool(q) =>
      if q !in s.pools then NotFound
      else if s.pools[q].monitor.Some? || (q in s.members && s.members[q] != map[]) then Conflict
      else Ok
    case CreateMember(q, _) => if q in s.members then Ok else NotFound
    case DeleteMember(q, id) => if q in s.members && id in s.members[q] then Ok else NotFound
    case CreateMonitor(_, _, _) => Ok
    case UpdateMonitor(m, _) => if m in s.monitors then Ok else NotFound
    case DeleteMonitor(m) => if m in s.monitors then Ok else NotFound
    case CreateGroup(_, _) => Ok
    case UpdateGroup(g, _) => if g in s.groups then Ok else NotFound
    case DeleteGroup(g) => if g !in s.groups then NotFound else if Bound(s, g) then Conflict else Ok
    case DeleteEip(e) => if e in s.eips then Ok else NotFound
  }

  function NonZero(new_: int, old_: int): int { if new_ != 0 then new_ else old_ }

  function NonEmpty(new_: string, old_: string): string { if new_ != "" then new_ else old_ }

  /** An update of a monitor cannot change its type or port and ignores zero and empty fields. */
  function Tuned(old_: Probe, new_: Probe): Probe {
    Probe(old_.kind, NonZero(new_.delay, old_.delay), NonZero(new_.timeout, old_.timeout),
          NonZero(new_.retries, old_.retries), NonEmpty(new_.path, old_.path), NonEmpty(new_.verb, old_.verb),
          old_.port)
  }

  function Unpooled(s: State, q: Id): map<Id, Listener>
    requires q in s.pools
  {
    var l := s.pools[q].listener;
    if l in s.listeners && s.listeners[l].pool == Some(q)
    then s.listeners[l := s.listeners[l].(pool := None)] else s.listeners
  }

  function Unmonitored(s: State, m: Id): map<Id, Pool>
    requires m in s.monitors
  {
    var q := s.monitors[m].pool;
    if q in s.pools then s.pools[q := s.pools[q].(monitor := None)] else s.pools
  }

  /** The cloud after an accepted request; `id` is the identifier a create request was given. */
  function Apply(s: State, op: Op, id: Id): State
    requires Verdict(s, op) == Ok
  {
    match op
    case CreateBalancer(name, subnet, eipIds, newEip) =>
      s.(balancers := s.balancers[id := Balancer(name, subnet, if newEip then eipIds + [id + 1] else eipIds)],
         eips := if newEip then s.eips + {id + 1} else s.eips)
    case DeleteBalancer(lb) => s.(balancers := s.balancers - {lb})
    case CreateListener(lb, name, key, idle) =>
      s.(listeners := s.listeners[id := Listener(lb, name, key, idle, None, None, None, "")])
    case SetIdle(l, idle) =>
      s.(listeners := s.listeners[l := s.listeners[l].(idle := NonZero(idle, s.listeners[l].idle))])
    case SetGroup(l, g, enable, kind) =>
      s.(listeners := s.listeners[l := s.listeners[l].(group := Some(g), enabled := Some(enable),
                                                       kind := NonEmpty(kind, s.listeners[l].kind))])
    case DeleteListener(l) => s.(listeners := s.listeners - {l})
    case CreatePool(l, name, algorithm, persistence) =>
      s.(pools := s.pools[id := Pool(l, name, algorithm, persistence, None)],
         members := s.members[id := map[]],
         listeners := if l in s.listeners then s.listeners[l := s.listeners[l].(pool := Some(id))] else s.listeners)
    case UpdatePool(q, algorithm, persistence) =>
      s.(pools := s.pools[q := s.pools[q].(algorithm := NonEmpty(algorithm, s.pools[q].algorithm),
                                           persistence := if persistence.Some? then persistence
                                               else s.pools[q].persistence)])
    case DeletePool(q) =>
      s.(pools := s.pools - {q}, members := s.members - {q}, listeners := Unpooled(s, q))
    case CreateMember(q, m) =>
      var joined: map<Id, Member> := s.members[q][id := m];
      s.(members := s.members[q := joined])
    case DeleteMember(q, m) =>
      var left: map<Id, Member> := s.members[q] - {m};
      s.(members := s.members[q := left])
    case CreateMonitor(q, name, probe) =>
      s.(monitors := s.monitors[id := Monitor(q, name, probe)],
         pools := if q in s.pools then s.pools[q := s.pools[q].(monitor := Some(id))] else s.pools)
    case UpdateMonitor(m, probe) =>
      s.(monitors := s.monitors[m := s.monitors[m].(probe := Tuned(s.monitors[m].probe, probe))])
    case DeleteMonitor(m) => s.(monitors := s.monitors - {m}, pools := Unmonitored(s, m))
    case CreateGroup(name, ips) => s.(groups := s.groups[id := Group(name, ips)])
    case UpdateGroup(g, ips) => s.(groups := s.groups[g := s.groups[g].(ips := ips)])
    case DeleteGroup(g) => s.(groups := s.groups - {g})
    case DeleteEip(e) => s.(eips := s.eips - {e})
  }

  /** An identifier (and its successor) that names nothing in the cloud, not even a vanished group. */
  predicate Fresh(s: State, id: Id) {
    && id !in s.balancers && id !in s.listeners && id !in s.pools && id !in s.members
    && id !in s.monitors && id !in s.groups && id + 1 !in s.eips
    && (forall q :: q in s.members ==> id !in s.members[q])
    && !Bound(s, id)
  }

  /** The resources hanging off one listener, as one value. */
  datatype Tree = Tree(listener: Listener, pool: Option<Pool>, members: map<Id, Member>,
                       monitor: Option<Monitor>, group: Option<Group>)

  function Get<V>(m: map<Id, V>, id: Option<Id>): Option<V> {
    if id.Some? && id.value in m then Some(m[id.value]) else None
  }

  function MembersOf(s: State, q: Option<Id>): map<Id, Member> {
    if q.Some? && q.value in s.members then s.members[q.value] else map[]
  }

  function TreeOf(s: State, l: Id): Option<Tree> {
    if l !in s.listeners then None
    else
      var listener := s.listeners[l];
      var pool := Get(s.pools, listener.pool);
      Some(Tree(listener, pool, MembersOf(s, listener.pool),
                if pool.Some? then Get(s.monitors, pool.value.monitor) else None,
                Get(s.groups, listener.group)))
  }

  /** Only the tree of listener `l` may differ between two states. */
  ghost predicate Frame(s: State, t: State, l: Id) {
    && t.balancers == s.balancers && t.eips == s.eips
    && forall k :: k != l ==> TreeOf(t, k) == TreeOf(s, k)
  }

  // ----- well-formedness of the backend's own data -----

  predicate Own(base: string, name: string) {
    base + "_" <= name
  }

  predicate PoolRefs(s: State) {
    forall l :: l in s.listeners && s.listeners[l].pool.Some? ==>
      s.listeners[l].pool.value in s.pools && s.pools[s.listeners[l].pool.value].listener == l
  }

  predicate MonitorRefs(s: State) {
    forall q :: q in s.pools && s.pools[q].monitor.Some? ==>
      s.pools[q].monitor.value in s.monitors && s.monitors[s.pools[q].monitor.value].pool == q
  }

  /** References to pools and monitors point at existing ones, which in turn name the one resource that refers to them.
      The IP group that a listener binds may have vanished. */
  predicate References(s: State) {
    PoolRefs(s) && MonitorRefs(s) && s.members.Keys == s.pools.Keys
  }

  predicate KeysUnique(s: State) {
    forall l, k :: l in s.listeners && k in s.listeners && l != k ==>
      s.listeners[l].lb != s.listeners[k].lb || s.listeners[l].key != s.listeners[k].key
  }

  predicate IsHttp(kind: string) { kind == "HTTP" || kind == "HTTPS" }

  predicate PlainProbe(p: Probe) {
    !IsHttp(p.kind) ==> p.path == "" && p.verb == ""
  }

  predicate ProbesPlain(s: State) {
    forall m :: m in s.monitors ==> PlainProbe(s.monitors[m].probe)
  }

  /** No other listener than `l` binds group `g`. */
  predicate BoundOnlyTo(s: State, g: Id, l: Id) {
    forall k :: k in s.listeners && k != l ==> s.listeners[k].group != Some(g)
  }

  /** Groups named after `base` are bound at most once, and as a whitelist when enabled. */
  predicate GroupsTidy(base: string, s: State) {
    forall l :: l in s.listeners && s.listeners[l].group.Some? ==>
      var g := s.listeners[l].group.value;
      g in s.groups && Own(base, s.groups[g].name) ==>
        && BoundOnlyTo(s, g, l)
        && (s.listeners[l].enabled == Some(true) ==> s.listeners[l].kind == "white")
  }

  predicate WellFormed(base: string, s: State) {
    References(s) && KeysUnique(s) && ProbesPlain(s) && GroupsTidy(base, s)
  }
}

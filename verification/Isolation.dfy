/** Ownership by name prefix: a Service's requests touch its own slice of the cloud and nothing else. */
module Isolation {
  import opened Basics
  import opened CloudState
  import opened Service
  import opened Plan
  import opened Steps

  predicate Keeps(base: string, mine: bool, name: string) { Own(base, name) == mine }

  function KeptListeners(base: string, mine: bool, s: State): map<Id, Listener> {
    map l | l in s.listeners && Keeps(base, mine, s.listeners[l].name) :: s.listeners[l]
  }

  function KeptPools(base: string, mine: bool, s: State): map<Id, Pool> {
    map q | q in s.pools && Keeps(base, mine, s.pools[q].name) :: s.pools[q]
  }

  function KeptMembers(base: string, mine: bool, s: State): map<Id, map<Id, Member>> {
    map q | q in s.members && q in s.pools && Keeps(base, mine, s.pools[q].name) :: s.members[q]
  }

  function KeptMonitors(base: string, mine: bool, s: State): map<Id, Monitor> {
    map m | m in s.monitors && Keeps(base, mine, s.monitors[m].name) :: s.monitors[m]
  }

  function KeptGroups(base: string, mine: bool, s: State): map<Id, Group> {
    map g | g in s.groups && Keeps(base, mine, s.groups[g].name) :: s.groups[g]
  }

  /** The resources that carry the prefix of `base`, or all the others. */
  function Slice(base: string, mine: bool, s: State): State {
    State(s.balancers, KeptListeners(base, mine, s), KeptPools(base, mine, s), KeptMembers(base, mine, s),
          KeptMonitors(base, mine, s), KeptGroups(base, mine, s), s.eips)
  }

  predicate OwnListener(base: string, s: State, l: Id) { l in s.listeners && Own(base, s.listeners[l].name) }

  predicate OwnPool(base: string, s: State, q: Id) { q in s.pools && Own(base, s.pools[q].name) }

  predicate OwnMonitor(base: string, s: State, m: Id) { m in s.monitors && Own(base, s.monitors[m].name) }

  predicate OwnGroup(base: string, s: State, g: Id) { g in s.groups && Own(base, s.groups[g].name) }

  predicate PoolOwners(base: string, s: State) {
    forall l :: l in s.listeners && s.listeners[l].pool.Some? && s.listeners[l].pool.value in s.pools ==>
      (OwnListener(base, s, l) <==> OwnPool(base, s, s.listeners[l].pool.value))
  }

  ghost predicate PoolsAttached(base: string, s: State) {
    forall q :: OwnPool(base, s, q) ==>
        s.pools[q].listener in s.listeners && s.listeners[s.pools[q].listener].pool == Some(q)
  }

  predicate MonitorOwners(base: string, s: State) {
    forall q :: q in s.pools && s.pools[q].monitor.Some? && s.pools[q].monitor.value in s.monitors ==>
      (OwnPool(base, s, q) <==> OwnMonitor(base, s, s.pools[q].monitor.value))
  }

  ghost predicate MonitorsAttached(base: string, s: State) {
    forall m :: OwnMonitor(base, s, m) ==>
        s.monitors[m].pool in s.pools && s.pools[s.monitors[m].pool].monitor == Some(m)
  }

  ghost predicate GroupsAtHome(base: string, s: State) {
    forall l :: l in s.listeners && s.listeners[l].group.Some? && OwnGroup(base, s, s.listeners[l].group.value) ==>
      OwnListener(base, s, l)
  }

  /** A listener, its pool and its monitor have the same owner, owned pools and monitors do not float free,
      and owned IP groups are bound to owned listeners only. */
  ghost predicate Coherent(base: string, s: State) {
    && PoolOwners(base, s) && PoolsAttached(base, s) && MonitorOwners(base, s) && MonitorsAttached(base, s)
    && GroupsAtHome(base, s)
  }

  /** The request creates and touches only resources that carry the prefix of `base`. */
  predicate OwnOp(base: string, s: State, op: Op) {
    match op
    case CreateListener(_, name, _, _) => Own(base, name)
    case SetIdle(l, _) => OwnListener(base, s, l)
    case SetGroup(l, g, _, _) => OwnListener(base, s, l) && OwnGroup(base, s, g)
    case DeleteListener(l) => OwnListener(base, s, l)
    case CreatePool(l, name, _, _) => OwnListener(base, s, l) && Own(base, name)
    case UpdatePool(q, _, _) => OwnPool(base, s, q)
    case DeletePool(q) => OwnPool(base, s, q) && OwnListener(base, s, s.pools[q].listener)
    case CreateMember(q, _) => OwnPool(base, s, q)
    case DeleteMember(q, _) => OwnPool(base, s, q)
    case CreateMonitor(q, name, _) => OwnPool(base, s, q) && Own(base, name)
    case UpdateMonitor(m, _) => OwnMonitor(base, s, m)
    case DeleteMonitor(m) => OwnMonitor(base, s, m) && OwnPool(base, s, s.monitors[m].pool)
    case CreateGroup(name, _) => Own(base, name)
    case UpdateGroup(g, _) => OwnGroup(base, s, g)
    case DeleteGroup(g) => OwnGroup(base, s, g)
    case _ => false
  }

  /** `keys` on load balancer `lb` belong to `base`: no listener of another owner sits on them. */
  predicate Territory(base: string, lb: Id, keys: set<Key>, s: State) {
    forall l :: l in s.listeners && s.listeners[l].lb == lb && s.listeners[l].key in keys ==>
        Own(base, s.listeners[l].name)
  }

  /** The load balancer is for `base` alone: there are no listeners of others on it. */
  predicate Dedicated(base: string, lb: Id, s: State) {
    forall l :: l in s.listeners && s.listeners[l].lb == lb ==> Own(base, s.listeners[l].name)
  }

  /** The run keeps to its territory; one that deletes every listener does so on a load balancer of its own. */
  predicate Homely(cfg: Config, verb: Verb, s: State) {
    && Sound(cfg) && (verb == Deleting && !Shared(cfg) ==> Dedicated(cfg.name, cfg.lb, s))
    && Territory(cfg.name, cfg.lb, cfg.Wanted(), s)
  }

  lemma JustifiedIsOwn(cfg: Config, verb: Verb, s: State, why: Purpose, op: Op)
    requires Homely(cfg, verb, s) && Coherent(cfg.name, s) && References(s)
    requires Justified(cfg, verb, s, why, op)
    ensures OwnOp(cfg.name, s, op)
  {
    if why.ForPort? {
      OwnershipIff(cfg.name, why.port.key);
      assert why.port.key in cfg.Wanted();
    }
  }

  /** No name carries the prefix of `base` and is kept by the other slice. */
  ghost predicate Apart(base: string, other: string, mine: bool) {
    forall name {:trigger Own(base, name)} :: Own(base, name) ==> !Keeps(other, mine, name)
  }

  /** An accepted request on the resources of `base`, which are not in the slice. */
  ghost predicate Elsewhere(base: string, s: State, op: Op, id: Id, other: string, mine: bool) {
    OwnOp(base, s, op) && Verdict(s, op) == Ok && Fresh(s, id) && Apart(base, other, mine)
  }

  predicate ListenerOp(op: Op) { op.CreateListener? || op.SetIdle? || op.SetGroup? || op.DeleteListener? }

  predicate PoolOp(op: Op) { op.CreatePool? || op.UpdatePool? || op.DeletePool? }

  predicate MonitorLink(op: Op) { op.CreateMonitor? || op.DeleteMonitor? }

  /** The kinds of resources that a request leaves alone. */
  lemma Untouched(s: State, op: Op, id: Id)
    requires Verdict(s, op) == Ok
    ensures ListenerOp(op) || op.CreatePool? || op.DeletePool? || Apply(s, op, id).listeners == s.listeners
    ensures PoolOp(op) || MonitorLink(op) || Apply(s, op, id).pools == s.pools
    ensures PoolOp(op) || MemberOp(op) || Apply(s, op, id).members == s.members
    ensures MonitorLink(op) || op.UpdateMonitor? || Apply(s, op, id).monitors == s.monitors
    ensures GroupOp(op) || Apply(s, op, id).groups == s.groups
  {
  }

  /** They are the same in every slice. */
  lemma SameKept(base: string, mine: bool, s: State, t: State)
    ensures t.listeners == s.listeners ==> KeptListeners(base, mine, t) == KeptListeners(base, mine, s)
    ensures t.pools == s.pools ==> KeptPools(base, mine, t) == KeptPools(base, mine, s)
    ensures t.pools == s.pools && t.members == s.members ==> KeptMembers(base, mine, t) == KeptMembers(base, mine, s)
    ensures t.monitors == s.monitors ==> KeptMonitors(base, mine, t) == KeptMonitors(base, mine, s)
    ensures t.groups == s.groups ==> KeptGroups(base, mine, t) == KeptGroups(base, mine, s)
  {
  }

  /** Linking a pool to a monitor moves no member. */
  lemma LinkKeepsMembers(base: string, mine: bool, s: State, op: Op, id: Id)
    requires MonitorLink(op) && Verdict(s, op) == Ok
    ensures KeptMembers(base, mine, Apply(s, op, id)) == KeptMembers(base, mine, s)
  {
  }

  lemma ListenerOpKeepsListeners(base: string, s: State, op: Op, id: Id, other: string, mine: bool)
    requires Elsewhere(base, s, op, id, other, mine) && ListenerOp(op)
    ensures KeptListeners(other, mine, Apply(s, op, id)) == KeptListeners(other, mine, s)
  {
  }

  lemma PoolOpKeepsListeners(base: string, s: State, op: Op, id: Id, other: string, mine: bool)
    requires Elsewhere(base, s, op, id, other, mine) && (op.CreatePool? || op.DeletePool?)
    ensures KeptListeners(other, mine, Apply(s, op, id)) == KeptListeners(other, mine, s)
  {
  }

  lemma PoolOpKeepsPools(base: string, s: State, op: Op, id: Id, other: string, mine: bool)
    requires Elsewhere(base, s, op, id, other, mine) && PoolOp(op)
    ensures KeptPools(other, mine, Apply(s, op, id)) == KeptPools(other, mine, s)
  {
  }

  lemma LinkKeepsPools(base: string, s: State, op: Op, id: Id, other: string, mine: bool)
    requires Elsewhere(base, s, op, id, other, mine) && MonitorLink(op)
    ensures KeptPools(other, mine, Apply(s, op, id)) == KeptPools(other, mine, s)
  {
  }

  lemma PoolOpKeepsMembers(base: string, s: State, op: Op, id: Id, other: string, mine: bool)
    requires Elsewhere(base, s, op, id, other, mine) && PoolOp(op)
    ensures KeptMembers(other, mine, Apply(s, op, id)) == KeptMembers(other, mine, s)
  {
  }

  lemma MemberOpKeepsMembers(base: string, s: State, op: Op, id: Id, other: string, mine: bool)
    requires Elsewhere(base, s, op, id, other, mine) && MemberOp(op)
    ensures KeptMembers(other, mine, Apply(s, op, id)) == KeptMembers(other, mine, s)
  {
  }

  lemma MonitorOpKeepsMonitors(base: string, s: State, op: Op, id: Id, other: string, mine: bool)
    requires Elsewhere(base, s, op, id, other, mine) && (MonitorLink(op) || op.UpdateMonitor?)
    ensures KeptMonitors(other, mine, Apply(s, op, id)) == KeptMonitors(other, mine, s)
  {
  }

  lemma GroupOpKeepsGroups(base: string, s: State, op: Op, id: Id, other: string, mine: bool)
    requires Elsewhere(base, s, op, id, other, mine) && GroupOp(op)
    ensures KeptGroups(other, mine, Apply(s, op, id)) == KeptGroups(other, mine, s)
  {
    hide Bound, KeptListeners, KeptPools, KeptMembers, KeptMonitors, OwnListener, OwnPool, OwnMonitor;
  }

  /** A request on one owner's resources leaves every slice without them as it was. */
  lemma OwnOpKeepsSlice(base: string, s: State, op: Op, id: Id, other: string, mine: bool)
    requires OwnOp(base, s, op) && Verdict(s, op) == Ok && Fresh(s, id) && Apart(base, other, mine)
    ensures Slice(other, mine, Apply(s, op, id)) == Slice(other, mine, s)
  {
    OwnOpKind(base, s, op, id);
    Untouched(s, op, id);
    SameKept(other, mine, s, Apply(s, op, id));
    hide OwnOp, Verdict, Apply, Fresh, Apart, KeptListeners, KeptPools, KeptMembers, KeptMonitors, KeptGroups;
    if ListenerOp(op) {
      ListenerOpKeepsListeners(base, s, op, id, other, mine);
    } else if PoolOp(op) {
      if !op.UpdatePool? { PoolOpKeepsListeners(base, s, op, id, other, mine); }
      PoolOpKeepsPools(base, s, op, id, other, mine);
      PoolOpKeepsMembers(base, s, op, id, other, mine);
    } else if MemberOp(op) {
      MemberOpKeepsMembers(base, s, op, id, other, mine);
    } else if GroupOp(op) {
      GroupOpKeepsGroups(base, s, op, id, other, mine);
    } else {
      MonitorOpKeepsMonitors(base, s, op, id, other, mine);
      if MonitorLink(op) {
        LinkKeepsPools(base, s, op, id, other, mine);
        LinkKeepsMembers(other, mine, s, op, id);
      }
    }
  }

  lemma OwnOpKind(base: string, s: State, op: Op, id: Id)
    requires OwnOp(base, s, op) && Verdict(s, op) == Ok
    ensures ListenerOp(op) || PoolOp(op) || MemberOp(op) || GroupOp(op) || MonitorLink(op) || op.UpdateMonitor?
    ensures Apply(s, op, id).balancers == s.balancers && Apply(s, op, id).eips == s.eips
  {
  }

  // ----- what a request keeps -----

  /** A child resource is created under a parent of the same owner. */
  predicate Matched(base: string, s: State, op: Op) {
    match op
    case CreatePool(l, name, _, _) => OwnListener(base, s, l) <==> Own(base, name)
    case CreateMonitor(q, name, _) => OwnPool(base, s, q) <==> Own(base, name)
    case SetGroup(l, g, _, _) => OwnGroup(base, s, g) ==> OwnListener(base, s, l)
    case DeleteMonitor(m) => m in s.monitors && s.monitors[m].pool in s.pools ==>
        s.pools[s.monitors[m].pool].monitor == Some(m)
    case _ => true
  }

  /** An accepted request that fits the owners of what it touches. */
  predicate Proceeds(base: string, s: State, op: Op, id: Id) {
    References(s) && Matched(base, s, op) && Sane(s, op) && Verdict(s, op) == Ok && Fresh(s, id)
  }

  lemma StructureKeepsPoolOwners(base: string, s: State, op: Op, id: Id)
    requires PoolOwners(base, s) && Proceeds(base, s, op, id) && StructureOp(op)
    ensures PoolOwners(base, Apply(s, op, id))
  {
  }

  lemma ContentKeepsPoolOwners(base: string, s: State, op: Op, id: Id)
    requires PoolOwners(base, s) && Proceeds(base, s, op, id) && !StructureOp(op)
    ensures PoolOwners(base, Apply(s, op, id))
  {
  }

  lemma MatchedKeepsPoolOwners(base: string, s: State, op: Op, id: Id)
    requires PoolOwners(base, s) && Proceeds(base, s, op, id)
    ensures PoolOwners(base, Apply(s, op, id))
  {
    hide PoolOwners, References, Matched, Sane, Verdict, Apply, StructureOp;
    if StructureOp(op) {
      StructureKeepsPoolOwners(base, s, op, id);
    } else {
      ContentKeepsPoolOwners(base, s, op, id);
    }
  }

  lemma PoolLinksKeepPoolsAttached(base: string, s: State, op: Op, id: Id)
    requires PoolsAttached(base, s) && Proceeds(base, s, op, id) && (op.CreatePool? || op.DeletePool?)
    ensures PoolsAttached(base, Apply(s, op, id))
  {
  }

  lemma MonitorLinksKeepPoolsAttached(base: string, s: State, op: Op, id: Id)
    requires PoolsAttached(base, s) && Proceeds(base, s, op, id) && (op.CreateMonitor? || op.DeleteMonitor?)
    ensures PoolsAttached(base, Apply(s, op, id))
  {
  }

  lemma StructureKeepsPoolsAttached(base: string, s: State, op: Op, id: Id)
    requires PoolsAttached(base, s) && Proceeds(base, s, op, id) && StructureOp(op)
    ensures PoolsAttached(base, Apply(s, op, id))
  {
    hide PoolsAttached, References, Matched, Sane, Verdict, Apply;
    if op.CreatePool? || op.DeletePool? {
      PoolLinksKeepPoolsAttached(base, s, op, id);
    } else {
      MonitorLinksKeepPoolsAttached(base, s, op, id);
    }
  }

  lemma ContentKeepsPoolsAttached(base: string, s: State, op: Op, id: Id)
    requires PoolsAttached(base, s) && Proceeds(base, s, op, id) && !StructureOp(op)
    ensures PoolsAttached(base, Apply(s, op, id))
  {
  }

  lemma MatchedKeepsPoolsAttached(base: string, s: State, op: Op, id: Id)
    requires PoolsAttached(base, s) && Proceeds(base, s, op, id)
    ensures PoolsAttached(base, Apply(s, op, id))
  {
    hide PoolsAttached, References, Matched, Sane, Verdict, Apply, StructureOp;
    if StructureOp(op) {
      StructureKeepsPoolsAttached(base, s, op, id);
    } else {
      ContentKeepsPoolsAttached(base, s, op, id);
    }
  }

  lemma StructureKeepsMonitorOwners(base: string, s: State, op: Op, id: Id)
    requires MonitorOwners(base, s) && Proceeds(base, s, op, id) && StructureOp(op)
    ensures MonitorOwners(base, Apply(s, op, id))
  {
  }

  lemma ContentKeepsMonitorOwners(base: string, s: State, op: Op, id: Id)
    requires MonitorOwners(base, s) && Proceeds(base, s, op, id) && !StructureOp(op)
    ensures MonitorOwners(base, Apply(s, op, id))
  {
  }

  lemma MatchedKeepsMonitorOwners(base: string, s: State, op: Op, id: Id)
    requires MonitorOwners(base, s) && Proceeds(base, s, op, id)
    ensures MonitorOwners(base, Apply(s, op, id))
  {
    hide MonitorOwners, References, Matched, Sane, Verdict, Apply, StructureOp;
    if StructureOp(op) {
      StructureKeepsMonitorOwners(base, s, op, id);
    } else {
      ContentKeepsMonitorOwners(base, s, op, id);
    }
  }

  lemma StructureKeepsMonitorsAttached(base: string, s: State, op: Op, id: Id)
    requires MonitorsAttached(base, s) && Proceeds(base, s, op, id) && StructureOp(op)
    ensures MonitorsAttached(base, Apply(s, op, id))
  {
  }

  lemma ContentKeepsMonitorsAttached(base: string, s: State, op: Op, id: Id)
    requires MonitorsAttached(base, s) && Proceeds(base, s, op, id) && !StructureOp(op)
    ensures MonitorsAttached(base, Apply(s, op, id))
  {
  }

  lemma MatchedKeepsMonitorsAttached(base: string, s: State, op: Op, id: Id)
    requires MonitorsAttached(base, s) && Proceeds(base, s, op, id)
    ensures MonitorsAttached(base, Apply(s, op, id))
  {
    hide MonitorsAttached, References, Matched, Sane, Verdict, Apply, StructureOp;
    if StructureOp(op) {
      StructureKeepsMonitorsAttached(base, s, op, id);
    } else {
      ContentKeepsMonitorsAttached(base, s, op, id);
    }
  }

  lemma MatchedKeepsGroups(base: string, s: State, op: Op, id: Id)
    requires GroupsAtHome(base, s) && Matched(base, s, op)
    requires Verdict(s, op) == Ok && Fresh(s, id)
    ensures GroupsAtHome(base, Apply(s, op, id))
  {
    hide Apply, Verdict;
    var t := Apply(s, op, id);
    if op.CreateListener? {
      ListenerMade(s, op, id);
    }
    if op.CreateGroup? {
      GroupMade(s, op, id);
    }
    if op.SetGroup? {
      Attached(s, op, id);
    }
    forall l | l in t.listeners && (op.CreateListener? ==> l != id)
      ensures l in s.listeners && t.listeners[l].name == s.listeners[l].name
      ensures (op.SetGroup? ==> l != op.listener) ==> t.listeners[l].group == s.listeners[l].group
    {
      PlaceKept(s, op, id, l);
      if op.SetGroup? ==> l != op.listener {
        BindingKept(s, op, id, l);
      }
    }
    forall g | g in t.groups && (op.CreateGroup? ==> g != id)
      ensures g in s.groups && t.groups[g].name == s.groups[g].name
    {
      GroupKept(s, op, id, g);
    }
  }

  lemma MatchedKeepsCoherent(base: string, s: State, op: Op, id: Id)
    requires Coherent(base, s) && References(s) && Matched(base, s, op) && Sane(s, op)
    requires Verdict(s, op) == Ok && Fresh(s, id)
    ensures Coherent(base, Apply(s, op, id))
  {
    MatchedKeepsPoolOwners(base, s, op, id);
    MatchedKeepsPoolsAttached(base, s, op, id);
    MatchedKeepsMonitorOwners(base, s, op, id);
    MatchedKeepsMonitorsAttached(base, s, op, id);
    MatchedKeepsGroups(base, s, op, id);
  }

  /** The territory is kept by its owner's requests, and by anybody who creates listeners elsewhere only. */
  lemma TerritoryStep(base: string, lb: Id, keys: set<Key>, s: State, op: Op, id: Id)
    requires Territory(base, lb, keys, s) && Verdict(s, op) == Ok && Fresh(s, id)
    requires op.CreateListener? ==> Own(base, op.name) || op.lb != lb || op.key !in keys
    ensures Territory(base, lb, keys, Apply(s, op, id))
  {
    hide Apply, Verdict;
    if op.CreateListener? {
      ListenerMade(s, op, id);
    }
    forall l | l in Apply(s, op, id).listeners && (op.CreateListener? ==> l != id)
      ensures l in s.listeners && Apply(s, op, id).listeners[l].lb == s.listeners[l].lb
      ensures Apply(s, op, id).listeners[l].key == s.listeners[l].key
      ensures Apply(s, op, id).listeners[l].name == s.listeners[l].name
    {
      PlaceKept(s, op, id, l);
    }
  }
}

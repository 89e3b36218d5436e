/** What one justified request does to the well-formedness of the cloud and to the other listeners. */
module Steps {
  import opened Basics
  import opened CloudState
  import opened Service
  import opened Plan

  /** Requests that name existing resources and attach at most one child to each. */
  predicate Sane(s: State, op: Op) {
    match op
    case CreatePool(l, _, _, _) => l in s.listeners && s.listeners[l].pool.None?
    case CreateMonitor(q, _, _) => q in s.pools && s.pools[q].monitor.None?
    case _ => true
  }

  /** Requests that create or delete a pool or a monitor. */
  predicate StructureOp(op: Op) { op.CreatePool? || op.DeletePool? || op.CreateMonitor? || op.DeleteMonitor? }

  lemma StructureKeepsPoolRefs(s: State, op: Op, id: Id)
    requires StructureOp(op) && PoolRefs(s) && Sane(s, op) && Verdict(s, op) == Ok && Fresh(s, id)
    ensures PoolRefs(Apply(s, op, id))
  {
  }

  lemma ContentKeepsPoolRefs(s: State, op: Op, id: Id)
    requires !StructureOp(op) && PoolRefs(s) && Sane(s, op) && Verdict(s, op) == Ok && Fresh(s, id)
    ensures PoolRefs(Apply(s, op, id))
  {
  }

  lemma SaneKeepsPoolRefs(s: State, op: Op, id: Id)
    requires PoolRefs(s) && Sane(s, op) && Verdict(s, op) == Ok && Fresh(s, id)
    ensures PoolRefs(Apply(s, op, id))
  {
    hide PoolRefs, Sane, Verdict, Apply, StructureOp;
    if StructureOp(op) {
      StructureKeepsPoolRefs(s, op, id);
    } else {
      ContentKeepsPoolRefs(s, op, id);
    }
  }

  lemma StructureKeepsMonitorRefs(s: State, op: Op, id: Id)
    requires StructureOp(op) && MonitorRefs(s) && Sane(s, op) && Verdict(s, op) == Ok && Fresh(s, id)
    ensures MonitorRefs(Apply(s, op, id))
  {
  }

  lemma ContentKeepsMonitorRefs(s: State, op: Op, id: Id)
    requires !StructureOp(op) && MonitorRefs(s) && Sane(s, op) && Verdict(s, op) == Ok && Fresh(s, id)
    ensures MonitorRefs(Apply(s, op, id))
  {
  }

  lemma SaneKeepsMonitorRefs(s: State, op: Op, id: Id)
    requires MonitorRefs(s) && Sane(s, op) && Verdict(s, op) == Ok && Fresh(s, id)
    ensures MonitorRefs(Apply(s, op, id))
  {
    hide MonitorRefs, Sane, Verdict, Apply, StructureOp;
    if StructureOp(op) {
      StructureKeepsMonitorRefs(s, op, id);
    } else {
      ContentKeepsMonitorRefs(s, op, id);
    }
  }

  lemma SaneKeepsMemberDomain(s: State, op: Op, id: Id)
    requires s.members.Keys == s.pools.Keys && Sane(s, op) && Verdict(s, op) == Ok && Fresh(s, id)
    ensures Apply(s, op, id).members.Keys == Apply(s, op, id).pools.Keys
  {
  }

  lemma JustifiedIsSane(cfg: Config, verb: Verb, s: State, why: Purpose, op: Op)
    requires Justified(cfg, verb, s, why, op)
    ensures Sane(s, op)
  {
  }

  /** Only a create request makes listeners, and no request moves or renames one. */
  lemma PlaceKept(s: State, op: Op, id: Id, l: Id)
    requires Verdict(s, op) == Ok && l in Apply(s, op, id).listeners && (op.CreateListener? ==> l != id)
    ensures l in s.listeners
    ensures var a, b := s.listeners[l], Apply(s, op, id).listeners[l];
            b.lb == a.lb && b.key == a.key && b.name == a.name
  {
  }

  /** Only attaching changes how a listener binds IP groups. */
  lemma BindingKept(s: State, op: Op, id: Id, l: Id)
    requires Verdict(s, op) == Ok && l in Apply(s, op, id).listeners && (op.CreateListener? ==> l != id)
    requires op.SetGroup? ==> l != op.listener
    ensures l in s.listeners
    ensures var a, b := s.listeners[l], Apply(s, op, id).listeners[l];
            b.group == a.group && b.enabled == a.enabled && b.kind == a.kind
  {
  }

  /** What a new listener looks like. */
  lemma ListenerMade(s: State, op: Op, id: Id)
    requires op.CreateListener?
    ensures id in Apply(s, op, id).listeners
    ensures Apply(s, op, id).listeners[id] == Listener(op.lb, op.name, op.key, op.idle, None, None, None, "")
  {
  }

  /** Only requests on IP groups change them; a group keeps its name. */
  lemma GroupKept(s: State, op: Op, id: Id, g: Id)
    requires Verdict(s, op) == Ok && g in Apply(s, op, id).groups && (op.CreateGroup? ==> g != id)
    ensures g in s.groups && Apply(s, op, id).groups[g].name == s.groups[g].name
    ensures !op.UpdateGroup? ==> Apply(s, op, id).groups[g] == s.groups[g]
  {
  }

  lemma GroupMade(s: State, op: Op, id: Id)
    requires op.CreateGroup?
    ensures id in Apply(s, op, id).groups && Apply(s, op, id).groups[id] == Group(op.name, op.ips)
    ensures Apply(s, op, id).listeners == s.listeners
  {
  }

  lemma Attached(s: State, op: Op, id: Id)
    requires op.SetGroup? && Verdict(s, op) == Ok
    ensures op.listener in Apply(s, op, id).listeners && Apply(s, op, id).listeners[op.listener].group == Some(op.group)
  {
  }

  lemma JustifiedKeepsKeys(cfg: Config, verb: Verb, s: State, why: Purpose, op: Op, id: Id)
    requires KeysUnique(s) && Justified(cfg, verb, s, why, op) && Verdict(s, op) == Ok && Fresh(s, id)
    ensures KeysUnique(Apply(s, op, id))
  {
    hide Apply, Verdict;
    if op.CreateListener? {
      ListenerMade(s, op, id);
    }
    forall l | l in Apply(s, op, id).listeners && (op.CreateListener? ==> l != id)
      ensures l in s.listeners && Apply(s, op, id).listeners[l].lb == s.listeners[l].lb
      ensures Apply(s, op, id).listeners[l].key == s.listeners[l].key
    {
      PlaceKept(s, op, id, l);
    }
  }

  lemma OtherOpsLeaveMonitors(s: State, op: Op, id: Id)
    requires Verdict(s, op) == Ok && !op.CreateMonitor? && !op.UpdateMonitor?
    ensures Apply(s, op, id).monitors.Keys <= s.monitors.Keys
    ensures forall m :: m in Apply(s, op, id).monitors ==> Apply(s, op, id).monitors[m] == s.monitors[m]
  {
  }

  lemma MonitorRequest(cfg: Config, s: State, p: Port, l: Id, op: Op)
    requires Upkeep(cfg, s, p, l, op)
    ensures op.CreateMonitor? ==> op.probe == ProbeFor(cfg, p)
    ensures op.UpdateMonitor? ==> op.probe == ProbeFor(cfg, p) && op.monitor in s.monitors
                                  && SameShape(s.monitors[op.monitor].probe, ProbeFor(cfg, p))
  {
  }

  lemma RemovesOnly(base: string, s: State, l: Id, op: Op)
    requires Removal(base, s, l, op)
    ensures !op.CreateMonitor? && !op.UpdateMonitor? && !op.UpdateGroup? && !op.CreateGroup?
    ensures op.DeleteGroup? ==> op.group in s.groups && Own(base, s.groups[op.group].name)
  {
  }

  lemma JustifiedKeepsPlain(cfg: Config, verb: Verb, s: State, why: Purpose, op: Op, id: Id)
    requires ProbesPlain(s) && Justified(cfg, verb, s, why, op) && Verdict(s, op) == Ok && Fresh(s, id)
    ensures ProbesPlain(Apply(s, op, id))
  {
    hide Upkeep, Removal, Verdict;
    if !op.CreateMonitor? && !op.UpdateMonitor? {
      hide Apply;
      OtherOpsLeaveMonitors(s, op, id);
    } else if why.ForPort? {
      MonitorRequest(cfg, s, why.port, why.listener, op);
    } else {
      RemovesOnly(cfg.name, s, why.listener, op);
    }
  }

  lemma DetachedKeepsTidy(base: string, s: State, op: Op, id: Id)
    requires GroupsTidy(base, s) && !op.SetGroup? && Verdict(s, op) == Ok && Fresh(s, id)
    ensures GroupsTidy(base, Apply(s, op, id))
  {
    hide Apply, Verdict;
    var t := Apply(s, op, id);
    if op.CreateListener? {
      ListenerMade(s, op, id);
    }
    if op.CreateGroup? {
      GroupMade(s, op, id);
    }
    forall l | l in t.listeners && (op.CreateListener? ==> l != id)
      ensures l in s.listeners && t.listeners[l].group == s.listeners[l].group
      ensures t.listeners[l].enabled == s.listeners[l].enabled && t.listeners[l].kind == s.listeners[l].kind
    {
      BindingKept(s, op, id, l);
    }
    forall g | g in t.groups && (op.CreateGroup? ==> g != id)
        ensures g in s.groups && t.groups[g].name == s.groups[g].name {
      GroupKept(s, op, id, g);
    }
  }

  lemma AttachKeepsTidy(cfg: Config, s: State, p: Port, op: Op, id: Id)
    requires GroupsTidy(cfg.name, s) && op.SetGroup?
    requires MayAttach(cfg, s, p, op.listener, op.group, op.enable, op.kind)
    ensures GroupsTidy(cfg.name, Apply(s, op, id))
  {
  }

  lemma JustifiedKeepsTidy(cfg: Config, verb: Verb, s: State, why: Purpose, op: Op, id: Id)
    requires GroupsTidy(cfg.name, s)
    requires Justified(cfg, verb, s, why, op) && Verdict(s, op) == Ok && Fresh(s, id)
    ensures GroupsTidy(cfg.name, Apply(s, op, id))
  {
    if op.SetGroup? {
      AttachKeepsTidy(cfg, s, why.port, op, id);
    } else {
      DetachedKeepsTidy(cfg.name, s, op, id);
    }
  }

  /** A justified request keeps the cloud well-formed. */
  lemma JustifiedKeepsWellFormed(cfg: Config, verb: Verb, s: State, why: Purpose, op: Op, id: Id)
    requires WellFormed(cfg.name, s) && Justified(cfg, verb, s, why, op) && Verdict(s, op) == Ok && Fresh(s, id)
    ensures WellFormed(cfg.name, Apply(s, op, id))
  {
    JustifiedIsSane(cfg, verb, s, why, op);
    SaneKeepsPoolRefs(s, op, id);
    SaneKeepsMonitorRefs(s, op, id);
    SaneKeepsMemberDomain(s, op, id);
    JustifiedKeepsKeys(cfg, verb, s, why, op, id);
    JustifiedKeepsPlain(cfg, verb, s, why, op, id);
    JustifiedKeepsTidy(cfg, verb, s, why, op, id);
  }

  /** The request reaches no resource outside the tree of listener `l`. */
  predicate Within(s: State, op: Op, id: Id, l: Id) {
    match op
    case CreateListener(_, _, _, _) => id == l
    case SetIdle(x, _) => x == l
    case SetGroup(x, _, _, _) => x == l
    case DeleteListener(x) => x == l
    case CreatePool(x, _, _, _) => x == l
    case UpdatePool(q, _, _) => HasPool(s, l, q)
    case DeletePool(q) => HasPool(s, l, q)
    case CreateMember(q, _) => HasPool(s, l, q)
    case DeleteMember(q, _) => HasPool(s, l, q)
    case CreateMonitor(q, _, _) => HasPool(s, l, q)
    case UpdateMonitor(m, _) => HasMonitor(s, l, m)
    case DeleteMonitor(m) => HasMonitor(s, l, m)
    case CreateGroup(_, _) => true
    case UpdateGroup(g, _) => BoundOnlyTo(s, g, l)
    case DeleteGroup(_) => true
    case _ => false
  }

  lemma StructureFrames(s: State, op: Op, id: Id, l: Id, k: Id)
    requires References(s) && Within(s, op, id, l) && Verdict(s, op) == Ok && Fresh(s, id)
    requires k != l && StructureOp(op)
    ensures TreeOf(Apply(s, op, id), k) == TreeOf(s, k)
  {
  }

  lemma ContentFrames(s: State, op: Op, id: Id, l: Id, k: Id)
    requires References(s) && Within(s, op, id, l) && Verdict(s, op) == Ok && Fresh(s, id)
    requires k != l && !StructureOp(op)
    ensures TreeOf(Apply(s, op, id), k) == TreeOf(s, k)
  {
  }

  lemma StepFrame(s: State, op: Op, id: Id, l: Id)
    requires References(s) && Within(s, op, id, l) && Verdict(s, op) == Ok && Fresh(s, id)
    ensures Frame(s, Apply(s, op, id), l)
  {
    hide TreeOf, References, StructureOp;
    forall k | k != l ensures TreeOf(Apply(s, op, id), k) == TreeOf(s, k) {
      if StructureOp(op) {
        StructureFrames(s, op, id, l, k);
      } else {
        ContentFrames(s, op, id, l, k);
      }
    }
  }

  /** A justified request stays within the tree of the listener it is made for. */
  lemma JustifiedIsWithin(cfg: Config, verb: Verb, s: State, why: Purpose, op: Op, id: Id)
    requires GroupsTidy(cfg.name, s) && Justified(cfg, verb, s, why, op)
    requires |cfg.name| < MAX_NAME
    ensures op.CreateListener? ==> Within(s, op, id, id)
    ensures !op.CreateListener? ==> Within(s, op, id, why.listener)
  {
  }

  /** In a well-formed cloud the backend never has a reason to refuse a justified request. */
  lemma JustifiedIsAccepted(cfg: Config, verb: Verb, s: State, why: Purpose, op: Op)
    requires References(s) && Justified(cfg, verb, s, why, op)
    ensures Verdict(s, op) == Ok
  {
  }

  /** The groups a request may leave without a listener. */
  function Shed(s: State, op: Op, id: Id): set<Id> {
    if op.CreateGroup? then {id}
    else if op.DeleteListener? && op.listener in s.listeners && s.listeners[op.listener].group.Some?
    then {s.listeners[op.listener].group.value}
    else {}
  }

  lemma BoundPersists(cfg: Config, verb: Verb, s: State, why: Purpose, op: Op, id: Id, g: Id)
    requires Justified(cfg, verb, s, why, op) && Verdict(s, op) == Ok && Fresh(s, id)
    requires Bound(s, g) && g in s.groups && g !in Shed(s, op, id)
    ensures Bound(Apply(s, op, id), g)
  {
    hide Apply, Verdict;
    var l :| l in s.listeners && s.listeners[l].group == Some(g);
    var t := Apply(s, op, id);
    NotShed(cfg, verb, s, why, op, id, l, g);
    BinderStays(s, op, id, l);
    assert l in t.listeners && t.listeners[l].group == Some(g);
  }

  /** A listener stays, with its group, unless it is deleted or another group is attached. */
  lemma BinderStays(s: State, op: Op, id: Id, l: Id)
    requires l in s.listeners && Verdict(s, op) == Ok && Fresh(s, id)
    requires op.DeleteListener? ==> op.listener != l
    requires op.SetGroup? && op.listener == l ==> s.listeners[l].group == Some(op.group)
    ensures l in Apply(s, op, id).listeners && Apply(s, op, id).listeners[l].group == s.listeners[l].group
  {
  }

  lemma NotShed(cfg: Config, verb: Verb, s: State, why: Purpose, op: Op, id: Id, l: Id, g: Id)
    requires Justified(cfg, verb, s, why, op) && l in s.listeners && s.listeners[l].group == Some(g)
    requires g in s.groups && g !in Shed(s, op, id)
    ensures op.DeleteListener? ==> op.listener != l
    ensures op.SetGroup? && op.listener == l ==> op.group == g
  {
  }

  lemma OrphansStep(cfg: Config, verb: Verb, s: State, why: Purpose, op: Op, id: Id)
    requires Justified(cfg, verb, s, why, op) && Verdict(s, op) == Ok && Fresh(s, id)
    ensures Orphans(cfg.name, Apply(s, op, id)) <= Orphans(cfg.name, s) + Shed(s, op, id)
  {
    hide Apply, Verdict, Justified, Bound;
    var t := Apply(s, op, id);
    forall g | g in Orphans(cfg.name, t) ensures g in Orphans(cfg.name, s) + Shed(s, op, id) {
      if !(op.CreateGroup? && g == id) { GroupKept(s, op, id, g); }
      if g !in Shed(s, op, id) && Bound(s, g) {
        BoundPersists(cfg, verb, s, why, op, id, g);
      }
    }
  }

  /** A group is orphaned exactly by its creation, until it is attached, and by the deletion of the listener that binds
      it. */
  lemma OrphansGrowIff(cfg: Config, verb: Verb, s: State, why: Purpose, op: Op, id: Id)
    requires GroupsTidy(cfg.name, s) && |cfg.name| < MAX_NAME
    requires Justified(cfg, verb, s, why, op) && Verdict(s, op) == Ok && Fresh(s, id)
    ensures !(Orphans(cfg.name, Apply(s, op, id)) <= Orphans(cfg.name, s)) <==>
            || op.CreateGroup?
            || (op.DeleteListener? && s.listeners[op.listener].group.Some?
                && s.listeners[op.listener].group.value in s.groups
                && Own(cfg.name, s.groups[s.listeners[op.listener].group.value].name))
  {
    OrphansStep(cfg, verb, s, why, op, id);
    var t := Apply(s, op, id);
    if op.CreateGroup? {
      OwnershipIff(cfg.name, why.port.key);
      assert id in Orphans(cfg.name, t);
    } else if op.DeleteListener? && s.listeners[op.listener].group.Some? {
      var g := s.listeners[op.listener].group.value;
      assert Bound(s, g);
      assert g in s.groups && Own(cfg.name, s.groups[g].name) ==> g in Orphans(cfg.name, t);
    }
  }

  /** Member keys are unique in every pool. */
  predicate NoDuplicates(s: State) {
    forall q :: q in s.members ==> UniqueMembers(s.members[q])
  }

  lemma OtherOpKeepsUnique(s: State, op: Op, id: Id)
    requires NoDuplicates(s) && Verdict(s, op) == Ok && !op.CreateMember?
    ensures NoDuplicates(Apply(s, op, id))
  {
  }

  lemma NewMemberKeepsUnique(s: State, op: Op, id: Id)
    requires NoDuplicates(s) && Verdict(s, op) == Ok && Fresh(s, id)
    requires op.CreateMember? && op.member.key !in KeysOf(s.members[op.pool])
    ensures NoDuplicates(Apply(s, op, id))
  {
    assert UniqueMembers(s.members[op.pool]);
  }

  lemma JustifiedKeepsUnique(cfg: Config, verb: Verb, s: State, why: Purpose, op: Op, id: Id)
    requires NoDuplicates(s) && Justified(cfg, verb, s, why, op) && Verdict(s, op) == Ok && Fresh(s, id)
    ensures NoDuplicates(Apply(s, op, id))
  {
    hide NoDuplicates, Apply, KeysOf;
    if op.CreateMember? {
      NewMemberKeepsUnique(s, op, id);
    } else {
      OtherOpKeepsUnique(s, op, id);
    }
  }

  lemma {:induction false} RunKeepsUnique(cfg: Config, verb: Verb, start: State, calls: seq<Call>, now: State)
    requires LegalRun(cfg, verb, start, calls, now) && NoDuplicates(start)
    ensures NoDuplicates(now)
    decreases |calls|
  {
    if calls != [] {
      var n := |calls| - 1;
      RunKeepsUnique(cfg, verb, start, calls[..n], calls[n].pre);
      assert LegalCall(cfg, verb, calls[n]);
      if calls[n].done {
        JustifiedKeepsUnique(cfg, verb, calls[n].pre, calls[n].why, calls[n].op, calls[n].id);
      }
    }
  }

  // ----- load balancers and EIPs -----

  lemma JustifiedSparesBalancers(cfg: Config, verb: Verb, s: State, why: Purpose, op: Op, id: Id)
    requires Justified(cfg, verb, s, why, op) && Verdict(s, op) == Ok
    ensures Apply(s, op, id).balancers == s.balancers && Apply(s, op, id).eips == s.eips
  {
  }

  /** No run touches a load balancer itself or an EIP. */
  lemma {:induction false} RunSparesBalancers(cfg: Config, verb: Verb, start: State, calls: seq<Call>, now: State)
    requires LegalRun(cfg, verb, start, calls, now)
    ensures now.balancers == start.balancers && now.eips == start.eips
    decreases |calls|
  {
    hide Justified, Apply;
    if calls != [] {
      var n := |calls| - 1;
      RunSparesBalancers(cfg, verb, start, calls[..n], calls[n].pre);
      assert LegalCall(cfg, verb, calls[n]);
      if calls[n].done {
        JustifiedSparesBalancers(cfg, verb, calls[n].pre, calls[n].why, calls[n].op, calls[n].id);
      }
    }
  }
}

/** On its own slice of the cloud a Service's requests act exactly as they do on the whole cloud. */
module Solo {
  import opened Basics
  import opened CloudState
  import opened Service
  import opened Plan
  import opened Isolation

  /** The slice of `base` as it stands alone. */
  function Mine(base: string, s: State): State { Slice(base, true, s) }

  lemma OwnOpAcceptedAlone(base: string, s: State, op: Op)
    requires OwnOp(base, s, op) && s.members.Keys == s.pools.Keys && Verdict(s, op) == Ok
    ensures Verdict(Mine(base, s), op) == Ok
  {
  }

  /** A request on the resources of `base`, accepted by the whole cloud and by the slice. */
  predicate Alike(base: string, s: State, op: Op, id: Id) {
    && OwnOp(base, s, op) && s.members.Keys == s.pools.Keys && Fresh(s, id)
    && Verdict(s, op) == Ok && Verdict(Mine(base, s), op) == Ok
  }

  lemma ListenerMoved(base: string, s: State, op: Op, id: Id)
    requires Alike(base, s, op, id) && (op.CreateListener? || op.DeleteListener?)
    ensures KeptListeners(base, true, Apply(s, op, id)) == Apply(Mine(base, s), op, id).listeners
  {
  }

  lemma ListenerChanged(base: string, s: State, op: Op, id: Id)
    requires Alike(base, s, op, id) && (op.SetIdle? || op.SetGroup?)
    ensures KeptListeners(base, true, Apply(s, op, id)) == Apply(Mine(base, s), op, id).listeners
  {
  }

  lemma ListenerOpCommutes(base: string, s: State, op: Op, id: Id)
    requires Alike(base, s, op, id) && ListenerOp(op)
    ensures Mine(base, Apply(s, op, id)) == Apply(Mine(base, s), op, id)
  {
    hide KeptListeners, KeptPools, KeptMembers, KeptMonitors, KeptGroups, OwnOp, Fresh;
    if op.CreateListener? || op.DeleteListener? {
      ListenerMoved(base, s, op, id);
    } else {
      ListenerChanged(base, s, op, id);
    }
    SameKept(base, true, s, Apply(s, op, id));
  }

  lemma MemberOpOnMembers(base: string, s: State, op: Op, id: Id)
    requires Alike(base, s, op, id) && MemberOp(op)
    ensures KeptMembers(base, true, Apply(s, op, id)) == Apply(Mine(base, s), op, id).members
  {
    hide Fresh, KeptListeners, KeptMonitors, KeptGroups, OwnListener, OwnMonitor, OwnGroup;
  }

  lemma MemberOpCommutes(base: string, s: State, op: Op, id: Id)
    requires Alike(base, s, op, id) && MemberOp(op)
    ensures Mine(base, Apply(s, op, id)) == Apply(Mine(base, s), op, id)
  {
    hide KeptListeners, KeptPools, KeptMembers, KeptMonitors, KeptGroups, OwnOp, Fresh;
    MemberOpOnMembers(base, s, op, id);
    SameKept(base, true, s, Apply(s, op, id));
  }

  lemma PoolOpOnListeners(base: string, s: State, op: Op, id: Id)
    requires Alike(base, s, op, id) && (op.CreatePool? || op.DeletePool?)
    ensures KeptListeners(base, true, Apply(s, op, id)) == Apply(Mine(base, s), op, id).listeners
  {
  }

  lemma CreatePoolOnPools(base: string, s: State, op: Op, id: Id)
    requires Alike(base, s, op, id) && op.CreatePool?
    ensures KeptPools(base, true, Apply(s, op, id)) == Apply(Mine(base, s), op, id).pools
  {
  }

  lemma CreatePoolOnMembers(base: string, s: State, op: Op, id: Id)
    requires Alike(base, s, op, id) && op.CreatePool?
    ensures KeptMembers(base, true, Apply(s, op, id)) == Apply(Mine(base, s), op, id).members
  {
  }

  lemma CreatePoolCommutes(base: string, s: State, op: Op, id: Id)
    requires Alike(base, s, op, id) && op.CreatePool?
    ensures Mine(base, Apply(s, op, id)) == Apply(Mine(base, s), op, id)
  {
    PoolOpOnListeners(base, s, op, id);
    CreatePoolOnPools(base, s, op, id);
    CreatePoolOnMembers(base, s, op, id);
  }

  lemma UpdatePoolOnPools(base: string, s: State, op: Op, id: Id)
    requires Alike(base, s, op, id) && op.UpdatePool?
    ensures KeptPools(base, true, Apply(s, op, id)) == Apply(Mine(base, s), op, id).pools
  {
  }

  lemma UpdatePoolOnMembers(base: string, s: State, op: Op, id: Id)
    requires Alike(base, s, op, id) && op.UpdatePool?
    ensures KeptMembers(base, true, Apply(s, op, id)) == Apply(Mine(base, s), op, id).members
  {
  }

  lemma UpdatePoolCommutes(base: string, s: State, op: Op, id: Id)
    requires Alike(base, s, op, id) && op.UpdatePool?
    ensures Mine(base, Apply(s, op, id)) == Apply(Mine(base, s), op, id)
  {
    UpdatePoolOnPools(base, s, op, id);
    UpdatePoolOnMembers(base, s, op, id);
  }

  lemma DeletePoolOnPools(base: string, s: State, op: Op, id: Id)
    requires Alike(base, s, op, id) && op.DeletePool?
    ensures KeptPools(base, true, Apply(s, op, id)) == Apply(Mine(base, s), op, id).pools
  {
  }

  lemma DeletePoolOnMembers(base: string, s: State, op: Op, id: Id)
    requires Alike(base, s, op, id) && op.DeletePool?
    ensures KeptMembers(base, true, Apply(s, op, id)) == Apply(Mine(base, s), op, id).members
  {
  }

  lemma DeletePoolCommutes(base: string, s: State, op: Op, id: Id)
    requires Alike(base, s, op, id) && op.DeletePool?
    ensures Mine(base, Apply(s, op, id)) == Apply(Mine(base, s), op, id)
  {
    PoolOpOnListeners(base, s, op, id);
    DeletePoolOnPools(base, s, op, id);
    DeletePoolOnMembers(base, s, op, id);
  }

  lemma CreateMonitorOnPools(base: string, s: State, op: Op, id: Id)
    requires Alike(base, s, op, id) && op.CreateMonitor?
    ensures KeptPools(base, true, Apply(s, op, id)) == Apply(Mine(base, s), op, id).pools
  {
  }

  lemma CreateMonitorOnMonitors(base: string, s: State, op: Op, id: Id)
    requires Alike(base, s, op, id) && op.CreateMonitor?
    ensures KeptMonitors(base, true, Apply(s, op, id)) == Apply(Mine(base, s), op, id).monitors
  {
  }

  lemma CreateMonitorCommutes(base: string, s: State, op: Op, id: Id)
    requires Alike(base, s, op, id) && op.CreateMonitor?
    ensures Mine(base, Apply(s, op, id)) == Apply(Mine(base, s), op, id)
  {
    hide KeptListeners, KeptPools, KeptMembers, KeptMonitors, KeptGroups, OwnOp, Fresh;
    SameKept(base, true, s, Apply(s, op, id));
    CreateMonitorOnPools(base, s, op, id);
    LinkKeepsMembers(base, true, s, op, id);
    CreateMonitorOnMonitors(base, s, op, id);
  }

  lemma UpdateMonitorOnMonitors(base: string, s: State, op: Op, id: Id)
    requires Alike(base, s, op, id) && op.UpdateMonitor?
    ensures KeptMonitors(base, true, Apply(s, op, id)) == Apply(Mine(base, s), op, id).monitors
  {
  }

  lemma UpdateMonitorCommutes(base: string, s: State, op: Op, id: Id)
    requires Alike(base, s, op, id) && op.UpdateMonitor?
    ensures Mine(base, Apply(s, op, id)) == Apply(Mine(base, s), op, id)
  {
    hide KeptListeners, KeptPools, KeptMembers, KeptMonitors, KeptGroups, OwnOp, Fresh;
    UpdateMonitorOnMonitors(base, s, op, id);
    SameKept(base, true, s, Apply(s, op, id));
  }

  lemma DeleteMonitorOnPools(base: string, s: State, op: Op, id: Id)
    requires Alike(base, s, op, id) && op.DeleteMonitor?
    ensures KeptPools(base, true, Apply(s, op, id)) == Apply(Mine(base, s), op, id).pools
  {
  }

  lemma DeleteMonitorOnMonitors(base: string, s: State, op: Op, id: Id)
    requires Alike(base, s, op, id) && op.DeleteMonitor?
    ensures KeptMonitors(base, true, Apply(s, op, id)) == Apply(Mine(base, s), op, id).monitors
  {
  }

  lemma DeleteMonitorCommutes(base: string, s: State, op: Op, id: Id)
    requires Alike(base, s, op, id) && op.DeleteMonitor?
    ensures Mine(base, Apply(s, op, id)) == Apply(Mine(base, s), op, id)
  {
    hide KeptListeners, KeptPools, KeptMembers, KeptMonitors, KeptGroups, OwnOp, Fresh;
    SameKept(base, true, s, Apply(s, op, id));
    DeleteMonitorOnPools(base, s, op, id);
    LinkKeepsMembers(base, true, s, op, id);
    DeleteMonitorOnMonitors(base, s, op, id);
  }

  lemma CreateGroupOnGroups(base: string, s: State, op: Op, id: Id)
    requires Alike(base, s, op, id) && op.CreateGroup?
    ensures KeptGroups(base, true, Apply(s, op, id)) == Apply(Mine(base, s), op, id).groups
  {
  }

  lemma CreateGroupCommutes(base: string, s: State, op: Op, id: Id)
    requires Alike(base, s, op, id) && op.CreateGroup?
    ensures Mine(base, Apply(s, op, id)) == Apply(Mine(base, s), op, id)
  {
    hide KeptListeners, KeptPools, KeptMembers, KeptMonitors, KeptGroups, OwnOp, Fresh;
    CreateGroupOnGroups(base, s, op, id);
    SameKept(base, true, s, Apply(s, op, id));
  }

  lemma UpdateGroupOnGroups(base: string, s: State, op: Op, id: Id)
    requires Alike(base, s, op, id) && op.UpdateGroup?
    ensures KeptGroups(base, true, Apply(s, op, id)) == Apply(Mine(base, s), op, id).groups
  {
  }

  lemma UpdateGroupCommutes(base: string, s: State, op: Op, id: Id)
    requires Alike(base, s, op, id) && op.UpdateGroup?
    ensures Mine(base, Apply(s, op, id)) == Apply(Mine(base, s), op, id)
  {
    hide KeptListeners, KeptPools, KeptMembers, KeptMonitors, KeptGroups, OwnOp, Fresh;
    UpdateGroupOnGroups(base, s, op, id);
    SameKept(base, true, s, Apply(s, op, id));
  }

  lemma DeleteGroupOnGroups(base: string, s: State, op: Op, id: Id)
    requires Alike(base, s, op, id) && op.DeleteGroup?
    ensures KeptGroups(base, true, Apply(s, op, id)) == Apply(Mine(base, s), op, id).groups
  {
  }

  lemma DeleteGroupCommutes(base: string, s: State, op: Op, id: Id)
    requires Alike(base, s, op, id) && op.DeleteGroup?
    ensures Mine(base, Apply(s, op, id)) == Apply(Mine(base, s), op, id)
  {
    hide KeptListeners, KeptPools, KeptMembers, KeptMonitors, KeptGroups, OwnOp, Fresh;
    DeleteGroupOnGroups(base, s, op, id);
    SameKept(base, true, s, Apply(s, op, id));
  }

  lemma OwnOpKinds(base: string, s: State, op: Op)
    requires OwnOp(base, s, op)
    ensures !op.CreateBalancer? && !op.DeleteBalancer? && !op.DeleteEip?
  {
  }

  /** Applying a request and taking the owner's slice commute. */
  lemma OwnOpCommutes(base: string, s: State, op: Op, id: Id)
    requires OwnOp(base, s, op) && s.members.Keys == s.pools.Keys && Fresh(s, id) && Verdict(s, op) == Ok
    ensures Verdict(Mine(base, s), op) == Ok
    ensures Mine(base, Apply(s, op, id)) == Apply(Mine(base, s), op, id)
  {
    hide Verdict, Apply, OwnOp, Mine, Fresh;
    OwnOpAcceptedAlone(base, s, op);
    OwnOpKinds(base, s, op);
    match op {
      case CreateListener(_, _, _, _) => ListenerOpCommutes(base, s, op, id);
      case SetIdle(_, _) => ListenerOpCommutes(base, s, op, id);
      case SetGroup(_, _, _, _) => ListenerOpCommutes(base, s, op, id);
      case DeleteListener(_) => ListenerOpCommutes(base, s, op, id);
      case CreatePool(_, _, _, _) => CreatePoolCommutes(base, s, op, id);
      case UpdatePool(_, _, _) => UpdatePoolCommutes(base, s, op, id);
      case DeletePool(_) => DeletePoolCommutes(base, s, op, id);
      case CreateMember(_, _) => MemberOpCommutes(base, s, op, id);
      case DeleteMember(_, _) => MemberOpCommutes(base, s, op, id);
      case CreateMonitor(_, _, _) => CreateMonitorCommutes(base, s, op, id);
      case UpdateMonitor(_, _) => UpdateMonitorCommutes(base, s, op, id);
      case DeleteMonitor(_) => DeleteMonitorCommutes(base, s, op, id);
      case CreateGroup(_, _) => CreateGroupCommutes(base, s, op, id);
      case UpdateGroup(_, _) => UpdateGroupCommutes(base, s, op, id);
      case DeleteGroup(_) => DeleteGroupCommutes(base, s, op, id);
    }
  }

  lemma AccessAlone(cfg: Config, s: State, p: Port, l: Id)
    requires Sound(cfg) && OwnListener(cfg.name, s, l) && AccessSettled(cfg, p, TreeOf(s, l).value)
    ensures AccessSettled(cfg, p, TreeOf(Mine(cfg.name, s), l).value)
  {
  }

  lemma UpkeepAlone(cfg: Config, s: State, p: Port, l: Id, op: Op)
    requires Sound(cfg) && Upkeep(cfg, s, p, l, op) && OwnOp(cfg.name, s, op) && s.members.Keys == s.pools.Keys
    requires l in s.listeners && At(s, cfg.lb, p.key, l) ==> OwnListener(cfg.name, s, l)
    requires Coherent(cfg.name, s)
    ensures Upkeep(cfg, Mine(cfg.name, s), p, l, op)
  {
    OwnershipIff(cfg.name, p.key);
    if op.CreatePool? {
      AccessAlone(cfg, s, p, l);
    }
  }

  lemma RemovalAlone(base: string, s: State, l: Id, op: Op)
    requires Removal(base, s, l, op) && OwnOp(base, s, op) && s.members.Keys == s.pools.Keys
    requires l in s.listeners ==> OwnListener(base, s, l)
    requires Coherent(base, s)
    ensures Removal(base, Mine(base, s), l, op)
  {
  }

  /** What is justified on the whole cloud is justified on the Service's slice alone. */
  lemma JustifiedAlone(cfg: Config, verb: Verb, s: State, why: Purpose, op: Op)
    requires Homely(cfg, verb, s) && Coherent(cfg.name, s) && References(s)
    requires Justified(cfg, verb, s, why, op)
    ensures Justified(cfg, verb, Mine(cfg.name, s), why, op)
  {
    JustifiedIsOwn(cfg, verb, s, why, op);
    if why.ForPort? {
      assert why.port.key in cfg.Wanted();
      UpkeepAlone(cfg, s, why.port, why.listener, op);
    } else if op.DeleteGroup? {
    } else {
      RemovalAlone(cfg.name, s, why.listener, op);
    }
  }
}

/** Pool members over whole runs: make before break, and the node update as a fast form of the full reconciliation. */
module Rollover {
  import opened Basics
  import opened CloudState
  import opened Service
  import opened Plan
  import opened Steps
  import opened Stability

  /** Pool `q` of listener `l` serves port `p`. */
  predicate Serves(cfg: Config, s: State, p: Port, l: Id, q: Id) {
    p in cfg.Ports() && At(s, cfg.lb, p.key, l) && HasPool(s, l, q)
  }

  /** How the members `now` of a pool may have come about from `before`. */
  ghost predicate Rolled(cfg: Config, p: Port, before: map<Id, Member>, now: map<Id, Member>) {
    && (forall id :: id in before && before[id].key in WantedKeys(cfg, p) ==> id in now && now[id] == before[id])
    && (forall id :: id in now ==>
          || (id in before && now[id] == before[id])
          || (now[id].key in WantedKeys(cfg, p) && now[id] == WantedMember(cfg, p, now[id].key)
              && now[id].key !in KeysOf(before)))
    && ((exists id :: id in before && id !in now) ==> WantedKeys(cfg, p) != {} && WantedKeys(cfg, p) <= KeysOf(now))
    && (before != map[] ==> now != map[])
  }

  lemma RolledOneMore(cfg: Config, p: Port, before: map<Id, Member>, now: map<Id, Member>, id: Id, m: Member)
    requires Rolled(cfg, p, before, now) && id !in now
    requires m.key in WantedKeys(cfg, p) && m == WantedMember(cfg, p, m.key) && m.key !in KeysOf(now)
    ensures Rolled(cfg, p, before, now[id := m])
  {
  }

  lemma RolledOneLess(cfg: Config, p: Port, before: map<Id, Member>, now: map<Id, Member>, id: Id)
    requires Rolled(cfg, p, before, now) && id in now && now[id].key !in WantedKeys(cfg, p)
    requires WantedKeys(cfg, p) != {} && WantedKeys(cfg, p) <= KeysOf(now)
    ensures Rolled(cfg, p, before, now - {id})
  {
    hide WantedMember, WantedKeys;
  }

  /** A request for another pool leaves this one alone; one for this pool adds a missing member or drops a stale one. */
  predicate MemberChange(cfg: Config, p: Port, ms: map<Id, Member>, op: Op, id: Id, next: map<Id, Member>) {
    || next == ms
    || (op.CreateMember? && op.member.key in WantedKeys(cfg, p) && op.member == WantedMember(cfg, p, op.member.key)
        && op.member.key !in KeysOf(ms) && next == ms[id := op.member])
    || (op.DeleteMember? && op.id in ms && ms[op.id].key !in WantedKeys(cfg, p) && next == ms - {op.id}
        && WantedKeys(cfg, p) != {} && WantedKeys(cfg, p) <= KeysOf(ms))
  }

  /** Two ports of a Service do not share a listener, and two listeners do not share a pool. */
  lemma SamePort(cfg: Config, s: State, p: Port, l: Id, r: Port, k: Id, q: Id)
    requires Sound(cfg) && PoolRefs(s) && Serves(cfg, s, p, l, q) && Serves(cfg, s, r, k, q)
    ensures l == k && p == r
  {
  }

  /** The requests that can take a pool away from its listener. */
  predicate Detaches(op: Op, l: Id) {
    op.DeleteListener? || op.DeletePool? || (op.CreatePool? && op.listener == l)
  }

  lemma ListenerStays(s: State, op: Op, id: Id, l: Id)
    requires l in s.listeners && !Detaches(op, l) && Verdict(s, op) == Ok && Fresh(s, id)
    ensures l in Apply(s, op, id).listeners && Apply(s, op, id).listeners[l].pool == s.listeners[l].pool
    ensures Apply(s, op, id).listeners[l].lb == s.listeners[l].lb
            && Apply(s, op, id).listeners[l].key == s.listeners[l].key
  {
  }

  lemma PoolStays(s: State, op: Op, id: Id, q: Id)
    requires q in s.pools && q in s.members && !op.DeletePool? && Verdict(s, op) == Ok
    ensures q in Apply(s, op, id).pools && q in Apply(s, op, id).members
  {
  }

  lemma StillServes(cfg: Config, s: State, op: Op, id: Id, p: Port, l: Id, q: Id)
    requires Serves(cfg, s, p, l, q) && !Detaches(op, l) && Verdict(s, op) == Ok && Fresh(s, id)
    ensures Serves(cfg, Apply(s, op, id), p, l, q)
  {
    hide Apply, Verdict;
    ListenerStays(s, op, id, l);
    PoolStays(s, op, id, q);
  }

  lemma UpkeepKeepsPools(cfg: Config, s: State, r: Port, k: Id, op: Op, l: Id)
    requires Upkeep(cfg, s, r, k, op) && l in s.listeners && s.listeners[l].pool.Some?
    ensures !Detaches(op, l)
  {
  }

  lemma ServesUpkeep(cfg: Config, s: State, r: Port, k: Id, op: Op, id: Id, p: Port, l: Id, q: Id)
    requires Serves(cfg, s, p, l, q)
    requires Upkeep(cfg, s, r, k, op) && Verdict(s, op) == Ok && Fresh(s, id)
    ensures Serves(cfg, Apply(s, op, id), p, l, q)
  {
    hide Upkeep, Verdict, Apply, Detaches;
    UpkeepKeepsPools(cfg, s, r, k, op, l);
    StillServes(cfg, s, op, id, p, l, q);
  }

  lemma ServesRemoval(cfg: Config, s: State, k: Id, op: Op, id: Id, p: Port, l: Id, q: Id)
    requires References(s) && Serves(cfg, s, p, l, q)
    requires op.DeleteGroup? || k != l
    requires Removal(cfg.name, s, k, op) && Verdict(s, op) == Ok && Fresh(s, id)
    ensures Serves(cfg, Apply(s, op, id), p, l, q)
  {
  }

  lemma ServesStep(cfg: Config, verb: Verb, s: State, why: Purpose, op: Op, id: Id, p: Port, l: Id, q: Id)
    requires References(s) && verb != Deleting && Serves(cfg, s, p, l, q)
    requires Justified(cfg, verb, s, why, op) && Verdict(s, op) == Ok && Fresh(s, id)
    ensures Serves(cfg, Apply(s, op, id), p, l, q)
  {
    hide Upkeep, Removal, Verdict, Apply, References;
    if why.ForPort? {
      ServesUpkeep(cfg, s, why.port, why.listener, op, id, p, l, q);
    } else {
      assert p.key in cfg.Wanted();
      ServesRemoval(cfg, s, why.listener, op, id, p, l, q);
    }
  }

  lemma ServesMembers(s: State)
    requires References(s)
    ensures s.members.Keys == s.pools.Keys && PoolRefs(s)
  {
  }

  lemma OtherOpsKeepMembers(s: State, op: Op, id: Id, q: Id)
    requires Verdict(s, op) == Ok && Fresh(s, id) && q in s.members && q in Apply(s, op, id).members
    requires MemberOp(op) ==> op.pool != q
    ensures Apply(s, op, id).members[q] == s.members[q]
  {
    hide Apply, Verdict, Fresh;
    if MemberOp(op) {
      ElsewhereInPool(s, op, id, q);
    } else {
      NoMemberOp(s, op, id, q);
    }
  }

  lemma ElsewhereInPool(s: State, op: Op, id: Id, q: Id)
    requires MemberOp(op) && op.pool != q && Verdict(s, op) == Ok && q in s.members && q in Apply(s, op, id).members
    ensures Apply(s, op, id).members[q] == s.members[q]
  {
  }

  lemma NoMemberOp(s: State, op: Op, id: Id, q: Id)
    requires !MemberOp(op) && Verdict(s, op) == Ok && Fresh(s, id) && q in s.members && q in Apply(s, op, id).members
    ensures Apply(s, op, id).members[q] == s.members[q]
  {
    if !op.CreatePool? && !op.DeletePool? {
      hide Apply, Verdict;
      AllMembersSame(s, op, id);
    }
  }

  lemma AllMembersSame(s: State, op: Op, id: Id)
    requires !MemberOp(op) && !op.CreatePool? && !op.DeletePool? && Verdict(s, op) == Ok
    ensures Apply(s, op, id).members == s.members
  {
  }

  lemma ChangesHere(cfg: Config, s: State, op: Op, id: Id, p: Port, l: Id, q: Id)
    requires MemberOp(op) && op.pool == q && Upkeep(cfg, s, p, l, op) && Verdict(s, op) == Ok
    ensures q in s.members && q in Apply(s, op, id).members
    ensures MemberChange(cfg, p, s.members[q], op, id, Apply(s, op, id).members[q])
  {
  }

  lemma UpkeepServes(cfg: Config, s: State, r: Port, k: Id, op: Op)
    requires r in cfg.Ports() && MemberOp(op) && Upkeep(cfg, s, r, k, op)
    ensures Serves(cfg, s, r, k, op.pool)
  {
  }

  lemma MembersUpkeep(cfg: Config, s: State, r: Port, k: Id, op: Op, id: Id, p: Port, l: Id, q: Id)
    requires PoolRefs(s) && Sound(cfg) && Serves(cfg, s, p, l, q) && r in cfg.Ports()
    requires Upkeep(cfg, s, r, k, op) && Verdict(s, op) == Ok && Fresh(s, id)
    requires q in Apply(s, op, id).members
    ensures MemberChange(cfg, p, s.members[q], op, id, Apply(s, op, id).members[q])
  {
    hide Sound, Upkeep, Verdict, Apply, PoolRefs;
    if MemberOp(op) && op.pool == q {
      UpkeepServes(cfg, s, r, k, op);
      SamePort(cfg, s, p, l, r, k, q);
      ChangesHere(cfg, s, op, id, p, l, q);
    } else {
      OtherOpsKeepMembers(s, op, id, q);
    }
  }

  lemma MembersRemoval(cfg: Config, s: State, k: Id, op: Op, id: Id, p: Port, l: Id, q: Id)
    requires PoolRefs(s) && Serves(cfg, s, p, l, q)
    requires op.DeleteGroup? || k != l
    requires Removal(cfg.name, s, k, op) && Verdict(s, op) == Ok && Fresh(s, id)
    requires q in Apply(s, op, id).members
    ensures Apply(s, op, id).members[q] == s.members[q]
  {
  }

  lemma MembersStep(cfg: Config, verb: Verb, s: State, why: Purpose, op: Op, id: Id, p: Port, l: Id, q: Id)
    requires References(s) && Sound(cfg) && verb != Deleting && Serves(cfg, s, p, l, q)
    requires Justified(cfg, verb, s, why, op) && Verdict(s, op) == Ok && Fresh(s, id)
    requires q in Apply(s, op, id).members
    ensures MemberChange(cfg, p, s.members[q], op, id, Apply(s, op, id).members[q])
  {
    hide Upkeep, Removal, Verdict, Apply, References, Sound;
    ServesMembers(s);
    if why.ForPort? {
      MembersUpkeep(cfg, s, why.port, why.listener, op, id, p, l, q);
    } else {
      assert p.key in cfg.Wanted();
      MembersRemoval(cfg, s, why.listener, op, id, p, l, q);
    }
  }

  lemma RolledStep(cfg: Config, p: Port, before: map<Id, Member>, now: map<Id, Member>, op: Op, id: Id,
                   next: map<Id, Member>)
    requires Rolled(cfg, p, before, now) && id !in now && MemberChange(cfg, p, now, op, id, next)
    ensures Rolled(cfg, p, before, next)
  {
    if next != now {
      if op.CreateMember? {
        RolledOneMore(cfg, p, before, now, id, op.member);
      } else {
        RolledOneLess(cfg, p, before, now, op.id);
      }
    }
  }

  lemma CallRolls(cfg: Config, verb: Verb, c: Call, before: map<Id, Member>, p: Port, l: Id, q: Id)
    requires WellFormed(cfg.name, c.pre) && Sound(cfg) && verb != Deleting && LegalCall(cfg, verb, c)
    requires Serves(cfg, c.pre, p, l, q) && Rolled(cfg, p, before, c.pre.members[q])
    ensures WellFormed(cfg.name, c.post) && Serves(cfg, c.post, p, l, q) && Rolled(cfg, p, before, c.post.members[q])
  {
    hide Sound, Justified, Rolled, MemberChange, KeysUnique, ProbesPlain, GroupsTidy, PoolRefs, MonitorRefs;
    if c.done {
      JustifiedKeepsWellFormed(cfg, verb, c.pre, c.why, c.op, c.id);
      ServesStep(cfg, verb, c.pre, c.why, c.op, c.id, p, l, q);
      MembersStep(cfg, verb, c.pre, c.why, c.op, c.id, p, l, q);
      RolledStep(cfg, p, before, c.pre.members[q], c.op, c.id, c.post.members[q]);
    }
  }

  /** Make before break, in every state of every run that is not a deletion: a wanted member that was present stays,
      nothing is missing before every wanted member is there, and a pool in use never runs empty. */
  lemma {:induction false} MakeBeforeBreak(cfg: Config, verb: Verb, start: State, calls: seq<Call>, now: State, p: Port,
                                           l: Id, q: Id)
    requires WellFormed(cfg.name, start) && Sound(cfg) && verb != Deleting
    requires LegalRun(cfg, verb, start, calls, now) && Serves(cfg, start, p, l, q)
    ensures WellFormed(cfg.name, now) && Serves(cfg, now, p, l, q) && Rolled(cfg, p, start.members[q], now.members[q])
    decreases |calls|
  {
    hide WellFormed, Justified, Sound;
    if calls != [] {
      var n := |calls| - 1;
      MakeBeforeBreak(cfg, verb, start, calls[..n], calls[n].pre, p, l, q);
      CallRolls(cfg, verb, calls[n], start.members[q], p, l, q);
    }
  }

  // ----- the node update agrees with the full reconciliation -----

  lemma MemberOpOnly(s: State, op: Op, id: Id)
    requires MemberOp(op) && Verdict(s, op) == Ok
    ensures Apply(s, op, id) == s.(members := Apply(s, op, id).members)
            && Apply(s, op, id).members.Keys == s.members.Keys
  {
  }

  lemma UpdatingIsMemberOp(cfg: Config, c: Call)
    requires LegalCall(cfg, Updating, c)
    ensures MemberOp(c.op)
  {
  }

  /** An updating run changes pool members and nothing else. */
  lemma {:induction false} UpdateChangesMembersOnly(cfg: Config, start: State, calls: seq<Call>, now: State)
    requires LegalRun(cfg, Updating, start, calls, now)
    ensures now == start.(members := now.members) && now.members.Keys == start.members.Keys
    decreases |calls|
  {
    hide Justified, Apply, Verdict, MemberOp;
    if calls != [] {
      var n := |calls| - 1;
      UpdateChangesMembersOnly(cfg, start, calls[..n], calls[n].pre);
      UpdatingIsMemberOp(cfg, calls[n]);
      if calls[n].done {
        MemberOpOnly(calls[n].pre, calls[n].op, calls[n].id);
      }
    }
  }

  /** From a state where all but the members is settled, a run changes the members of its ports' pools only. */
  ghost predicate MembersOnly(cfg: Config, start: State, now: State) {
    && now == start.(members := now.members) && now.members.Keys == start.members.Keys
    && forall q :: q in start.members && (forall p, l :: !Serves(cfg, start, p, l, q)) ==>
        now.members[q] == start.members[q]
  }

  lemma FurnishedIgnoresMembers(cfg: Config, start: State, now: State)
    requires AllFurnished(cfg, start) && NoStale(cfg, start) && now == start.(members := now.members)
    ensures AllFurnished(cfg, now) && NoStale(cfg, now)
  {
    hide AccessSettled, MonitorSettled, PoolTuned;
    forall p | p in cfg.Ports()
      ensures exists l :: At(now, cfg.lb, p.key, l) && Furnished(cfg, p, TreeOf(now, l).value)
    {
      var l :| At(start, cfg.lb, p.key, l) && Furnished(cfg, p, TreeOf(start, l).value);
      FurnishedHere(cfg, start, now, p, l);
    }
  }

  lemma FurnishedHere(cfg: Config, start: State, now: State, p: Port, l: Id)
    requires now == start.(members := now.members)
    requires At(start, cfg.lb, p.key, l) && Furnished(cfg, p, TreeOf(start, l).value)
    ensures At(now, cfg.lb, p.key, l) && Furnished(cfg, p, TreeOf(now, l).value)
  {
  }

  lemma FurnishedRunStep(cfg: Config, verb: Verb, start: State, c: Call)
    requires Sound(cfg) && verb != Deleting && KeysUnique(start) && AllFurnished(cfg, start) && NoStale(cfg, start)
    requires MembersOnly(cfg, start, c.pre) && LegalCall(cfg, verb, c) && Freed(start, c.why, c.op)
    ensures MembersOnly(cfg, start, c.post)
  {
    hide AllFurnished, NoStale, Furnished, Sound, Upkeep, Apply, Verdict;
    var s := c.pre;
    FurnishedIgnoresMembers(cfg, start, s);
    OnlyMembersLeft(cfg, verb, start, s, c.why, c.op);
    if c.done && MemberOp(c.op) {
      UpkeepServes(cfg, s, c.why.port, c.why.listener, c.op);
      assert Serves(cfg, start, c.why.port, c.why.listener, c.op.pool);
      MemberOpOnly(s, c.op, c.id);
      forall q | q in s.members && q != c.op.pool ensures c.post.members[q] == s.members[q] {
        OtherOpsKeepMembers(s, c.op, c.id, q);
      }
    }
  }

  lemma {:induction false} FurnishedRun(cfg: Config, verb: Verb, start: State, calls: seq<Call>, now: State)
    requires Sound(cfg) && verb != Deleting && KeysUnique(start) && AllFurnished(cfg, start) && NoStale(cfg, start)
    requires LegalRun(cfg, verb, start, calls, now)
    ensures MembersOnly(cfg, start, now)
    decreases |calls|
  {
    hide AllFurnished, NoStale, Justified, Sound, KeysUnique, Verdict;
    if calls == [] {
      assert MembersOnly(cfg, start, start);
    } else {
      var n := |calls| - 1;
      FurnishedRun(cfg, verb, start, calls[..n], calls[n].pre);
      FurnishedRunStep(cfg, verb, start, calls[n]);
    }
  }

  function Values(ms: map<Id, Member>): set<Member> {
    set id | id in ms :: ms[id]
  }

  /** The members a pool must end with: the wanted ones it had, and a new one for each wanted key it lacked. */
  function Target(cfg: Config, p: Port, before: map<Id, Member>): set<Member> {
    (set id | id in before && before[id].key in WantedKeys(cfg, p) :: before[id])
    + (set k | k in WantedKeys(cfg, p) && k !in KeysOf(before) :: WantedMember(cfg, p, k))
  }

  /** A pool that rolled to exactly the wanted keys holds exactly the target members. */
  lemma RolledToTarget(cfg: Config, p: Port, before: map<Id, Member>, now: map<Id, Member>)
    requires Rolled(cfg, p, before, now) && KeysOf(now) == WantedKeys(cfg, p)
    ensures Values(now) == Target(cfg, p, before)
  {
  }

  /** Every port's pool has exactly the wanted keys. */
  ghost predicate Staffed(cfg: Config, s: State) {
    forall p, l, q :: Serves(cfg, s, p, l, q) ==> KeysOf(s.members[q]) == WantedKeys(cfg, p)
  }

  /** Two clouds that are equal up to the identifiers of pool members. */
  ghost predicate SameUpToMemberIds(a: State, b: State) {
    && a.(members := b.members) == b && a.members.Keys == b.members.Keys
    && forall q :: q in a.members ==> Values(a.members[q]) == Values(b.members[q])
  }

  lemma SamePool(cfg: Config, start: State, u: State, e: State, q: Id, p: Port, l: Id)
    requires Serves(cfg, start, p, l, q) && Serves(cfg, u, p, l, q) && Serves(cfg, e, p, l, q)
    requires Rolled(cfg, p, start.members[q], u.members[q]) && Rolled(cfg, p, start.members[q], e.members[q])
    requires Staffed(cfg, u) && Staffed(cfg, e)
    ensures Values(u.members[q]) == Values(e.members[q])
  {
    RolledToTarget(cfg, p, start.members[q], u.members[q]);
    RolledToTarget(cfg, p, start.members[q], e.members[q]);
  }

  /** After a settled reconciliation for some nodes, a complete node update and a complete reconciliation for new nodes
      lead to the same cloud, up to the identifiers of members. */
  lemma UpdateAgreesWithEnsure(cfg: Config, nodes: seq<Node>, start: State, update: seq<Call>, u: State,
                               ensure: seq<Call>, e: State)
    requires Sound(cfg) && WellFormed(cfg.name, start) && Converged(cfg, start)
    requires LegalRun(cfg.(nodes := nodes), Updating, start, update, u) && Staffed(cfg.(nodes := nodes), u)
    requires LegalRun(cfg.(nodes := nodes), Ensuring, start, ensure, e) && Converged(cfg.(nodes := nodes), e)
    ensures SameUpToMemberIds(u, e) && u == start.(members := u.members)
    ensures NoDuplicates(start) ==> NoDuplicates(u) && NoDuplicates(e)
  {
    hide Converged, Sound, WellFormed, LegalRun, Furnished, AllFurnished, NoStale, Staffed, Rolled, Serves,
        NoDuplicates;
    var next := cfg.(nodes := nodes);
    NodesDoNotFurnish(cfg, nodes, start);
    FurnishedRun(next, Updating, start, update, u);
    FurnishedRun(next, Ensuring, start, ensure, e);
    RunKeepsWellFormed(next, Ensuring, start, ensure, e);
    EndsStaffed(next, e);
    forall q | q in u.members ensures Values(u.members[q]) == Values(e.members[q]) {
      if p, l :| Serves(next, start, p, l, q) {
        MakeBeforeBreak(next, Updating, start, update, u, p, l, q);
        MakeBeforeBreak(next, Ensuring, start, ensure, e, p, l, q);
        SamePool(next, start, u, e, q, p, l);
      }
    }
    if NoDuplicates(start) {
      RunKeepsUnique(next, Updating, start, update, u);
      RunKeepsUnique(next, Ensuring, start, ensure, e);
    }
  }

  lemma EndsStaffed(cfg: Config, s: State)
    requires Sound(cfg) && WellFormed(cfg.name, s) && Converged(cfg, s)
    ensures Staffed(cfg, s)
  {
  }

  lemma FurnishedForAnyNodes(cfg: Config, nodes: seq<Node>, p: Port, t: Tree)
    requires Furnished(cfg, p, t)
    ensures Furnished(cfg.(nodes := nodes), p, t)
  {
  }

  lemma NodesDoNotFurnish(cfg: Config, nodes: seq<Node>, s: State)
    requires Sound(cfg) && WellFormed(cfg.name, s) && Converged(cfg, s)
    ensures Sound(cfg.(nodes := nodes)) && KeysUnique(s)
    ensures AllFurnished(cfg.(nodes := nodes), s) && NoStale(cfg.(nodes := nodes), s)
  {
    hide Furnished;
    var next := cfg.(nodes := nodes);
    ConvergedIsFurnished(cfg, s);
    assert next.Wanted() == cfg.Wanted() && next.Ports() == cfg.Ports();
    forall p | p in next.Ports()
      ensures exists l :: At(s, next.lb, p.key, l) && Furnished(next, p, TreeOf(s, l).value)
    {
      var l :| At(s, cfg.lb, p.key, l) && Furnished(cfg, p, TreeOf(s, l).value);
      FurnishedForAnyNodes(cfg, nodes, p, TreeOf(s, l).value);
      assert At(s, next.lb, p.key, l);
    }
  }
}

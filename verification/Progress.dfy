/** The distance to the wanted state: every effective listener, pool, member or monitor request shortens it. */
module Progress {
  import opened Basics
  import opened CloudState
  import opened Service
  import opened Plan
  import opened Steps
  import Monitors

  /** One thing that is not as the Service wants it. A monitor of the wrong type has two defects. */
  datatype Defect =
    | NoListener(port: Port)
    | NoPool(port: Port)
    | Untuned(port: Port)
    | Missing(port: Port, key: MemberKey)
    | StaleMember(port: Port, id: Id)
    | ProbeAbsent(port: Port)
    | ProbeWrong(port: Port)
    | OldListener(listener: Id)
    | OldPool(listener: Id)
    | OldMember(listener: Id, id: Id)
    | OldMonitor(listener: Id)

  function If(cond: bool, d: Defect): set<Defect> { if cond then {d} else {} }

  function PoolDefects(cfg: Config, p: Port, t: Option<Tree>): set<Defect> {
    If(t.None?, NoListener(p)) + If(t.None? || t.value.pool.None?, NoPool(p))
    + If(t.Some? && t.value.pool.Some? && !PoolTuned(cfg, t.value.pool.value), Untuned(p))
  }

  function MembersIn(t: Option<Tree>): map<Id, Member> {
    if t.Some? then t.value.members else map[]
  }

  function MemberDefects(cfg: Config, p: Port, ms: map<Id, Member>): set<Defect> {
    (set k | k in WantedKeys(cfg, p) && k !in KeysOf(ms) :: Missing(p, k))
    + (set id | id in ms && ms[id].key !in WantedKeys(cfg, p) :: StaleMember(p, id))
  }

  function ProbeOf(t: Option<Tree>): Option<Probe> {
    if t.Some? && t.value.monitor.Some? then Some(t.value.monitor.value.probe) else None
  }

  function ProbeDefects(cfg: Config, p: Port, m: Option<Probe>): set<Defect> {
    if cfg.settings.probing
    then If(m.None? || !SameShape(m.value, ProbeFor(cfg, p)), ProbeAbsent(p))
         + If(m.Some? && m.value != ProbeFor(cfg, p), ProbeWrong(p))
    else If(m.Some?, ProbeWrong(p))
  }

  function PortDefects(cfg: Config, p: Port, t: Option<Tree>): set<Defect> {
    PoolDefects(cfg, p, t) + MemberDefects(cfg, p, MembersIn(t)) + ProbeDefects(cfg, p, ProbeOf(t))
  }

  /** What is left of a listener that has to go. */
  function OldDefects(l: Id, t: Option<Tree>): set<Defect> {
    If(t.Some?, OldListener(l)) + If(t.Some? && t.value.pool.Some?, OldPool(l))
    + (set id | id in MembersIn(t) :: OldMember(l, id)) + If(ProbeOf(t).Some?, OldMonitor(l))
  }

  ghost function ListenerAt(s: State, lb: Id, key: Key): Option<Id> {
    if l :| At(s, lb, key, l) then Some(l) else None
  }

  ghost function TreeAt(cfg: Config, s: State, p: Port): Option<Tree> {
    var l := ListenerAt(s, cfg.lb, p.key);
    if l.Some? then TreeOf(s, l.value) else None
  }

  /** The listener has to go in a reconciliation. */
  predicate Surplus(cfg: Config, s: State, l: Id) { Doomed(cfg, Ensuring, s, l) }

  ghost function Defects(cfg: Config, s: State): set<Defect> {
    (set p, d | p in cfg.Ports() && d in PortDefects(cfg, p, TreeAt(cfg, s, p)) :: d)
    + (set l, d | l in s.listeners && Surplus(cfg, s, l) && d in OldDefects(l, TreeOf(s, l)) :: d)
  }

  ghost function Distance(cfg: Config, s: State): nat { |Defects(cfg, s)| }

  /** Requests on IP groups and load balancers, and idle-timeout requests, are not counted. */
  predicate Counted(op: Op) {
    match op
    case CreateListener(_, _, _, _) => true
    case DeleteListener(_) => true
    case CreatePool(_, _, _, _) => true
    case UpdatePool(_, _, _) => true
    case DeletePool(_) => true
    case CreateMember(_, _) => true
    case DeleteMember(_, _) => true
    case CreateMonitor(_, _, _) => true
    case UpdateMonitor(_, _) => true
    case DeleteMonitor(_) => true
    case _ => false
  }

  // ----- the shape of the sets -----

  lemma ListenerAtIs(s: State, lb: Id, key: Key, l: Id)
    requires KeysUnique(s) && At(s, lb, key, l)
    ensures ListenerAt(s, lb, key) == Some(l)
  {
  }

  lemma PortDefectIsTagged(cfg: Config, p: Port, t: Option<Tree>, d: Defect)
    requires d in PortDefects(cfg, p, t)
    ensures !(d.OldListener? || d.OldPool? || d.OldMember? || d.OldMonitor?) && d.port == p
  {
  }

  lemma OldDefectIsTagged(l: Id, t: Option<Tree>, d: Defect)
    requires d in OldDefects(l, t)
    ensures (d.OldListener? || d.OldPool? || d.OldMember? || d.OldMonitor?) && d.listener == l
  {
  }

  /** Only the tree of port `p` differs, and it has fewer defects. */
  lemma PortProgress(cfg: Config, s: State, t: State, p: Port, strict: bool)
    requires p in cfg.Ports()
    requires forall r :: r in cfg.Ports() && r != p ==> TreeAt(cfg, t, r) == TreeAt(cfg, s, r)
    requires forall l :: Surplus(cfg, t, l) ==> Surplus(cfg, s, l) && TreeOf(t, l) == TreeOf(s, l)
    requires PortDefects(cfg, p, TreeAt(cfg, t, p)) <= PortDefects(cfg, p, TreeAt(cfg, s, p))
    requires strict ==> PortDefects(cfg, p, TreeAt(cfg, t, p)) != PortDefects(cfg, p, TreeAt(cfg, s, p))
    ensures Defects(cfg, t) <= Defects(cfg, s)
    ensures strict ==> Defects(cfg, t) != Defects(cfg, s)
  {
    hide PortDefects, OldDefects, TreeAt, TreeOf, Condemned;
    if strict {
      var d :| d in PortDefects(cfg, p, TreeAt(cfg, s, p)) && d !in PortDefects(cfg, p, TreeAt(cfg, t, p));
      PortDefectIsTagged(cfg, p, TreeAt(cfg, s, p), d);
      forall r | r in cfg.Ports() && d in PortDefects(cfg, r, TreeAt(cfg, t, r)) ensures false {
        PortDefectIsTagged(cfg, r, TreeAt(cfg, t, r), d);
      }
      forall l | d in OldDefects(l, TreeOf(t, l)) ensures false {
        OldDefectIsTagged(l, TreeOf(t, l), d);
      }
      assert d in Defects(cfg, s) && d !in Defects(cfg, t);
    }
  }

  /** Only the tree of the surplus listener `l` differs, and less is left of it. */
  lemma OldProgress(cfg: Config, s: State, t: State, l: Id, strict: bool)
    requires Surplus(cfg, s, l)
    requires forall r :: r in cfg.Ports() ==> TreeAt(cfg, t, r) == TreeAt(cfg, s, r)
    requires forall k :: k != l && Surplus(cfg, t, k) ==> Surplus(cfg, s, k) && TreeOf(t, k) == TreeOf(s, k)
    requires OldDefects(l, TreeOf(t, l)) <= OldDefects(l, TreeOf(s, l))
    requires strict ==> OldDefects(l, TreeOf(t, l)) != OldDefects(l, TreeOf(s, l))
    ensures Defects(cfg, t) <= Defects(cfg, s)
    ensures strict ==> Defects(cfg, t) != Defects(cfg, s)
  {
    hide PortDefects, OldDefects, TreeAt, TreeOf, Condemned;
    if strict {
      var d :| d in OldDefects(l, TreeOf(s, l)) && d !in OldDefects(l, TreeOf(t, l));
      OldDefectIsTagged(l, TreeOf(s, l), d);
      forall r | r in cfg.Ports() && d in PortDefects(cfg, r, TreeAt(cfg, t, r)) ensures false {
        PortDefectIsTagged(cfg, r, TreeAt(cfg, t, r), d);
      }
      forall k | k != l && d in OldDefects(k, TreeOf(t, k)) ensures false {
        OldDefectIsTagged(k, TreeOf(t, k), d);
      }
      assert d in Defects(cfg, s) && d !in Defects(cfg, t);
    }
  }

  // ----- what one request does to its own tree -----

  lemma MemberAdded(cfg: Config, p: Port, ms: map<Id, Member>, id: Id, m: Member)
    requires id !in ms && m.key in WantedKeys(cfg, p) && m.key !in KeysOf(ms)
    ensures MemberDefects(cfg, p, ms[id := m]) < MemberDefects(cfg, p, ms)
  {
    var next := ms[id := m];
    assert next[id].key in KeysOf(next);
    forall k | k in KeysOf(ms) ensures k in KeysOf(next) {
      var x :| x in ms && ms[x].key == k;
      assert next[x].key == k;
    }
    assert Missing(p, m.key) in MemberDefects(cfg, p, ms) && Missing(p, m.key) !in MemberDefects(cfg, p, next);
  }

  lemma MemberRemoved(cfg: Config, p: Port, ms: map<Id, Member>, id: Id)
    requires id in ms && ms[id].key !in WantedKeys(cfg, p)
    ensures MemberDefects(cfg, p, ms - {id}) < MemberDefects(cfg, p, ms)
  {
    var next := ms - {id};
    forall k | k in KeysOf(ms) && k in WantedKeys(cfg, p) ensures k in KeysOf(next) {
      var x :| x in ms && ms[x].key == k;
      assert next[x].key == k;
    }
    assert StaleMember(p, id) in MemberDefects(cfg, p, ms) && StaleMember(p, id) !in MemberDefects(cfg, p, next);
  }

  lemma PartsProgress(cfg: Config, p: Port, a: Option<Tree>, b: Option<Tree>)
    requires PoolDefects(cfg, p, b) <= PoolDefects(cfg, p, a)
    requires MemberDefects(cfg, p, MembersIn(b)) <= MemberDefects(cfg, p, MembersIn(a))
    requires ProbeDefects(cfg, p, ProbeOf(b)) <= ProbeDefects(cfg, p, ProbeOf(a))
    ensures PortDefects(cfg, p, b) <= PortDefects(cfg, p, a)
    ensures PoolDefects(cfg, p, b) != PoolDefects(cfg, p, a) ==> PortDefects(cfg, p, b) != PortDefects(cfg, p, a)
    ensures MemberDefects(cfg, p, MembersIn(b)) != MemberDefects(cfg, p, MembersIn(a)) ==>
            PortDefects(cfg, p, b) != PortDefects(cfg, p, a)
    ensures ProbeDefects(cfg, p, ProbeOf(b)) != ProbeDefects(cfg, p, ProbeOf(a)) ==>
            PortDefects(cfg, p, b) != PortDefects(cfg, p, a)
  {
    OnlyPart(cfg, p, a);
    OnlyPart(cfg, p, b);
  }

  predicate AboutPool(d: Defect) { d.NoListener? || d.NoPool? || d.Untuned? }
  predicate AboutMember(d: Defect) { d.Missing? || d.StaleMember? }
  predicate AboutProbe(d: Defect) { d.ProbeAbsent? || d.ProbeWrong? }

  lemma OnlyPart(cfg: Config, p: Port, t: Option<Tree>)
    ensures PoolDefects(cfg, p, t) == set d | d in PortDefects(cfg, p, t) && AboutPool(d)
    ensures MemberDefects(cfg, p, MembersIn(t)) == set d | d in PortDefects(cfg, p, t) && AboutMember(d)
    ensures ProbeDefects(cfg, p, ProbeOf(t)) == set d | d in PortDefects(cfg, p, t) && AboutProbe(d)
  {
  }

  /** What a request for port `p` does to the port's tree, from `a` to `b`. */
  ghost predicate TreeProgress(cfg: Config, p: Port, a: Option<Tree>, b: Option<Tree>, strict: bool) {
    && PortDefects(cfg, p, b) <= PortDefects(cfg, p, a)
    && (strict ==> PortDefects(cfg, p, b) != PortDefects(cfg, p, a))
  }

  lemma AccessProgress(cfg: Config, s: State, p: Port, l: Id, op: Op, id: Id)
    requires References(s) && l in s.listeners && !Counted(op) && !op.DeleteGroup? && Upkeep(cfg, s, p, l, op)
    requires Verdict(s, op) == Ok && Fresh(s, id)
    ensures TreeProgress(cfg, p, TreeOf(s, l), TreeOf(Apply(s, op, id), l), false)
  {
    hide TreeOf, Apply, Verdict, Upkeep, MemberDefects;
    var a, b := TreeOf(s, l), TreeOf(Apply(s, op, id), l);
    SameBackends(s, op, id, l);
    PartsProgress(cfg, p, a, b);
  }

  /** Idle-timeout and IP group requests leave pool, members and monitor of a listener alone. */
  lemma SameBackends(s: State, op: Op, id: Id, l: Id)
    requires l in s.listeners && !Counted(op) && Verdict(s, op) == Ok && Fresh(s, id)
    ensures var a, b := TreeOf(s, l), TreeOf(Apply(s, op, id), l);
            && b.Some? && a.Some? && b.value.pool == a.value.pool && b.value.members == a.value.members
            && b.value.monitor == a.value.monitor
  {
  }

  lemma ListenerProgress(cfg: Config, s: State, p: Port, op: Op, id: Id)
    requires op.CreateListener? && Fresh(s, id)
    ensures TreeProgress(cfg, p, None, TreeOf(Apply(s, op, id), id), true)
  {
  }

  lemma PoolProgress(cfg: Config, s: State, p: Port, l: Id, op: Op, id: Id)
    requires References(s) && Sound(cfg) && (op.CreatePool? || op.UpdatePool?) && At(s, cfg.lb, p.key, l)
             && Upkeep(cfg, s, p, l, op)
    requires Fresh(s, id) && Verdict(s, op) == Ok
    ensures TreeProgress(cfg, p, TreeOf(s, l), TreeOf(Apply(s, op, id), l), true)
  {
    var a, b := TreeOf(s, l), TreeOf(Apply(s, op, id), l);
    assert b.value.members == a.value.members && b.value.monitor == a.value.monitor;
    assert PoolTuned(cfg, b.value.pool.value);
    assert NoPool(p) in PoolDefects(cfg, p, a) || Untuned(p) in PoolDefects(cfg, p, a);
    assert PoolDefects(cfg, p, b) == {};
    PartsProgress(cfg, p, a, b);
  }

  lemma MembersProgress(cfg: Config, s: State, p: Port, l: Id, op: Op, id: Id)
    requires MemberOp(op) && At(s, cfg.lb, p.key, l) && Upkeep(cfg, s, p, l, op)
    requires Fresh(s, id) && Verdict(s, op) == Ok
    ensures TreeProgress(cfg, p, TreeOf(s, l), TreeOf(Apply(s, op, id), l), true)
  {
    hide MemberDefects;
    var a, b := TreeOf(s, l), TreeOf(Apply(s, op, id), l);
    if op.CreateMember? {
      MemberAdded(cfg, p, s.members[op.pool], id, op.member);
    } else {
      MemberRemoved(cfg, p, s.members[op.pool], op.id);
    }
    PartsProgress(cfg, p, a, b);
  }

  lemma MonitorProgress(cfg: Config, s: State, p: Port, l: Id, op: Op, id: Id)
    requires References(s) && ProbesPlain(s) && Sound(cfg) && At(s, cfg.lb, p.key, l)
    requires (op.CreateMonitor? || op.UpdateMonitor? || op.DeleteMonitor?) && Upkeep(cfg, s, p, l, op)
    requires Fresh(s, id) && Verdict(s, op) == Ok
    ensures TreeProgress(cfg, p, TreeOf(s, l), TreeOf(Apply(s, op, id), l), true)
  {
    hide ProbeFor, Tuned, MemberDefects;
    var a, b := TreeOf(s, l), TreeOf(Apply(s, op, id), l);
    if op.UpdateMonitor? {
      Monitors.TunedReaches(cfg, p, s.monitors[op.monitor].probe);
    }
    PoolPart(cfg, p, a, b);
    ProbePart(cfg, s, p, l, op, id);
    PartsProgress(cfg, p, a, b);
  }

  lemma PoolPart(cfg: Config, p: Port, a: Option<Tree>, b: Option<Tree>)
    requires a.Some? && b.Some? && a.value.pool.Some? && b.value.pool.Some?
             && b.value.pool == Some(a.value.pool.value.(monitor := b.value.pool.value.monitor))
    ensures PoolDefects(cfg, p, b) == PoolDefects(cfg, p, a)
  {
  }

  lemma ProbePart(cfg: Config, s: State, p: Port, l: Id, op: Op, id: Id)
    requires References(s) && At(s, cfg.lb, p.key, l)
    requires (op.CreateMonitor? || op.UpdateMonitor? || op.DeleteMonitor?) && Upkeep(cfg, s, p, l, op)
    requires op.UpdateMonitor? ==> Tuned(s.monitors[op.monitor].probe, ProbeFor(cfg, p)) == ProbeFor(cfg, p)
    requires Fresh(s, id) && Verdict(s, op) == Ok
    ensures ProbeDefects(cfg, p, ProbeOf(TreeOf(Apply(s, op, id), l))) < ProbeDefects(cfg, p, ProbeOf(TreeOf(s, l)))
  {
    hide ProbeFor, Tuned;
    var a, b := ProbeOf(TreeOf(s, l)), ProbeOf(TreeOf(Apply(s, op, id), l));
    if op.CreateMonitor? {
      assert a == None && b == Some(ProbeFor(cfg, p));
      assert ProbeAbsent(p) in ProbeDefects(cfg, p, a);
    } else if op.UpdateMonitor? {
      assert b == Some(ProbeFor(cfg, p));
      assert ProbeWrong(p) in ProbeDefects(cfg, p, a);
    } else {
      assert b == None;
      assert ProbeWrong(p) in ProbeDefects(cfg, p, a);
    }
  }

  lemma UpkeepProgress(cfg: Config, s: State, p: Port, l: Id, op: Op, id: Id)
    requires References(s) && ProbesPlain(s) && Sound(cfg) && Upkeep(cfg, s, p, l, op) && !op.CreateListener?
    requires Fresh(s, id) && Verdict(s, op) == Ok
    ensures At(s, cfg.lb, p.key, l)
    ensures TreeProgress(cfg, p, TreeOf(s, l), TreeOf(Apply(s, op, id), l), Counted(op))
  {
    hide References, ProbesPlain, Sound, TreeProgress, Apply, TreeOf;
    if !Counted(op) {
      AccessProgress(cfg, s, p, l, op, id);
    } else if op.CreatePool? || op.UpdatePool? {
      PoolProgress(cfg, s, p, l, op, id);
    } else if MemberOp(op) {
      MembersProgress(cfg, s, p, l, op, id);
    } else {
      MonitorProgress(cfg, s, p, l, op, id);
    }
  }

  lemma ContentRemoval(cfg: Config, s: State, l: Id, op: Op, id: Id)
    requires References(s) && l in s.listeners && Removal(cfg.name, s, l, op) && (op.DeleteMonitor? || op.DeleteMember?)
    requires Fresh(s, id) && Verdict(s, op) == Ok
    ensures OldDefects(l, TreeOf(Apply(s, op, id), l)) < OldDefects(l, TreeOf(s, l))
  {
    var a, b := TreeOf(s, l), TreeOf(Apply(s, op, id), l);
    if op.DeleteMonitor? {
      assert OldMonitor(l) in OldDefects(l, a) && OldMonitor(l) !in OldDefects(l, b);
    } else {
      assert OldMember(l, op.id) in OldDefects(l, a) && OldMember(l, op.id) !in OldDefects(l, b);
    }
  }

  lemma FrameRemoval(cfg: Config, s: State, l: Id, op: Op, id: Id)
    requires References(s) && l in s.listeners && Removal(cfg.name, s, l, op) && (op.DeletePool? || op.DeleteListener?)
    requires Fresh(s, id) && Verdict(s, op) == Ok
    ensures OldDefects(l, TreeOf(Apply(s, op, id), l)) < OldDefects(l, TreeOf(s, l))
  {
  }

  /** What a step of a teardown does to what is left of the listener. */
  lemma RemovalProgress(cfg: Config, s: State, l: Id, op: Op, id: Id)
    requires References(s) && l in s.listeners && Removal(cfg.name, s, l, op) && !op.DeleteGroup?
    requires Fresh(s, id) && Verdict(s, op) == Ok
    ensures OldDefects(l, TreeOf(Apply(s, op, id), l)) < OldDefects(l, TreeOf(s, l))
  {
    hide References, OldDefects, TreeOf, Apply, Verdict;
    if op.DeleteMonitor? || op.DeleteMember? {
      ContentRemoval(cfg, s, l, op, id);
    } else {
      FrameRemoval(cfg, s, l, op, id);
    }
  }

  // ----- one request -----

  /** A port keeps its tree when only listener `l`, which is not on its key, has changed. */
  lemma ElsewhereSame(cfg: Config, s: State, t: State, l: Id, r: Port)
    requires KeysUnique(s) && KeysUnique(t) && Frame(s, t, l)
    requires !At(s, cfg.lb, r.key, l) && !At(t, cfg.lb, r.key, l)
    ensures TreeAt(cfg, t, r) == TreeAt(cfg, s, r)
  {
    if k :| At(s, cfg.lb, r.key, k) {
      assert TreeOf(t, k) == TreeOf(s, k);
      assert At(t, cfg.lb, r.key, k);
      ListenerAtIs(s, cfg.lb, r.key, k);
      ListenerAtIs(t, cfg.lb, r.key, k);
    } else {
      forall k ensures !At(t, cfg.lb, r.key, k) {
        if k != l { assert TreeOf(t, k) == TreeOf(s, k); }
        assert !At(s, cfg.lb, r.key, k);
      }
    }
  }

  lemma SurplusElsewhere(cfg: Config, s: State, t: State, l: Id, k: Id)
    requires Frame(s, t, l) && k != l && Surplus(cfg, t, k)
    ensures Surplus(cfg, s, k) && TreeOf(t, k) == TreeOf(s, k)
  {
  }

  lemma TreeAtIs(cfg: Config, s: State, p: Port, l: Id)
    requires KeysUnique(s) && At(s, cfg.lb, p.key, l)
    ensures TreeAt(cfg, s, p) == TreeOf(s, l)
  {
  }

  lemma LocalPortProgress(cfg: Config, s: State, t: State, p: Port, l: Id, strict: bool)
    requires Sound(cfg) && p in cfg.Ports() && KeysUnique(s) && KeysUnique(t) && Frame(s, t, l)
    requires At(t, cfg.lb, p.key, l) && (l in s.listeners ==> At(s, cfg.lb, p.key, l))
    requires TreeAt(cfg, t, p) == TreeOf(t, l)
    requires TreeProgress(cfg, p, TreeAt(cfg, s, p), TreeOf(t, l), strict)
    ensures Defects(cfg, t) <= Defects(cfg, s)
    ensures strict ==> Defects(cfg, t) != Defects(cfg, s)
  {
    hide PortDefects, Defects, TreeAt, Frame, KeysUnique;
    assert p.key in cfg.Wanted();
    forall r | r in cfg.Ports() && r != p ensures TreeAt(cfg, t, r) == TreeAt(cfg, s, r) {
      assert r.key != p.key;
      ElsewhereSame(cfg, s, t, l, r);
    }
    forall k | Surplus(cfg, t, k) ensures Surplus(cfg, s, k) && TreeOf(t, k) == TreeOf(s, k) {
      SurplusElsewhere(cfg, s, t, l, k);
    }
    PortProgress(cfg, s, t, p, strict);
  }

  lemma ForPortProgress(cfg: Config, s: State, p: Port, l: Id, op: Op, id: Id)
    requires WellFormed(cfg.name, s) && Sound(cfg) && p in cfg.Ports() && Justified(cfg, Ensuring, s, ForPort(p, l), op)
    requires Verdict(s, op) == Ok && Fresh(s, id)
    ensures Defects(cfg, Apply(s, op, id)) <= Defects(cfg, s)
    ensures Counted(op) ==> Defects(cfg, Apply(s, op, id)) != Defects(cfg, s)
  {
    hide Defects, TreeAt, TreeProgress, Frame, References, KeysUnique, ProbesPlain, GroupsTidy, Upkeep, TreeOf, Sound,
        Within;
    var t := Apply(s, op, id);
    JustifiedKeepsWellFormed(cfg, Ensuring, s, ForPort(p, l), op, id);
    JustifiedIsWithin(cfg, Ensuring, s, ForPort(p, l), op, id) by { SoundName(cfg); }
    var x := if op.CreateListener? then id else l;
    StepFrame(s, op, id, x);
    if op.CreateListener? {
      ListenerProgress(cfg, s, p, op, id);
      NewAtKey(cfg, s, p, l, op, id);
    } else {
      UpkeepProgress(cfg, s, p, l, op, id);
      StaysAtKey(cfg, s, p, l, op, id);
      TreeAtIs(cfg, s, p, l);
    }
    TreeAtIs(cfg, t, p, x);
    LocalPortProgress(cfg, s, t, p, x, Counted(op));
  }

  lemma SoundName(cfg: Config)
    requires Sound(cfg)
    ensures |cfg.name| < MAX_NAME
  {
  }

  lemma NewAtKey(cfg: Config, s: State, p: Port, l: Id, op: Op, id: Id)
    requires op.CreateListener? && Upkeep(cfg, s, p, l, op) && Fresh(s, id)
    ensures At(Apply(s, op, id), cfg.lb, p.key, id) && id !in s.listeners && TreeAt(cfg, s, p) == None
  {
  }

  lemma StaysAtKey(cfg: Config, s: State, p: Port, l: Id, op: Op, id: Id)
    requires !op.CreateListener? && Upkeep(cfg, s, p, l, op) && Verdict(s, op) == Ok && Fresh(s, id)
    ensures At(s, cfg.lb, p.key, l) && At(Apply(s, op, id), cfg.lb, p.key, l)
  {
  }

  lemma RemovingProgress(cfg: Config, s: State, l: Id, op: Op, id: Id)
    requires WellFormed(cfg.name, s) && Sound(cfg) && Justified(cfg, Ensuring, s, Removing(l), op)
    requires Verdict(s, op) == Ok && Fresh(s, id)
    ensures Defects(cfg, Apply(s, op, id)) <= Defects(cfg, s)
    ensures Counted(op) ==> Defects(cfg, Apply(s, op, id)) != Defects(cfg, s)
  {
    hide Defects, TreeAt, OldDefects, Frame, References, KeysUnique, ProbesPlain, GroupsTidy, Removal, TreeOf, Sound,
        Within;
    var t := Apply(s, op, id);
    JustifiedKeepsWellFormed(cfg, Ensuring, s, Removing(l), op, id);
    JustifiedIsWithin(cfg, Ensuring, s, Removing(l), op, id) by { SoundName(cfg); }
    RemovedNotAtKey(cfg, s, l, op, id);
    StepFrame(s, op, id, l);
    forall r | r in cfg.Ports() ensures TreeAt(cfg, t, r) == TreeAt(cfg, s, r) {
      assert r.key in cfg.Wanted();
      ElsewhereSame(cfg, s, t, l, r);
    }
    forall k | k != l && Surplus(cfg, t, k) ensures Surplus(cfg, s, k) && TreeOf(t, k) == TreeOf(s, k) {
      SurplusElsewhere(cfg, s, t, l, k);
    }
    if op.DeleteGroup? {
      FreedGroupProgress(cfg, s, t, l);
    } else {
      RemovalProgress(cfg, s, l, op, id);
      OldProgress(cfg, s, t, l, true);
    }
  }

  lemma RemovedNotAtKey(cfg: Config, s: State, l: Id, op: Op, id: Id)
    requires Justified(cfg, Ensuring, s, Removing(l), op) && Verdict(s, op) == Ok && Fresh(s, id)
    ensures forall key :: key in cfg.Wanted() ==> !At(s, cfg.lb, key, l) && !At(Apply(s, op, id), cfg.lb, key, l)
    ensures op.DeleteGroup? ==> l !in s.listeners && l !in Apply(s, op, id).listeners
    ensures !op.CreateListener?
  {
  }

  lemma FreedGroupProgress(cfg: Config, s: State, t: State, l: Id)
    requires forall r :: r in cfg.Ports() ==> TreeAt(cfg, t, r) == TreeAt(cfg, s, r)
    requires forall k :: k != l && Surplus(cfg, t, k) ==> Surplus(cfg, s, k) && TreeOf(t, k) == TreeOf(s, k)
    requires l !in t.listeners
    ensures Defects(cfg, t) <= Defects(cfg, s)
  {
  }

  /** Every request of a reconciliation keeps or shrinks the set of defects; a counted one shrinks it. */
  lemma StepProgress(cfg: Config, s: State, why: Purpose, op: Op, id: Id)
    requires WellFormed(cfg.name, s) && Sound(cfg) && Justified(cfg, Ensuring, s, why, op)
    requires Verdict(s, op) == Ok && Fresh(s, id)
    ensures Defects(cfg, Apply(s, op, id)) <= Defects(cfg, s)
    ensures Counted(op) ==> Distance(cfg, Apply(s, op, id)) < Distance(cfg, s)
  {
    hide Defects, WellFormed, Sound;
    var t := Apply(s, op, id);
    if why.ForPort? {
      ForPortProgress(cfg, s, why.port, why.listener, op, id);
    } else {
      RemovingProgress(cfg, s, why.listener, op, id);
    }
    Fewer(Defects(cfg, t), Defects(cfg, s));
  }

  lemma Fewer(a: set<Defect>, b: set<Defect>)
    requires a <= b
    ensures |a| <= |b| && (a != b ==> |a| < |b|)
  {
    assert b == a + (b - a);
    assert a != b ==> b - a != {};
  }

  // ----- any sequence of runs -----

  /** How many counted requests took effect. */
  function Mutations(calls: seq<Call>): nat {
    if calls == [] then 0
    else
      var c := calls[|calls| - 1];
      Mutations(calls[..|calls| - 1]) + if c.done && Counted(c.op) then 1 else 0
  }

  lemma {:induction false} MutationsChain(before: seq<Call>, after: seq<Call>)
    ensures Mutations(before + after) == Mutations(before) + Mutations(after)
    decreases |after|
  {
    if after == [] {
      assert before + after == before;
    } else {
      var n := |after| - 1;
      MutationsChain(before, after[..n]);
      assert (before + after)[..|before| + n] == before + after[..n];
    }
  }

  /** For a fixed Service and node set, failed, repeated and completed runs together change listeners, pools, members
      and monitors at most as often as the state they start from is away from the wanted one. */
  lemma {:induction false} BoundedMutations(cfg: Config, s: State, calls: seq<Call>, t: State)
    requires WellFormed(cfg.name, s) && Sound(cfg) && Linked(calls, s, t)
    requires forall i :: 0 <= i < |calls| ==> LegalCall(cfg, Ensuring, calls[i]) || LegalCall(cfg, Updating, calls[i])
    ensures WellFormed(cfg.name, t) && Defects(cfg, t) <= Defects(cfg, s)
    ensures Mutations(calls) + Distance(cfg, t) <= Distance(cfg, s)
    decreases |calls|
  {
    hide WellFormed, Justified, Defects, Distance, Counted, Sound;
    if calls != [] {
      var n := |calls| - 1;
      var c := calls[n];
      BoundedMutations(cfg, s, calls[..n], c.pre);
      AlsoEnsuring(cfg, c);
      if c.done {
        JustifiedKeepsWellFormed(cfg, Ensuring, c.pre, c.why, c.op, c.id);
        StepProgress(cfg, c.pre, c.why, c.op, c.id);
        Nearer(cfg, c.pre, c.post);
      }
    }
  }

  lemma AlsoEnsuring(cfg: Config, c: Call)
    requires LegalCall(cfg, Ensuring, c) || LegalCall(cfg, Updating, c)
    ensures LegalCall(cfg, Ensuring, c)
  {
  }

  lemma Nearer(cfg: Config, s: State, t: State)
    requires Defects(cfg, t) <= Defects(cfg, s)
    ensures Distance(cfg, t) <= Distance(cfg, s)
  {
    Fewer(Defects(cfg, t), Defects(cfg, s));
  }

  // ----- distance zero -----

  /** The listener of port `p` has the wanted whitelist and idle timeout. */
  ghost predicate Guarded(cfg: Config, s: State, p: Port) {
    exists l :: At(s, cfg.lb, p.key, l) && AccessSettled(cfg, p, TreeOf(s, l).value)
                && (cfg.settings.idle > 0 ==> s.listeners[l].idle == cfg.settings.idle)
  }

  lemma NoMemberDefects(cfg: Config, p: Port, ms: map<Id, Member>)
    ensures MemberDefects(cfg, p, ms) == {} <==> KeysOf(ms) == WantedKeys(cfg, p)
  {
    if MemberDefects(cfg, p, ms) == {} {
      forall k | k in WantedKeys(cfg, p) ensures k in KeysOf(ms) {
        assert Missing(p, k) !in MemberDefects(cfg, p, ms);
      }
      forall k | k in KeysOf(ms) ensures k in WantedKeys(cfg, p) {
        var id :| id in ms && ms[id].key == k;
        assert StaleMember(p, id) !in MemberDefects(cfg, p, ms);
      }
    } else {
      var d :| d in MemberDefects(cfg, p, ms);
      assert d.StaleMember? ==> ms[d.id].key in KeysOf(ms);
    }
  }

  lemma NoPortDefects(cfg: Config, p: Port, t: Option<Tree>)
    ensures PortDefects(cfg, p, t) == {} <==>
            t.Some? && t.value.pool.Some? && PoolTuned(cfg, t.value.pool.value)
            && KeysOf(t.value.members) == WantedKeys(cfg, p) && MonitorSettled(cfg, p, t.value.monitor)
  {
    hide MemberDefects, KeysOf, PoolTuned, ProbeFor;
    NoMemberDefects(cfg, p, MembersIn(t));
    assert PortDefects(cfg, p, t) == {} <==>
           PoolDefects(cfg, p, t) == {} && MemberDefects(cfg, p, MembersIn(t)) == {}
               && ProbeDefects(cfg, p, ProbeOf(t)) == {};
    NoPoolDefects(cfg, p, t);
    if t.Some? { NoProbeDefects(cfg, p, t); }
  }

  lemma NoPoolDefects(cfg: Config, p: Port, t: Option<Tree>)
    ensures PoolDefects(cfg, p, t) == {} <==> t.Some? && t.value.pool.Some? && PoolTuned(cfg, t.value.pool.value)
  {
  }

  lemma NoProbeDefects(cfg: Config, p: Port, t: Option<Tree>)
    requires t.Some?
    ensures ProbeDefects(cfg, p, ProbeOf(t)) == {} <==> MonitorSettled(cfg, p, t.value.monitor)
  {
  }

  lemma SurplusCounts(cfg: Config, s: State, l: Id)
    ensures Surplus(cfg, s, l) ==> OldListener(l) in Defects(cfg, s)
  {
    assert l in s.listeners ==> OldListener(l) in OldDefects(l, TreeOf(s, l));
  }

  /** A monitor of the wrong type or port costs two requests, an absent or mistuned one a single request. */
  lemma ProbeCost(cfg: Config, p: Port, m: Option<Probe>)
    requires cfg.settings.probing
    ensures |ProbeDefects(cfg, p, m)| ==
            if m.None? then 1 else if !SameShape(m.value, ProbeFor(cfg, p)) then 2
                else if m.value != ProbeFor(cfg, p) then 1 else 0
  {
  }

  lemma NoDefects(cfg: Config, s: State)
    ensures Defects(cfg, s) == {} <==>
            (forall p :: p in cfg.Ports() ==> PortDefects(cfg, p, TreeAt(cfg, s, p)) == {}) && NoStale(cfg, s)
  {
    hide PortDefects, TreeAt;
    if Defects(cfg, s) == {} {
      forall p | p in cfg.Ports() ensures PortDefects(cfg, p, TreeAt(cfg, s, p)) == {} {
        assert forall d :: d in PortDefects(cfg, p, TreeAt(cfg, s, p)) ==> d in Defects(cfg, s);
      }
      forall l ensures !Surplus(cfg, s, l) {
        SurplusCounts(cfg, s, l);
      }
      assert forall l :: l in s.listeners && s.listeners[l].lb == cfg.lb && Own(cfg.name, s.listeners[l].name) ==>
             s.listeners[l].key in cfg.Wanted() || Surplus(cfg, s, l);
    }
  }

  /** Distance zero is the wanted state, apart from what idle-timeout and IP group requests bring about. */
  lemma DistanceZero(cfg: Config, s: State)
    requires KeysUnique(s)
    ensures Converged(cfg, s) <==> Distance(cfg, s) == 0 && forall p :: p in cfg.Ports() ==> Guarded(cfg, s, p)
  {
    hide PortDefects, Defects, NoStale, KeysUnique, AccessSettled, MonitorSettled, PoolTuned, TreeAt;
    NoDefects(cfg, s);
    forall p | p in cfg.Ports()
      ensures PortSettled(cfg, s, p) <==> PortDefects(cfg, p, TreeAt(cfg, s, p)) == {} && Guarded(cfg, s, p)
    {
      NoPortDefects(cfg, p, TreeAt(cfg, s, p));
      forall l | At(s, cfg.lb, p.key, l) ensures TreeAt(cfg, s, p) == TreeOf(s, l) {
        TreeAtIs(cfg, s, p, l);
      }
    }
  }
}

/** Whole lives of one Service, on a shared load balancer or on one of its own: what is left when it is gone. */
module Life {
  import opened Basics
  import opened CloudState
  import opened Service
  import opened Plan
  import opened Steps
  import opened Isolation

  /** Where a Service lives: as a guest on a shared load balancer, on whose `keys` no other owner sits, or on a load
      balancer of its own, which has its name and comes and goes with it. */
  datatype Home = Guest(lb: Id, keys: set<Key>) | Owner

  /** Every listener of `base` is on load balancer `lb`. */
  predicate HomeOnly(base: string, lb: Id, s: State) {
    forall l :: l in s.listeners && Own(base, s.listeners[l].name) ==> s.listeners[l].lb == lb
  }

  predicate Named(base: string, s: State, lb: Id) { lb in s.balancers && s.balancers[lb].name == base }

  /** Every listener is on a load balancer, and those of `base` are exactly the ones on load balancers of its name. */
  predicate Segregated(base: string, s: State) {
    forall l :: l in s.listeners ==>
      s.listeners[l].lb in s.balancers && (Own(base, s.listeners[l].name) <==> Named(base, s, s.listeners[l].lb))
  }

  /** At most one load balancer has the name. */
  ghost predicate Sole(base: string, s: State) {
    forall x, y :: Named(base, s, x) && Named(base, s, y) ==> x == y
  }

  /** `base` keeps to its home, and its home is undisputed. */
  ghost predicate Undisputed(base: string, home: Home, s: State) {
    match home
    case Guest(lb, keys) => Territory(base, lb, keys, s) && HomeOnly(base, lb, s)
    case Owner => Segregated(base, s) && Sole(base, s)
  }

  /** A well-formed cloud in which `base` has an undisputed home. */
  ghost predicate Healthy(base: string, home: Home, s: State) {
    WellFormed(base, s) && Coherent(base, s) && Undisputed(base, home, s)
  }

  /** Part of a Service's life: one run over listeners, complete or cut short by failures, or requests on the load
      balancer of its own and its EIPs. */
  datatype Phase =
    | Phase(cfg: Config, verb: Verb, start: State, calls: seq<Call>, end: State)
    | Errand(start: State, calls: seq<Call>, end: State)

  /** A run at home: on the shared load balancer, whose other listeners are left alone, or on the Service's own. */
  predicate AtHome(cfg: Config, verb: Verb, home: Home, s: State) {
    && Sound(cfg)
    && match home
       case Guest(lb, keys) => cfg.lb == lb && cfg.Wanted() <= keys && (verb == Deleting ==> Shared(cfg))
       case Owner => Named(cfg.name, s, cfg.lb)
  }

  /** What a Service may ask for with its own load balancer: make one when it has none, delete it once it is empty, and
      release EIPs. */
  ghost predicate Chore(base: string, s: State, op: Op) {
    match op
    case CreateBalancer(name, _, _, _) => name == base && forall x :: !Named(base, s, x)
    case DeleteBalancer(lb) => Named(base, s, lb) && forall l :: l in s.listeners ==> s.listeners[l].lb != lb
    case DeleteEip(_) => true
    case _ => false
  }

  ghost predicate Lawful(ph: Phase, base: string, home: Home) {
    match ph
    case Phase(cfg, verb, start, calls, end) =>
      LegalRun(cfg, verb, start, calls, end) && cfg.name == base && AtHome(cfg, verb, home, start)
    case Errand(start, calls, end) =>
      && home.Owner? && Linked(calls, start, end)
      && forall i :: 0 <= i < |calls| ==> Happened(calls[i]) && Chore(base, calls[i].pre, calls[i].op)
  }

  predicate Consecutive(life: seq<Phase>, s: State, t: State) {
    if life == [] then s == t
    else
      var n := |life| - 1;
      life[n].end == t && Consecutive(life[..n], s, life[n].start)
  }

  lemma {:induction false} ConsecutiveChain(before: seq<Phase>, after: seq<Phase>, s: State, t: State, u: State)
    requires Consecutive(before, s, t) && Consecutive(after, t, u)
    ensures Consecutive(before + after, s, u)
    decreases |after|
  {
    if after == [] {
      assert before + after == before;
    } else {
      var n := |after| - 1;
      ConsecutiveChain(before, after[..n], s, t, after[n].start);
      assert (before + after)[..|before| + n] == before + after[..n];
    }
  }

  /** All requests of a life, in order. */
  function CallsOf(life: seq<Phase>): seq<Call> {
    if life == [] then [] else CallsOf(life[..|life| - 1]) + life[|life| - 1].calls
  }

  lemma OneMorePhase(life: seq<Phase>)
    requires life != []
    ensures CallsOf(life) == CallsOf(life[..|life| - 1]) + life[|life| - 1].calls
  {
  }

  lemma {:induction false} CallsChain(before: seq<Phase>, after: seq<Phase>)
    ensures CallsOf(before + after) == CallsOf(before) + CallsOf(after)
    decreases |after|
  {
    if after == [] {
      assert before + after == before;
    } else {
      var n := |after| - 1;
      CallsChain(before, after[..n]);
      OneMorePhase(before + after);
      OneMorePhase(after);
      assert (before + after)[..|before| + n] == before + after[..n];
    }
  }

  // ----- one call -----

  lemma HomelyHere(cfg: Config, verb: Verb, home: Home, s: State)
    requires Undisputed(cfg.name, home, s) && AtHome(cfg, verb, home, s)
    ensures Homely(cfg, verb, s)
  {
  }

  lemma JustifiedIsMatched(cfg: Config, verb: Verb, s: State, why: Purpose, op: Op)
    requires Homely(cfg, verb, s) && Coherent(cfg.name, s) && References(s) && Justified(cfg, verb, s, why, op)
    ensures Matched(cfg.name, s, op)
  {
    JustifiedIsOwn(cfg, verb, s, why, op);
  }

  lemma HomeOnlyStep(cfg: Config, verb: Verb, s: State, why: Purpose, op: Op, id: Id)
    requires HomeOnly(cfg.name, cfg.lb, s) && Justified(cfg, verb, s, why, op) && Verdict(s, op) == Ok && Fresh(s, id)
    ensures HomeOnly(cfg.name, cfg.lb, Apply(s, op, id))
  {
    hide Apply, Verdict;
    if op.CreateListener? {
      ListenerMade(s, op, id);
    }
    forall l | l in Apply(s, op, id).listeners && (op.CreateListener? ==> l != id)
      ensures l in s.listeners && Apply(s, op, id).listeners[l].lb == s.listeners[l].lb
      ensures Apply(s, op, id).listeners[l].name == s.listeners[l].name
    {
      PlaceKept(s, op, id, l);
    }
  }

  lemma SegregatedStep(cfg: Config, verb: Verb, s: State, why: Purpose, op: Op, id: Id)
    requires Segregated(cfg.name, s) && Named(cfg.name, s, cfg.lb) && OwnOp(cfg.name, s, op)
    requires Justified(cfg, verb, s, why, op) && Verdict(s, op) == Ok && Fresh(s, id)
    ensures Segregated(cfg.name, Apply(s, op, id))
  {
    hide Apply, Verdict;
    JustifiedSparesBalancers(cfg, verb, s, why, op, id);
    if op.CreateListener? {
      ListenerMade(s, op, id);
    }
    forall l | l in Apply(s, op, id).listeners && (op.CreateListener? ==> l != id)
      ensures l in s.listeners && Apply(s, op, id).listeners[l].lb == s.listeners[l].lb
      ensures Apply(s, op, id).listeners[l].name == s.listeners[l].name
    {
      PlaceKept(s, op, id, l);
    }
  }

  lemma UndisputedStep(cfg: Config, verb: Verb, home: Home, s: State, why: Purpose, op: Op, id: Id)
    requires Undisputed(cfg.name, home, s) && AtHome(cfg, verb, home, s) && OwnOp(cfg.name, s, op)
    requires Justified(cfg, verb, s, why, op) && Verdict(s, op) == Ok && Fresh(s, id)
    ensures Undisputed(cfg.name, home, Apply(s, op, id)) && AtHome(cfg, verb, home, Apply(s, op, id))
  {
    hide Justified, OwnOp, Apply, Verdict, Territory, HomeOnly, Segregated, Fresh;
    JustifiedSparesBalancers(cfg, verb, s, why, op, id);
    match home {
      case Guest(lb, keys) =>
        OwnNameIfCreated(cfg.name, s, op);
        TerritoryStep(cfg.name, lb, keys, s, op, id);
        HomeOnlyStep(cfg, verb, s, why, op, id);
      case Owner =>
        SegregatedStep(cfg, verb, s, why, op, id);
        assert forall x :: Named(cfg.name, Apply(s, op, id), x) <==> Named(cfg.name, s, x);
    }
  }

  lemma OthersApart(base: string)
    ensures Apart(base, base, false)
  {
  }

  /** One call of a healthy Service: the cloud stays healthy and everything without its prefix stays as it is. */
  lemma CallKeepsRest(cfg: Config, verb: Verb, home: Home, c: Call)
    requires LegalCall(cfg, verb, c) && Healthy(cfg.name, home, c.pre) && AtHome(cfg, verb, home, c.pre)
    ensures Healthy(cfg.name, home, c.post) && AtHome(cfg, verb, home, c.post)
    ensures Slice(cfg.name, false, c.post) == Slice(cfg.name, false, c.pre)
  {
    hide Slice, Coherent, References, KeysUnique, ProbesPlain, GroupsTidy, Undisputed, AtHome, Justified, OwnOp;
    if c.done {
      HomelyHere(cfg, verb, home, c.pre);
      JustifiedIsOwn(cfg, verb, c.pre, c.why, c.op);
      JustifiedIsMatched(cfg, verb, c.pre, c.why, c.op);
      JustifiedIsSane(cfg, verb, c.pre, c.why, c.op);
      JustifiedKeepsWellFormed(cfg, verb, c.pre, c.why, c.op, c.id);
      MatchedKeepsCoherent(cfg.name, c.pre, c.op, c.id);
      UndisputedStep(cfg, verb, home, c.pre, c.why, c.op, c.id);
      OthersApart(cfg.name);
      OwnOpKeepsSlice(cfg.name, c.pre, c.op, c.id, cfg.name, false);
    }
  }

  lemma OwnNameIfCreated(base: string, s: State, op: Op)
    requires OwnOp(base, s, op)
    ensures op.CreateListener? ==> Own(base, op.name)
  {
  }

  lemma {:induction false} RunKeepsRest(cfg: Config, verb: Verb, home: Home, start: State, calls: seq<Call>, now: State)
    requires LegalRun(cfg, verb, start, calls, now) && Healthy(cfg.name, home, start) && AtHome(cfg, verb, home, start)
    ensures Healthy(cfg.name, home, now) && AtHome(cfg, verb, home, now)
    ensures Slice(cfg.name, false, now) == Slice(cfg.name, false, start)
    decreases |calls|
  {
    hide Slice, Healthy, LegalCall, AtHome;
    if calls != [] {
      var n := |calls| - 1;
      RunKeepsRest(cfg, verb, home, start, calls[..n], calls[n].pre);
      CallKeepsRest(cfg, verb, home, calls[n]);
    }
  }

  // ----- errands -----

  /** Everything that does not carry the prefix of `base`; without a shared load balancer also its own load balancers
      and all EIPs are left out. */
  function Rest(base: string, home: Home, s: State): State {
    var others := Slice(base, false, s);
    if home.Guest? then others
    else others.(balancers := map x | x in s.balancers && s.balancers[x].name != base :: s.balancers[x], eips := {})
  }

  /** What hangs off the load balancers. */
  function Hanging(s: State): State { s.(balancers := map[], eips := {}) }

  lemma ChoreKeepsRest(base: string, c: Call)
    requires Happened(c) && Chore(base, c.pre, c.op) && Undisputed(base, Owner, c.pre)
    ensures Hanging(c.post) == Hanging(c.pre) && Undisputed(base, Owner, c.post)
    ensures Rest(base, Owner, c.post) == Rest(base, Owner, c.pre)
  {
    assert forall x :: Named(base, c.post, x) ==> Named(base, c.pre, x) || (c.op.CreateBalancer? && x == c.id);
  }

  lemma HealthyIfHanging(base: string, home: Home, s: State, t: State)
    requires Healthy(base, home, s) && Hanging(t) == Hanging(s) && Undisputed(base, home, t)
    ensures Healthy(base, home, t)
  {
  }

  lemma {:induction false} ErrandKeepsRest(base: string, start: State, calls: seq<Call>, end: State)
    requires Lawful(Errand(start, calls, end), base, Owner) && Undisputed(base, Owner, start)
    ensures Hanging(end) == Hanging(start) && Undisputed(base, Owner, end)
    ensures Rest(base, Owner, end) == Rest(base, Owner, start)
    decreases |calls|
  {
    hide Rest, Hanging, Happened, Chore, Undisputed;
    if calls != [] {
      var n := |calls| - 1;
      ErrandKeepsRest(base, start, calls[..n], calls[n].pre);
      ChoreKeepsRest(base, calls[n]);
    }
  }

  lemma PhaseKeepsRest(ph: Phase, base: string, home: Home)
    requires Lawful(ph, base, home) && Healthy(base, home, ph.start)
    ensures Healthy(base, home, ph.end) && Rest(base, home, ph.end) == Rest(base, home, ph.start)
    ensures ph.Phase? ==> ph.end.balancers == ph.start.balancers && ph.end.eips == ph.start.eips
  {
    hide Healthy, LegalRun, Chore, Undisputed;
    match ph {
      case Phase(cfg, verb, start, calls, end) =>
        RunKeepsRest(cfg, verb, home, start, calls, end);
        RunSparesBalancers(cfg, verb, start, calls, end);
      case Errand(start, calls, end) =>
        HealthyIsUndisputed(base, start);
        ErrandKeepsRest(base, start, calls, end);
        HealthyIfHanging(base, Owner, start, end);
    }
  }

  lemma HealthyIsUndisputed(base: string, s: State)
    requires Healthy(base, Owner, s)
    ensures Undisputed(base, Owner, s)
  {
  }

  /** Non-interference over a whole life, failures included. */
  lemma {:induction false} LifeKeepsRest(life: seq<Phase>, base: string, home: Home, s: State, t: State)
    requires Consecutive(life, s, t) && (forall i :: 0 <= i < |life| ==> Lawful(life[i], base, home))
    requires Healthy(base, home, s)
    ensures Healthy(base, home, t) && Rest(base, home, t) == Rest(base, home, s)
    decreases |life|
  {
    hide Rest, Healthy, Lawful;
    if life != [] {
      var n := |life| - 1;
      LifeKeepsRest(life[..n], base, home, s, life[n].start);
      PhaseKeepsRest(life[n], base, home);
    }
  }

  // ----- the end of a life -----

  /** No resource carries the prefix of `base`, and no load balancer of its own has its name. */
  ghost predicate Bare(base: string, home: Home, s: State) {
    && (forall l :: !OwnListener(base, s, l)) && (forall q :: !OwnPool(base, s, q))
    && (forall m :: !OwnMonitor(base, s, m)) && (forall g :: !OwnGroup(base, s, g))
    && (home.Owner? ==> forall x :: !Named(base, s, x))
  }

  /** The Service is gone from its home: it has no listener on the shared load balancer, or no load balancer. */
  ghost predicate Departed(base: string, home: Home, s: State) {
    match home
    case Guest(lb, _) => forall l :: OwnListener(base, s, l) ==> s.listeners[l].lb != lb
    case Owner => forall x :: !Named(base, s, x)
  }

  lemma DepartedHasNoListeners(base: string, home: Home, s: State)
    requires Undisputed(base, home, s) && Departed(base, home, s)
    ensures forall l :: !OwnListener(base, s, l)
  {
  }

  /** Without listeners of its own, a coherent Service owns nothing but orphaned IP groups. */
  lemma OnlyOrphansLeft(base: string, s: State)
    requires Coherent(base, s) && References(s) && forall l :: !OwnListener(base, s, l)
    ensures forall q :: !OwnPool(base, s, q)
    ensures forall m :: !OwnMonitor(base, s, m)
    ensures forall g :: OwnGroup(base, s, g) ==> g in Orphans(base, s)
  {
  }

  lemma NothingKept(base: string, s: State)
    requires s.members.Keys == s.pools.Keys
    requires (forall l :: !OwnListener(base, s, l)) && (forall q :: !OwnPool(base, s, q))
             && forall m :: !OwnMonitor(base, s, m)
    ensures KeptListeners(base, false, s) == s.listeners && KeptPools(base, false, s) == s.pools
    ensures KeptMembers(base, false, s) == s.members && KeptMonitors(base, false, s) == s.monitors
  {
    assert forall l :: l in s.listeners ==> !OwnListener(base, s, l);
    assert forall q :: q in s.pools ==> !OwnPool(base, s, q);
    assert forall m :: m in s.monitors ==> !OwnMonitor(base, s, m);
  }

  lemma NoGroupsKept(base: string, s: State)
    requires forall g :: !OwnGroup(base, s, g)
    ensures KeptGroups(base, false, s) == s.groups
  {
    assert forall g :: g in s.groups ==> !OwnGroup(base, s, g);
  }

  lemma NoBalancerKept(base: string, home: Home, s: State)
    requires home.Owner? ==> forall x :: !Named(base, s, x)
    ensures Rest(base, home, s).balancers == s.balancers
  {
    assert home.Owner? ==> forall x :: x in s.balancers ==> !Named(base, s, x);
  }

  lemma BareSlice(base: string, home: Home, s: State)
    requires s.members.Keys == s.pools.Keys && Bare(base, home, s)
    ensures Slice(base, false, s) == s
    ensures Rest(base, home, s) == if home.Guest? then s else s.(eips := {})
  {
    NothingKept(base, s);
    NoGroupsKept(base, s);
    NoBalancerKept(base, home, s);
    hide KeptListeners, KeptPools, KeptMembers, KeptMonitors, KeptGroups, OwnListener, OwnPool, OwnMonitor, OwnGroup,
        Own;
  }

  /** The cloud `t` as it is, except that EIPs may differ when the Service has a load balancer of its own. */
  function UpToEips(home: Home, s: State, t: State): State { if home.Guest? then s else s.(eips := t.eips) }

  /** Everything but IP groups, and EIPs of load balancers that came and went, is as it was, and the only new IP groups
      are unbound ones of the Service. */
  ghost predicate RestoredUpToOrphans(base: string, home: Home, s: State, t: State) {
    && t == UpToEips(home, s, t).(groups := t.groups)
    && (forall g :: g in s.groups ==> g in t.groups && t.groups[g] == s.groups[g])
    && (forall g :: g in t.groups && g !in s.groups ==> g in Orphans(base, t))
  }

  lemma RestoredMaps(base: string, home: Home, s: State, t: State)
    requires Rest(base, home, t) == (if home.Guest? then s else s.(eips := {})) && References(t)
    requires (forall l :: !OwnListener(base, t, l)) && (forall q :: !OwnPool(base, t, q))
             && (forall m :: !OwnMonitor(base, t, m)) && (home.Owner? ==> forall x :: !Named(base, t, x))
    requires forall g :: OwnGroup(base, t, g) ==> g in Orphans(base, t)
    ensures RestoredUpToOrphans(base, home, s, t)
  {
    hide KeptListeners, KeptPools, KeptMembers, KeptMonitors, OwnListener, OwnPool, OwnMonitor, PoolRefs, MonitorRefs,
        Orphans;
    NothingKept(base, t);
    NoBalancerKept(base, home, t);
    forall g | g in t.groups && g !in s.groups ensures g in Orphans(base, t) {
      assert OwnGroup(base, t, g);
    }
  }

  /** A life that ends with the Service gone from its home restores the cloud, however many of its runs failed: only
      unbound IP groups of the Service can remain. */
  lemma LifeRestores(life: seq<Phase>, base: string, home: Home, s: State, t: State)
    requires Consecutive(life, s, t) && (forall i :: 0 <= i < |life| ==> Lawful(life[i], base, home))
    requires Healthy(base, home, s) && Bare(base, home, s) && Departed(base, home, t)
    ensures RestoredUpToOrphans(base, home, s, t)
  {
    hide Rest, Orphans, RestoredUpToOrphans, Lawful, Consecutive;
    LifeKeepsRest(life, base, home, s, t);
    BareSlice(base, home, s);
    DepartedHasNoListeners(base, home, t);
    OnlyOrphansLeft(base, t);
    RestoredMaps(base, home, s, t);
  }

  // ----- where unbound groups come from -----

  /** The phase is a legal run of the Service, or leaves everything that hangs off load balancers alone. */
  ghost predicate Traced(ph: Phase, base: string) {
    match ph
    case Phase(cfg, verb, start, calls, end) => LegalRun(cfg, verb, start, calls, end) && cfg.name == base
    case Errand(start, calls, end) => Hanging(end) == Hanging(start)
  }

  lemma {:induction false} ErrandKeepsHanging(base: string, start: State, calls: seq<Call>, end: State)
    requires Lawful(Errand(start, calls, end), base, Owner)
    ensures Hanging(end) == Hanging(start)
    decreases |calls|
  {
    hide Hanging, Happened, Chore;
    if calls != [] {
      var n := |calls| - 1;
      ErrandKeepsHanging(base, start, calls[..n], calls[n].pre);
      ChoreKeepsHanging(base, calls[n]);
    }
  }

  lemma ChoreKeepsHanging(base: string, c: Call)
    requires Happened(c) && Chore(base, c.pre, c.op)
    ensures Hanging(c.post) == Hanging(c.pre)
  {
  }

  lemma LawfulIsTraced(ph: Phase, base: string, home: Home)
    requires Lawful(ph, base, home)
    ensures Traced(ph, base)
  {
    if ph.Errand? {
      ErrandKeepsHanging(base, ph.start, ph.calls, ph.end);
    }
  }

  lemma HangingKeepsOrphans(base: string, s: State, t: State)
    requires Hanging(t) == Hanging(s)
    ensures Orphans(base, t) == Orphans(base, s)
  {
  }

  /** The call took effect and left group `g` without a listener: it made the group, or deleted the listener that bound
      it. */
  predicate Unbinds(c: Call, g: Id) {
    && c.done
    && (if c.op.CreateGroup? then c.id == g
        else c.op.DeleteListener? && Binds(c.pre, c.op.listener, g))
  }

  /** One of the calls left the group without a listener. */
  ghost predicate Origin(calls: seq<Call>, g: Id) {
    exists k :: 0 <= k < |calls| && Unbinds(calls[k], g)
  }

  lemma {:induction false} RunLeaksByCalls(cfg: Config, verb: Verb, start: State, calls: seq<Call>, now: State, g: Id)
    requires LegalRun(cfg, verb, start, calls, now) && g in Leaked(cfg.name, start, now)
    ensures Origin(calls, g)
    decreases |calls|
  {
    hide Justified, Orphans;
    if calls != [] {
      var n := |calls| - 1;
      var c := calls[n];
      assert LegalCall(cfg, verb, c);
      if g in Orphans(cfg.name, c.pre) {
        RunLeaksByCalls(cfg, verb, start, calls[..n], c.pre, g);
        var k :| 0 <= k < n && Unbinds(calls[..n][k], g);
        assert Unbinds(calls[k], g);
      } else {
        OrphansStep(cfg, verb, c.pre, c.why, c.op, c.id);
        assert Unbinds(c, g);
      }
    }
  }

  /** The phase left no IP group of the Service newly unbound. */
  predicate Clean(base: string, ph: Phase) { Leaked(base, ph.start, ph.end) == {} }

  /** A phase that was not clean accounts for the group: in it a call left the group without a listener. */
  ghost predicate Accounted(base: string, life: seq<Phase>, g: Id) {
    exists i :: 0 <= i < |life| && !Clean(base, life[i]) && Origin(life[i].calls, g)
  }

  lemma PhaseAccounts(ph: Phase, base: string, g: Id)
    requires Traced(ph, base) && g in Leaked(base, ph.start, ph.end)
    ensures !Clean(base, ph) && Origin(ph.calls, g)
  {
    hide LegalRun, Orphans, Origin;
    if ph.Phase? {
      RunLeaksByCalls(ph.cfg, ph.verb, ph.start, ph.calls, ph.end, g);
    } else {
      HangingKeepsOrphans(base, ph.start, ph.end);
    }
  }

  /** Every unbound group that was not there before has its origin in a phase that was not clean. */
  lemma {:induction false} LeftoversAccounted(life: seq<Phase>, base: string, s: State, t: State, g: Id)
    requires Consecutive(life, s, t) && (forall i :: 0 <= i < |life| ==> Traced(life[i], base))
    requires g in Leaked(base, s, t)
    ensures Accounted(base, life, g)
    decreases |life|
  {
    hide Traced, Orphans, Origin;
    if life != [] {
      var n := |life| - 1;
      var ph := life[n];
      if g in Orphans(base, ph.start) {
        LeftoversAccounted(life[..n], base, s, ph.start, g);
        var i :| 0 <= i < n && !Clean(base, life[..n][i]) && Origin(life[..n][i].calls, g);
        assert life[..n][i] == life[i];
      } else {
        assert g in Leaked(base, ph.start, ph.end);
        PhaseAccounts(ph, base, g);
        assert !Clean(base, life[n]);
      }
    }
  }

  /** How many phases were not clean. */
  function Messy(base: string, life: seq<Phase>): nat {
    if life == [] then 0
    else Messy(base, life[..|life| - 1]) + if Clean(base, life[|life| - 1]) then 0 else 1
  }

  lemma {:induction false} MessyChain(base: string, before: seq<Phase>, after: seq<Phase>)
    ensures Messy(base, before + after) == Messy(base, before) + Messy(base, after)
    decreases |after|
  {
    hide Clean;
    if after == [] {
      assert before + after == before;
    } else {
      var n := |after| - 1;
      MessyChain(base, before, after[..n]);
      assert (before + after)[..|before| + n] == before + after[..n];
    }
  }

  lemma UnionSize(a: set<Id>, b: set<Id>, c: set<Id>)
    requires a <= b + c
    ensures |a| <= |b| + |c|
  {
    assert b + c == b + (c - b);
    assert b + c == a + (b + c - a);
    assert c == (c - b) + c * b;
  }

  /** When every phase leaves at most one group behind, at most as many are left as phases were not clean. */
  lemma {:induction false} LeftoversCounted(life: seq<Phase>, base: string, s: State, t: State)
    requires Consecutive(life, s, t)
    requires forall i :: 0 <= i < |life| ==> |Leaked(base, life[i].start, life[i].end)| <= 1
    ensures |Leaked(base, s, t)| <= Messy(base, life)
    decreases |life|
  {
    hide Orphans;
    if life != [] {
      var n := |life| - 1;
      var ph := life[n];
      LeftoversCounted(life[..n], base, s, ph.start);
      UnionSize(Leaked(base, s, t), Leaked(base, s, ph.start), Leaked(base, ph.start, ph.end));
    }
  }

  /** The whole-life round trip: if every phase was clean, the cloud at the end equals the one at the start, up to EIPs
      if the Service had a load balancer of its own. */
  lemma RoundTrip(life: seq<Phase>, base: string, home: Home, s: State, t: State)
    requires Consecutive(life, s, t)
    requires forall i :: 0 <= i < |life| ==> Lawful(life[i], base, home) && Clean(base, life[i])
    requires Healthy(base, home, s) && Bare(base, home, s) && Departed(base, home, t)
    ensures t == UpToEips(home, s, t)
  {
    hide Healthy, Lawful, Clean, Consecutive, Departed;
    LifeRestores(life, base, home, s, t);
    BareHasNoOrphans(base, home, s);
    forall i | 0 <= i < |life| ensures Traced(life[i], base) {
      LawfulIsTraced(life[i], base, home);
    }
    forall g ensures g !in Orphans(base, t) {
      if g in Leaked(base, s, t) {
        LeftoversAccounted(life, base, s, t, g);
      }
    }
    assert forall g :: g in t.groups ==> g in s.groups;
    assert t.groups == s.groups;
  }

  lemma BareHasNoOrphans(base: string, home: Home, s: State)
    requires Bare(base, home, s)
    ensures Orphans(base, s) == {}
  {
    assert forall g :: g in Orphans(base, s) ==> OwnGroup(base, s, g);
  }
}

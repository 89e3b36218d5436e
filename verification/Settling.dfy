/** Calling again: what one more call does after any life, and what repeated calls cost. */
module Settling {
  import opened Basics
  import opened CloudState
  import opened Service
  import opened Plan
  import opened Steps
  import opened Backend
  import opened Calls
  import opened Reconciler
  import opened Lifecycle
  import opened NodeUpdate
  import opened EipBooks
  import opened Isolation
  import opened Life
  import opened Meaning
  import opened WholeLife
  import opened Outcomes
  import Annotations
  import IpGroups
  import Progress
  import Rollover
  import Stability

  // ----- nothing a life does stands in the way of a later reconciliation -----

  /** No IP group but one named for the listener's key is bound to it; the one it binds may have vanished. */
  predicate Unspoilt(base: string, s: State, l: Id)
    requires l in s.listeners
  {
    var g := Get(s.groups, s.listeners[l].group);
    g.Some? ==> g.value.name == ResourceName(base, s.listeners[l].key)
  }

  /** That goes for every listener of the Service. */
  ghost predicate Clear(base: string, s: State) {
    forall l :: OwnListener(base, s, l) ==> Unspoilt(base, s, l)
  }

  lemma AttachKeepsClear(cfg: Config, s: State, p: Port, l: Id, op: Op, id: Id)
    requires Clear(cfg.name, s) && op.SetGroup? && Upkeep(cfg, s, p, l, op)
    ensures Clear(cfg.name, Apply(s, op, id))
  {
    var t := Apply(s, op, id);
    forall k | OwnListener(cfg.name, t, k) ensures Unspoilt(cfg.name, t, k) {
      assert OwnListener(cfg.name, s, k) && Unspoilt(cfg.name, s, k);
    }
  }

  lemma DetachedKeepsClear(base: string, s: State, op: Op, id: Id)
    requires Clear(base, s) && !op.SetGroup? && Verdict(s, op) == Ok && Fresh(s, id)
    ensures Clear(base, Apply(s, op, id))
  {
    hide Apply, Verdict, ResourceName;
    var t := Apply(s, op, id);
    if op.CreateListener? {
      ListenerMade(s, op, id);
    }
    if op.CreateGroup? {
      GroupMade(s, op, id);
    }
    forall l | OwnListener(base, t, l) ensures Unspoilt(base, t, l) {
      if !(op.CreateListener? && l == id) {
        PlaceKept(s, op, id, l);
        BindingKept(s, op, id, l);
        assert OwnListener(base, s, l) && Unspoilt(base, s, l);
        var g := t.listeners[l].group;
        if g.Some? && g.value in t.groups {
          assert Bound(s, g.value);
          GroupKept(s, op, id, g.value);
        }
      }
    }
  }

  lemma JustifiedKeepsClear(cfg: Config, verb: Verb, s: State, why: Purpose, op: Op, id: Id)
    requires Clear(cfg.name, s) && Justified(cfg, verb, s, why, op) && Verdict(s, op) == Ok && Fresh(s, id)
    ensures Clear(cfg.name, Apply(s, op, id))
  {
    hide Clear, Apply, Verdict;
    if op.SetGroup? {
      AttachKeepsClear(cfg, s, why.port, why.listener, op, id);
    } else {
      DetachedKeepsClear(cfg.name, s, op, id);
    }
  }

  lemma {:induction false} RunKeepsClear(cfg: Config, verb: Verb, start: State, calls: seq<Call>, now: State)
    requires LegalRun(cfg, verb, start, calls, now) && Clear(cfg.name, start)
    ensures Clear(cfg.name, now)
    decreases |calls|
  {
    hide Clear, Justified, Apply;
    if calls != [] {
      var n := |calls| - 1;
      RunKeepsClear(cfg, verb, start, calls[..n], calls[n].pre);
      assert LegalCall(cfg, verb, calls[n]);
      if calls[n].done {
        JustifiedKeepsClear(cfg, verb, calls[n].pre, calls[n].why, calls[n].op, calls[n].id);
      }
    }
  }

  lemma HangingKeepsClear(base: string, s: State, t: State)
    requires Hanging(t) == Hanging(s)
    ensures Clear(base, s) ==> Clear(base, t)
    ensures NoDuplicates(s) ==> NoDuplicates(t)
  {
    assert t.listeners == Hanging(t).listeners && t.groups == Hanging(t).groups && t.members == Hanging(t).members;
    assert s.listeners == Hanging(s).listeners && s.groups == Hanging(s).groups && s.members == Hanging(s).members;
    assert forall l :: OwnListener(base, t, l) ==> OwnListener(base, s, l);
  }

  /** No life makes a duplicate member, or binds a group that is not named for its listener. */
  lemma {:induction false} LifeKeepsClear(life: seq<Phase>, base: string, s: State, t: State)
    requires Consecutive(life, s, t) && (forall i :: 0 <= i < |life| ==> Traced(life[i], base))
    ensures Clear(base, s) ==> Clear(base, t)
    ensures NoDuplicates(s) ==> NoDuplicates(t)
    decreases |life|
  {
    hide Clear, NoDuplicates, LegalRun, Hanging;
    if life != [] {
      var n := |life| - 1;
      var ph := life[n];
      LifeKeepsClear(life[..n], base, s, ph.start);
      assert Traced(ph, base);
      if ph.Errand? {
        HangingKeepsClear(base, ph.start, ph.end);
      } else {
        if Clear(base, ph.start) { RunKeepsClear(ph.cfg, ph.verb, ph.start, ph.calls, ph.end); }
        if NoDuplicates(ph.start) { RunKeepsUnique(ph.cfg, ph.verb, ph.start, ph.calls, ph.end); }
      }
    }
  }

  /** The order itself leaves nothing to be desired: every port has a node port and a usable node. */
  predicate Servable(o: Order) {
    && Supported(o) && (forall p :: p in o.spec.ports ==> p.nodePort != 0)
    && exists i :: 0 <= i < |o.nodes| && Usable(o.nodes[i])
  }

  lemma ClearIsFeasible(cfg: Config, verb: Verb, home: Home, s: State, p: Port)
    requires Undisputed(cfg.name, home, s) && AtHome(cfg, verb, home, s) && Clear(cfg.name, s) && p in cfg.Ports()
    requires p.nodePort != 0 && exists i :: 0 <= i < |cfg.nodes| && Usable(cfg.nodes[i])
    ensures Feasible(cfg, s, p)
  {
    hide Usable;
    UsableIsWanted(cfg, p);
    forall l | At(s, cfg.lb, p.key, l) ensures IpGroups.NoForeignGroup(cfg, s, p, l) {
      assert p.key in cfg.Wanted();
      assert OwnListener(cfg.name, s, l);
      assert Unspoilt(cfg.name, s, l);
    }
  }

  /** The load balancer is there, or nothing in the order prevents its creation. */
  ghost predicate Housed(known: map<string, Id>, o: Order, home: Home, s: State)
    requires o.Acceptable()
  {
    match home
    case Guest(lb, _) => lb in s.balancers
    case Owner => Creatable(known, o)
  }

  lemma HousedIsFound(known: map<string, Id>, o: Order, base: string, home: Home, s: State)
    requires o.Acceptable() && About(known, o, base, home) && Housed(known, o, home, s)
    ensures Creatable(known, o) || exists x :: IsBalancerOf(known, o, s, x)
  {
    assert home.Guest? ==> IsBalancerOf(known, o, s, home.lb);
  }

  lemma OpenedKeepsHealth(known: map<string, Id>, o: Order, base: string, home: Home, calls: seq<Call>, s: State,
                          t: State)
    requires o.Acceptable() && About(known, o, base, home) && Opening(known, o, calls, s, t) && Healthy(base, home, s)
    ensures Healthy(base, home, t) && (Clear(base, s) ==> Clear(base, t))
  {
    hide Healthy, About, Lawful, Opening, Clear, Hanging;
    if calls == [] {
      OpeningEmptyStays(known, o, calls, s, t);
    } else {
      ErrandIsLawful(known, o, base, home, calls, s, t);
      PhaseKeepsRest(Errand(s, calls, t), base, home);
      ErrandHangs(known, o, calls, s, t);
      HangingKeepsClear(base, s, t);
    }
  }

  /** The ports of the order can be brought in order on the load balancer. */
  lemma StartIsFeasible(c: Cloud, o: Order, base: string, home: Home, cfg: Config, s: State)
    requires o.Acceptable() && About(c.known, o, base, home) && Servable(o) && Sound(cfg)
    requires Healthy(base, home, s) && Clear(base, s)
    requires IsBalancerOf(c.known, o, s, cfg.lb) && cfg == ConfigFor(o, cfg.lb, s.balancers[cfg.lb])
    ensures forall p :: p in o.spec.ports ==> Feasible(cfg, s, p)
  {
    hide Feasible, About, Clear, AtHome, Undisputed, Supported;
    AboutName(c.known, o, base, home);
    RunIsAtHome(c.known, o, cfg, Ensuring, base, home, s);
    forall p | p in o.spec.ports ensures Feasible(cfg, s, p) {
      ClearIsFeasible(cfg, Ensuring, home, s, p);
    }
  }

  /** One reconciliation in an undisputed home: it cannot fail without a fault, and when it succeeds, it converges. */
  method Settle(c: Cloud, o: Order, base: string, ghost home: Home) returns (r: Reply, ghost cfg: Config)
    requires c.Valid() && Healthy(base, home, c.now) && Clear(base, c.now) && NoDuplicates(c.now)
    requires Servable(o) && o.Acceptable() && About(c.known, o, base, home) && Housed(c.known, o, home, c.now)
    modifies c
    ensures c.Valid() && c.faults >= old(c.faults)
    ensures c.faults == old(c.faults) ==> r == Ok
    ensures r == Ok ==>
              && IsBalancerOf(c.known, o, c.now, cfg.lb) && cfg == ConfigFor(o, cfg.lb, c.now.balancers[cfg.lb])
              && Tailored(c.known, cfg, o, c.now) && Converged(cfg, c.now) && InPlace(cfg, c.now)
  {
    hide Healthy, About, WellFormed, LegalRun, NoStale, Converged, Feasible, Creatable, Created, Proper, Orphans,
        Opening, InPlace, Tailored, Sound, Clear, NoDuplicates, Servable, Supported, IsBalancerOf, Housed;
    ghost var s, how := c.now, Nowhere;
    AboutIsProper(c.known, o, base, home);
    HealthyIsWellFormed(base, home, s);
    HousedIsFound(c.known, o, base, home, s);
    ServableIsSupported(o);
    ghost var log0 := c.log;
    var balancer;
    r, balancer, how := EnsureLoadBalancer(c, o);
    cfg := if how.Running? then how.cfg else ConfigFor(o, 0, Balancer("", "", []));
    if how.Running? {
      ghost var start := how.run.start;
      OpenedKeepsHealth(c.known, o, base, home, LogBefore(c, how)[|log0|..], s, start);
      StartIsFeasible(c, o, base, home, cfg, start);
      RunSparesBalancers(cfg, Ensuring, start, c.log[|how.run.before|..], c.now);
      StillBalancer(c.known, o, start, c.now, cfg.lb);
      StillTailored(c.known, cfg, o, start, c.now);
    }
  }

  lemma StillBalancer(known: map<string, Id>, o: Order, s: State, t: State, lb: Id)
    requires o.Acceptable() && IsBalancerOf(known, o, s, lb) && t.balancers == s.balancers
    ensures IsBalancerOf(known, o, t, lb)
  {
  }

  lemma AboutIsProper(known: map<string, Id>, o: Order, base: string, home: Home)
    requires About(known, o, base, home)
    ensures Proper(o) && o.Name() == base
  {
  }

  lemma ServableIsSupported(o: Order)
    requires Servable(o)
    ensures Supported(o)
  {
  }

  /** Retry convergence: after any sequence of calls, whatever failed, one reconciliation without faults reaches the
      wanted state. */
  method LiveAndSettle(c: Cloud, wishes: seq<Wish>, last: Order, base: string, ghost home: Home)
    returns (r: Reply, ghost late: nat, ghost cfg: Config)
    requires c.Valid() && Healthy(base, home, c.now) && Clear(base, c.now) && NoDuplicates(c.now)
    requires AllAbout(c.known, OrdersOf(wishes) + [last], base, home)
    requires Servable(last) && last.Acceptable() && Housed(c.known, last, home, c.now)
    modifies c
    ensures late <= c.faults
    ensures c.faults == late ==> r == Ok
    ensures r == Ok ==>
              && IsBalancerOf(c.known, last, c.now, cfg.lb)
              && cfg == ConfigFor(last, cfg.lb, c.now.balancers[cfg.lb])
              && Tailored(c.known, cfg, last, c.now) && Converged(cfg, c.now) && InPlace(cfg, c.now)
  {
    hide Healthy, About, Lived, WellFormed, Clear, NoDuplicates, Servable, Housed, Drawn, Traced, Lawful, IsBalancerOf,
        Converged, Proper, InPlace, Tailored, AskedFor;
    ghost var s, log0, life, orders, failed, drops := c.now, c.log, [], [], 0, 0;
    PartsAbout(c.known, wishes, last, base, home);
    HealthyIsWellFormed(base, home, s);
    life, orders, failed, drops := Live(c, wishes, base);
    ghost var calls := c.log[|log0|..];
    DrawnAbout(c.known, orders, wishes, base, home);
    LivedIsLawful(c.known, life, orders, base, home, s, c.now, calls, failed, drops);
    LivedIsTraced(c.known, life, orders, base, s, c.now, calls, failed, drops);
    LifeKeepsRest(life, base, home, s, c.now);
    LifeKeepsClear(life, base, s, c.now);
    StillHoused(c.known, last, base, home, life, s, c.now);
    late := c.faults;
    r, cfg := Settle(c, last, base, home);
  }

  lemma StillHoused(known: map<string, Id>, o: Order, base: string, home: Home, life: seq<Phase>, s: State, t: State)
    requires Consecutive(life, s, t) && (forall i :: 0 <= i < |life| ==> Lawful(life[i], base, home))
    requires Healthy(base, home, s) && o.Acceptable() && Housed(known, o, home, s)
    ensures Housed(known, o, home, t)
  {
    hide Healthy, Lawful, Creatable;
    if home.Guest? {
      GuestKeepsBalancers(life, base, home, s, t);
    }
  }

  // ----- a call in the wanted state -----

  /** At most one load balancer fits the order. */
  ghost predicate OneBalancer(known: map<string, Id>, o: Order, s: State)
    requires o.Acceptable()
  {
    forall x, y :: IsBalancerOf(known, o, s, x) && IsBalancerOf(known, o, s, y) ==> x == y
  }

  /** A reconciliation in the wanted state changes nothing, and the only requests it adds to the log set the idle
      timeout. */
  method QuietEnsure(c: Cloud, o: Order, ghost lb: Id) returns (r: Reply)
    requires c.Valid() && Proper(o) && WellFormed(o.Name(), c.now) && o.Acceptable()
    requires IsBalancerOf(c.known, o, c.now, lb) && OneBalancer(c.known, o, c.now)
    requires Converged(ConfigFor(o, lb, c.now.balancers[lb]), c.now)
    modifies c
    ensures c.now == old(c.now) && old(c.log) <= c.log
    ensures forall i :: |old(c.log)| <= i < |c.log| ==> c.log[i].op.SetIdle?
  {
    hide Converged, LegalRun, Proper, NoStale, Feasible, Creatable, Created, Orphans, NoDuplicates, ProbesPlain,
        GroupsTidy, References, Opening, Sound;
    ghost var s, log0, how := c.now, c.log, Nowhere;
    var balancer;
    r, balancer, how := EnsureLoadBalancer(c, o);
    if Supported(o) {
      OpeningIsEmpty(c.known, o, LogBefore(c, how)[|log0|..], s, StateBefore(c, how), lb);
      assert LogBefore(c, how) == log0 by { NothingAdded(log0, LogBefore(c, how)); }
      if how.Running? {
        Stability.Quiescence(how.cfg, s, c.log[|log0|..], c.now);
        forall i | |log0| <= i < |c.log| ensures c.log[i].op.SetIdle? {
          assert c.log[|log0|..][i - |log0|] == c.log[i];
        }
      }
    }
  }

  lemma NothingAdded(log0: seq<Call>, log: seq<Call>)
    requires log0 <= log && log[|log0|..] == []
    ensures log == log0
  {
  }

  // ----- the cost of repeated calls -----

  /** If the order has a load balancer, it is the one of `cfg`. */
  ghost predicate Placed(known: map<string, Id>, o: Order, cfg: Config, s: State)
    requires o.Acceptable()
  {
    forall lb :: IsBalancerOf(known, o, s, lb) ==> cfg == ConfigFor(o, lb, s.balancers[lb])
  }

  /** The requests changed listeners, pools, members and monitors at most as often as the distance to the wanted state
      has shrunk, or there was no load balancer yet and they changed none. */
  ghost predicate Cheap(known: map<string, Id>, o: Order, cfg: Config, calls: seq<Call>, s: State, t: State)
    requires o.Acceptable()
  {
    && WellFormed(o.Name(), t)
    && Placed(known, o, cfg, s) && Placed(known, o, cfg, t)
    && ((exists x :: IsBalancerOf(known, o, s, x)) ==> exists x :: IsBalancerOf(known, o, t, x))
    && Progress.Mutations(calls) + Progress.Distance(cfg, t) <= Progress.Distance(cfg, s)
    && ((forall x :: !IsBalancerOf(known, o, t, x)) ==> Hanging(t) == Hanging(s) && Progress.Mutations(calls) == 0)
  }

  lemma SamePortTree(cfg: Config, s: State, t: State, p: Port)
    requires Hanging(t) == Hanging(s) && KeysUnique(s)
    ensures Progress.TreeAt(cfg, t, p) == Progress.TreeAt(cfg, s, p)
  {
    assert t.listeners == Hanging(t).listeners && s.listeners == Hanging(s).listeners;
    forall l ensures At(t, cfg.lb, p.key, l) <==> At(s, cfg.lb, p.key, l) {
    }
    if l :| At(s, cfg.lb, p.key, l) {
      Progress.ListenerAtIs(s, cfg.lb, p.key, l);
      Progress.ListenerAtIs(t, cfg.lb, p.key, l);
      SameTreeHanging(s, t, l);
    }
  }

  lemma SameTreeHanging(s: State, t: State, l: Id)
    requires Hanging(t) == Hanging(s)
    ensures TreeOf(t, l) == TreeOf(s, l)
  {
    TreeHangs(s, l);
    TreeHangs(t, l);
  }

  lemma TreeHangs(s: State, l: Id)
    ensures TreeOf(Hanging(s), l) == TreeOf(s, l)
  {
  }

  /** Load balancers and EIPs do not count for the distance. */
  lemma HangingKeepsDistance(cfg: Config, s: State, t: State)
    requires Hanging(t) == Hanging(s) && KeysUnique(s)
    ensures Progress.Distance(cfg, t) == Progress.Distance(cfg, s)
  {
    hide Hanging, TreeOf, Progress.PortDefects, Progress.OldDefects, Progress.TreeAt;
    assert t.listeners == s.listeners by { SameListeners(s, t); }
    forall p ensures Progress.TreeAt(cfg, t, p) == Progress.TreeAt(cfg, s, p) {
      SamePortTree(cfg, s, t, p);
    }
    forall l ensures TreeOf(t, l) == TreeOf(s, l) && (Progress.Surplus(cfg, t, l) <==> Progress.Surplus(cfg, s, l)) {
      SameTreeHanging(s, t, l);
    }
    assert Progress.Defects(cfg, t) == Progress.Defects(cfg, s);
  }

  lemma SameListeners(s: State, t: State)
    requires Hanging(t) == Hanging(s)
    ensures t.listeners == s.listeners
  {
    assert t.listeners == Hanging(t).listeners && s.listeners == Hanging(s).listeners;
  }

  lemma {:induction false} OpeningMutatesNothing(known: map<string, Id>, o: Order, calls: seq<Call>, s: State, t: State)
    requires o.Acceptable() && Opening(known, o, calls, s, t)
    ensures Progress.Mutations(calls) == 0
    decreases |calls|
  {
    if calls != [] {
      OpeningMutatesNothing(known, o, calls[..|calls| - 1], s, calls[|calls| - 1].pre);
    }
  }

  lemma CreatedIsOnly(known: map<string, Id>, o: Order, s: State, t: State, lb: Id)
    requires o.Acceptable() && !ById(o) && Created(known, o, s, t, lb) && forall x :: !IsBalancerOf(known, o, s, x)
    ensures forall x :: IsBalancerOf(known, o, t, x) <==> x == lb
  {
    assert forall x :: IsBalancerOf(known, o, t, x) && x != lb ==> IsBalancerOf(known, o, s, x);
  }

  lemma OpeningMeansAbsent(known: map<string, Id>, o: Order, calls: seq<Call>, s: State, t: State)
    requires o.Acceptable() && Opening(known, o, calls, s, t) && calls != []
    ensures !ById(o) && forall x :: !IsBalancerOf(known, o, s, x)
  {
    assert calls[0].op == CreationOf(known, o) && Creatable(known, o);
    forall x | IsBalancerOf(known, o, s, x) ensures false {
      OpeningIsEmpty(known, o, calls, s, t, x);
    }
  }

  function SomeConfig(o: Order): Config
    requires o.Acceptable()
  {
    ConfigFor(o, 0, Balancer("", "", []))
  }

  /** The configuration for the one load balancer of the order, if there is one. */
  lemma Placing(known: map<string, Id>, o: Order, s: State) returns (cfg: Config)
    requires o.Acceptable() && OneBalancer(known, o, s)
    ensures Placed(known, o, cfg, s)
  {
    hide IsBalancerOf;
    cfg := SomeConfig(o);
    if lb :| IsBalancerOf(known, o, s, lb) {
      assert lb in s.balancers by { BalancerIsThere(known, o, s, lb); }
      cfg := ConfigFor(o, lb, s.balancers[lb]);
    }
  }

  lemma BalancerIsThere(known: map<string, Id>, o: Order, s: State, lb: Id)
    requires o.Acceptable() && IsBalancerOf(known, o, s, lb)
    ensures lb in s.balancers
  {
  }

  lemma OpeningIsCheap(known: map<string, Id>, o: Order, calls: seq<Call>, s: State, t: State) returns (cfg: Config)
    requires o.Acceptable() && Opening(known, o, calls, s, t) && WellFormed(o.Name(), s) && OneBalancer(known, o, s)
    ensures Cheap(known, o, cfg, calls, s, t) && OneBalancer(known, o, t)
  {
    hide Opening, IsBalancerOf, Created, WellFormed, Hanging;
    OpeningMutatesNothing(known, o, calls, s, t);
    OpeningEmptyStays(known, o, calls, s, t);
    OpeningEffect(known, o, calls, s, t);
    if calls != [] {
      OpeningMeansAbsent(known, o, calls, s, t);
      if t != s {
        var lb :| Created(known, o, s, t, lb);
        CreatedIsOnly(known, o, s, t, lb);
        CreationKeepsWellFormed(known, o, s, t, lb, o.Name());
      }
    }
    cfg := Placing(known, o, t);
    if calls != [] { ErrandForOpening(known, o, calls, s, t); }
    WellFormedKeys(o.Name(), s);
    HangingKeepsDistance(cfg, s, t);
  }

  lemma WellFormedKeys(base: string, s: State)
    requires WellFormed(base, s)
    ensures KeysUnique(s)
  {
  }

  lemma ErrandForOpening(known: map<string, Id>, o: Order, calls: seq<Call>, s: State, t: State)
    requires o.Acceptable() && Opening(known, o, calls, s, t)
    ensures Hanging(t) == Hanging(s)
  {
    hide Opening, Orphans;
    ErrandHangs(known, o, calls, s, t);
  }

  lemma SameBalancers(known: map<string, Id>, o: Order, s: State, t: State)
    requires o.Acceptable() && t.balancers == s.balancers
    ensures forall x :: IsBalancerOf(known, o, t, x) <==> IsBalancerOf(known, o, s, x)
    ensures forall cfg :: Placed(known, o, cfg, t) <==> Placed(known, o, cfg, s)
  {
  }

  lemma SameBase(o: Order, cfg: Config, s: State)
    requires o.Acceptable() && cfg.lb in s.balancers && cfg == ConfigFor(o, cfg.lb, s.balancers[cfg.lb])
    ensures cfg.name == o.Name()
  {
  }

  lemma RunIsCheap(known: map<string, Id>, o: Order, cfg: Config, verb: Verb, s: State, calls: seq<Call>, t: State)
    requires o.Acceptable() && WellFormed(o.Name(), s) && Sound(cfg) && verb != Deleting
    requires LegalRun(cfg, verb, s, calls, t) && OneBalancer(known, o, s)
    requires IsBalancerOf(known, o, s, cfg.lb) && cfg == ConfigFor(o, cfg.lb, s.balancers[cfg.lb])
    ensures Cheap(known, o, cfg, calls, s, t) && OneBalancer(known, o, t)
  {
    hide WellFormed, Sound, Justified, Hanging, ConfigFor, IsBalancerOf, Progress.Distance, Progress.Defects;
    RunSparesBalancers(cfg, verb, s, calls, t);
    SameBalancers(known, o, s, t);
    assert Placed(known, o, cfg, s);
    BalancerIsThere(known, o, s, cfg.lb);
    SameBase(o, cfg, s);
    Progress.BoundedMutations(cfg, s, calls, t);
  }

  lemma CheapChain(known: map<string, Id>, o: Order, a: Config, b: Config, first: seq<Call>, second: seq<Call>,
                   s: State, t: State, u: State)
    requires o.Acceptable() && WellFormed(o.Name(), s)
    requires Cheap(known, o, a, first, s, t) && Cheap(known, o, b, second, t, u)
    ensures Cheap(known, o, b, first + second, s, u)
  {
    hide IsBalancerOf, Hanging, ConfigFor, WellFormed, Progress.Distance, Progress.Mutations;
    Progress.MutationsChain(first, second);
    WellFormedKeys(o.Name(), s);
    if forall x :: !IsBalancerOf(known, o, t, x) {
      HangingKeepsDistance(b, s, t);
    } else {
      var lb :| IsBalancerOf(known, o, t, lb);
      assert a == b;
    }
  }

  lemma NoCallsCheap(known: map<string, Id>, o: Order, cfg: Config, log: seq<Call>, s: State)
    requires o.Acceptable() && WellFormed(o.Name(), s) && Placed(known, o, cfg, s)
    ensures Cheap(known, o, cfg, log[|log|..], s, s)
  {
    assert log[|log|..] == [];
  }

  method EnsureOnce(c: Cloud, o: Order) returns (r: Reply, ghost cfg: Config)
    requires c.Valid() && Proper(o) && WellFormed(o.Name(), c.now) && o.Acceptable() && OneBalancer(c.known, o, c.now)
    modifies c
    ensures c.Valid() && WellFormed(o.Name(), c.now) && OneBalancer(c.known, o, c.now) && old(c.log) <= c.log
    ensures Cheap(c.known, o, cfg, c.log[|old(c.log)|..], old(c.now), c.now)
  {
    hide Converged, LegalRun, Proper, NoStale, Feasible, Creatable, Created, Orphans, NoDuplicates, WellFormed,
        Opening, Sound, Cheap, OneBalancer, IsBalancerOf, Supported;
    ghost var s, log0, how := c.now, c.log, Nowhere;
    var balancer;
    r, balancer, how := EnsureLoadBalancer(c, o);
    if Supported(o) {
      ghost var opening, mid := LogBefore(c, how)[|log0|..], StateBefore(c, how);
      cfg := OpeningIsCheap(c.known, o, opening, s, mid);
      if how.Running? {
        ghost var calls := c.log[|how.run.before|..];
        OpeningKeepsWellFormed(c.known, o, opening, s, mid);
        RunIsCheap(c.known, o, how.cfg, Ensuring, mid, calls, c.now);
        CheapChain(c.known, o, cfg, how.cfg, opening, calls, s, mid, c.now);
        LogSplit(log0, how.run.before, c.log);
        cfg := how.cfg;
      }
    } else {
      cfg := Placing(c.known, o, s);
      NoCallsCheap(c.known, o, cfg, log0, s);
    }
  }

  lemma OpeningKeepsWellFormed(known: map<string, Id>, o: Order, calls: seq<Call>, s: State, t: State)
    requires o.Acceptable() && Opening(known, o, calls, s, t) && WellFormed(o.Name(), s)
    ensures WellFormed(o.Name(), t)
  {
    hide Opening, Created, WellFormed;
    OpeningEffect(known, o, calls, s, t);
    if t != s {
      var lb :| Created(known, o, s, t, lb);
      CreationKeepsWellFormed(known, o, s, t, lb, o.Name());
    }
  }

  method UpdateOnce(c: Cloud, o: Order) returns (r: Reply, ghost cfg: Config)
    requires c.Valid() && Proper(o) && WellFormed(o.Name(), c.now) && o.Acceptable() && OneBalancer(c.known, o, c.now)
    modifies c
    ensures c.Valid() && WellFormed(o.Name(), c.now) && OneBalancer(c.known, o, c.now) && old(c.log) <= c.log
    ensures Cheap(c.known, o, cfg, c.log[|old(c.log)|..], old(c.now), c.now)
  {
    hide LegalRun, Proper, NoDuplicates, WellFormed, Sound, Cheap, OneBalancer, IsBalancerOf, Reachable,
        Rollover.Staffed;
    ghost var s, log0, how := c.now, c.log, Nowhere;
    r, how := UpdateLoadBalancer(c, o);
    if how.Running? {
      RunIsCheap(c.known, o, how.cfg, Updating, s, c.log[|log0|..], c.now);
      cfg := how.cfg;
    } else {
      cfg := Placing(c.known, o, s);
      NoCallsCheap(c.known, o, cfg, log0, s);
    }
  }

  /** For a fixed Service and node set, any number of reconciliations and node updates, failed, repeated or complete,
      together change listeners, pools, members and monitors at most as often as the cloud has come closer to the wanted
      state, even if the load balancer is created on the way: every further such request leaves less to do. */
  method Persist(c: Cloud, o: Order, updates: seq<bool>) returns (ghost cfg: Config)
    requires c.Valid() && Proper(o) && WellFormed(o.Name(), c.now) && o.Acceptable() && OneBalancer(c.known, o, c.now)
    modifies c
    ensures old(c.log) <= c.log && Placed(c.known, o, cfg, old(c.now)) && Placed(c.known, o, cfg, c.now)
    ensures Progress.Mutations(c.log[|old(c.log)|..]) + Progress.Distance(cfg, c.now)
            <= Progress.Distance(cfg, old(c.now))
  {
    hide Proper, WellFormed, Cheap, OneBalancer, Placed, Progress.Mutations, Progress.Distance;
    ghost var s, log0 := c.now, c.log;
    cfg := Placing(c.known, o, s);
    NoCallsCheap(c.known, o, cfg, log0, s);
    for i := 0 to |updates|
      invariant c.Valid() && WellFormed(o.Name(), c.now) && OneBalancer(c.known, o, c.now) && log0 <= c.log
      invariant Cheap(c.known, o, cfg, c.log[|log0|..], s, c.now)
    {
      ghost var t, log1, next := c.now, c.log, cfg;
      var r;
      if updates[i] {
        r, next := UpdateOnce(c, o);
      } else {
        r, next := EnsureOnce(c, o);
      }
      CheapChain(c.known, o, cfg, next, log1[|log0|..], c.log[|log1|..], s, t, c.now);
      LogSplit(log0, log1, c.log);
      cfg := next;
    }
    CheapFacts(c.known, o, cfg, c.log[|log0|..], s, c.now);
  }

  lemma CheapFacts(known: map<string, Id>, o: Order, cfg: Config, calls: seq<Call>, s: State, t: State)
    requires o.Acceptable() && Cheap(known, o, cfg, calls, s, t)
    ensures Placed(known, o, cfg, s) && Placed(known, o, cfg, t)
    ensures Progress.Mutations(calls) + Progress.Distance(cfg, t) <= Progress.Distance(cfg, s)
  {
  }
}

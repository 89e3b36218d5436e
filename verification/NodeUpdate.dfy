/** The fast path after a node change: only the members of the existing pools are brought up to date. */
module NodeUpdate {
  import opened Basics
  import opened CloudState
  import opened Service
  import opened Plan
  import opened Steps
  import opened Backend
  import opened Calls
  import opened Members
  import opened Reconcile
  import opened Rollover
  import opened Lifecycle
  import opened Meaning
  import Annotations
  import Teardown

  ghost predicate Updatable(c: Cloud, cfg: Config, run: Run)
    reads c
  {
    Ongoing(c, cfg, run) && run.verb == Updating
  }

  lemma OnlyMembersSoFar(c: Cloud, cfg: Config, run: Run)
    requires Updatable(c, cfg, run)
    ensures c.now == run.start.(members := c.now.members) && c.now.members.Keys == run.start.members.Keys
  {
    hide WellFormed, Sound;
    UpdateChangesMembersOnly(cfg, run.start, c.log[|run.before|..], c.now);
  }

  /** Port `p` has a listener with a pool, a node port, and nodes with an address. */
  ghost predicate Reachable(cfg: Config, s: State, p: Port) {
    (exists l, q :: Serves(cfg, s, p, l, q)) && p.nodePort != 0 && WantedKeys(cfg, p) != {}
  }

  lemma ReachableIsMeant(cfg: Config, s: State, p: Port)
    requires s.members.Keys == s.pools.Keys
    ensures p in cfg.Ports() ==> (Reachable(cfg, s, p) <==> ReachableMeant(cfg, s, p))
  {
    hide Usable, WantedKeys;
    UsableIsWanted(cfg, p);
    if p in cfg.Ports() && ReachableMeant(cfg, s, p) {
      var l :| l in s.listeners && s.listeners[l].lb == cfg.lb && s.listeners[l].key == p.key
               && s.listeners[l].pool.Some? && s.listeners[l].pool.value in s.pools;
      assert Serves(cfg, s, p, l, s.listeners[l].pool.value);
    }
  }

  lemma AllReachable(cfg: Config, s: State)
    requires References(s)
    ensures (forall p :: p in cfg.Ports() ==> Reachable(cfg, s, p)) <==>
            forall p :: p in cfg.service.ports ==> ReachableMeant(cfg, s, p)
  {
    hide Reachable, ReachableMeant;
    forall p: Port ensures p in cfg.Ports() ==> (Reachable(cfg, s, p) <==> ReachableMeant(cfg, s, p)) {
      ReachableIsMeant(cfg, s, p);
    }
  }

  /** The pools of the first `n` ports have exactly the wanted keys. */
  ghost predicate StaffedFirst(cfg: Config, s: State, n: nat) {
    && n <= |cfg.Ports()|
    && forall j, l, q :: 0 <= j < n && Serves(cfg, s, cfg.Ports()[j], l, q) ==>
        KeysOf(s.members[q]) == WantedKeys(cfg, cfg.Ports()[j])
  }

  /** Each served port has one pool, and no two ports share one. */
  lemma PortsAndPools(cfg: Config, s: State, p: Port, l: Id, q: Id, r: Port, k: Id, x: Id)
    requires Sound(cfg) && PoolRefs(s) && KeysUnique(s) && Serves(cfg, s, p, l, q) && Serves(cfg, s, r, k, x)
    ensures p == r <==> q == x
  {
  }

  lemma StaffedNext(cfg: Config, s: State, t: State, n: nat, l: Id, q: Id)
    requires Sound(cfg) && PoolRefs(s) && KeysUnique(s) && StaffedFirst(cfg, s, n) && n < |cfg.Ports()|
    requires Serves(cfg, s, cfg.Ports()[n], l, q) && OnlyMembers(s, t, l, q)
    requires KeysOf(t.members[q]) == WantedKeys(cfg, cfg.Ports()[n])
    ensures StaffedFirst(cfg, t, n + 1)
  {
    forall j, k, x | 0 <= j < n + 1 && Serves(cfg, t, cfg.Ports()[j], k, x)
      ensures KeysOf(t.members[x]) == WantedKeys(cfg, cfg.Ports()[j])
    {
      assert Serves(cfg, s, cfg.Ports()[j], k, x);
      PortsAndPools(cfg, s, cfg.Ports()[n], l, q, cfg.Ports()[j], k, x);
    }
  }

  /** One round of the loop: the port's pool gets the members of the new nodes. */
  method UpdatePort(c: Cloud, cfg: Config, ghost run: Run, port: Port, byKey: map<Key, Item>)
    returns (r: Reply, ghost l: Id, ghost q: Id)
    requires Updatable(c, cfg, run) && port in cfg.Ports() && IndexesListeners(byKey, run.start, cfg.lb)
    requires Quiet(c, run)
    modifies c
    ensures Updatable(c, cfg, run) && c.faults >= old(c.faults)
    ensures r == Ok ==> Quiet(c, run)
    ensures r == Ok ==> Serves(cfg, old(c.now), port, l, q) && OnlyMembers(old(c.now), c.now, l, q)
    ensures r == Ok ==> Reachable(cfg, run.start, port)
    ensures r == Ok && NoDuplicates(run.start) ==> KeysOf(c.now.members[q]) == WantedKeys(cfg, port)
    ensures c.faults == old(c.faults) && Reachable(cfg, run.start, port) ==> r == Ok
  {
    hide LegalRun, WellFormed, Synced, OnlyMembers, Sound, Quiet;
    l, q := 0, 0;
    OnlyMembersSoFar(c, cfg, run);
    ghost var s := c.now;
    if Reachable(cfg, run.start, port) { ServedIsFound(c, cfg, run, port, byKey); }
    if port.key !in byKey {
      return Other, l, q;
    }
    l := byKey[port.key].id;
    var id, pool;
    r, id, pool := Teardown.FindPoolForListener(c, cfg, run, byKey[port.key].id);
    if r != Ok {
      return;
    }
    if pool.None? {
      return Other, l, q;
    }
    PoolIsServing(c, cfg, run, port, l, id.value);
    q := id.value;
    ghost var added, gone;
    if NoDuplicates(run.start) { UniqueSoFar(c, cfg, run); }
    r, added, gone := ReconcileMembers(c, cfg, run, port, l, id.value);
    if r == Ok {
      if NoDuplicates(run.start) { SyncedIsExact(s.members[q], WantedKeys(cfg, port), added, gone, c.now.members[q]); }
      assert Serves(cfg, run.start, port, l, q);
    }
  }

  lemma UniqueSoFar(c: Cloud, cfg: Config, run: Run)
    requires Updatable(c, cfg, run) && NoDuplicates(run.start)
    ensures NoDuplicates(c.now)
  {
    RunKeepsUnique(cfg, run.verb, run.start, c.log[|run.before|..], c.now);
  }

  lemma PoolIsServing(c: Cloud, cfg: Config, run: Run, port: Port, l: Id, q: Id)
    requires Updatable(c, cfg, run) && port in cfg.Ports() && At(c.now, cfg.lb, port.key, l)
    requires c.now.listeners[l].pool == Some(q) && q in c.now.pools
    ensures Serves(cfg, c.now, port, l, q)
  {
  }

  /** A served port is found by its key, together with its pool. */
  lemma ServedIsFound(c: Cloud, cfg: Config, run: Run, port: Port, byKey: map<Key, Item>)
    requires Updatable(c, cfg, run) && IndexesListeners(byKey, run.start, cfg.lb) && Reachable(cfg, run.start, port)
    requires c.now == run.start.(members := c.now.members)
    ensures port.key in byKey && byKey[port.key].id in c.now.listeners
    ensures Get(c.now.pools, c.now.listeners[byKey[port.key].id].pool).Some?
  {
  }

  lemma StaffedStep(c: Cloud, cfg: Config, run: Run, s: State, n: nat, l: Id, q: Id)
    requires Updatable(c, cfg, run) && WellFormed(cfg.name, s) && StaffedFirst(cfg, s, n) && n < |cfg.Ports()|
    requires Serves(cfg, s, cfg.Ports()[n], l, q) && OnlyMembers(s, c.now, l, q)
    requires KeysOf(c.now.members[q]) == WantedKeys(cfg, cfg.Ports()[n])
    ensures StaffedFirst(cfg, c.now, n + 1)
  {
    hide LegalRun, GroupsTidy, ProbesPlain, KeysUnique, PoolRefs, StaffedFirst, Sound;
    StaffedNext(cfg, s, c.now, n, l, q);
  }

  /** Every port in order; a port without listener or pool is an error. */
  method UpdatePorts(c: Cloud, cfg: Config, ghost run: Run, byKey: map<Key, Item>) returns (r: Reply)
    requires Updatable(c, cfg, run) && c.now == run.start && IndexesListeners(byKey, run.start, cfg.lb)
    requires Quiet(c, run)
    modifies c
    ensures Updatable(c, cfg, run) && c.faults >= old(c.faults)
    ensures r == Ok ==> Quiet(c, run)
    ensures r == Ok && NoDuplicates(run.start) ==> Staffed(cfg, c.now)
    ensures r == Ok ==> forall p :: p in cfg.Ports() ==> Reachable(cfg, run.start, p)
    ensures c.faults == old(c.faults) && (forall p :: p in cfg.Ports() ==> Reachable(cfg, run.start, p)) ==> r == Ok
  {
    hide LegalRun, Sound, Reachable, OnlyMembers, StaffedFirst, NoDuplicates, Staffed, References, KeysUnique,
        GroupsTidy, ProbesPlain, Quiet;
    r := Ok;
    NobodyYet(cfg, c.now);
    for i := 0 to |cfg.Ports()|
      invariant r == Ok && Updatable(c, cfg, run) && c.faults >= old(c.faults)
      invariant Quiet(c, run)
      invariant NoDuplicates(run.start) ==> StaffedFirst(cfg, c.now, i)
      invariant forall p :: p in cfg.Ports()[..i] ==> Reachable(cfg, run.start, p)
    {
      ghost var s, l, q := c.now, 0, 0;
      r, l, q := UpdatePort(c, cfg, run, cfg.Ports()[i], byKey);
      if r != Ok {
        return;
      }
      if NoDuplicates(run.start) { StaffedStep(c, cfg, run, s, i, l, q); }
    }
    EverybodyStaffed(cfg, c.now);
  }

  lemma NobodyYet(cfg: Config, s: State)
    ensures StaffedFirst(cfg, s, 0)
  {
  }

  lemma EverybodyStaffed(cfg: Config, s: State)
    ensures StaffedFirst(cfg, s, |cfg.Ports()|) ==> Staffed(cfg, s)
  {
  }

  /** The pool of the port's listener has exactly the members that the nodes give rise to. */
  ghost predicate StaffedAsAsked(cfg: Config, s: State, p: Port) {
    exists l, q ::
      && l in s.listeners && s.listeners[l].lb == cfg.lb && s.listeners[l].key == p.key
      && s.listeners[l].pool == Some(q) && q in s.members && MembersMeant(cfg.nodes, p.nodePort, s.members[q])
  }

  lemma StaffedIsAsAsked(cfg: Config, start: State, s: State)
    requires Staffed(cfg, s) && s == start.(members := s.members) && s.members.Keys == start.members.Keys
    requires forall p :: p in cfg.Ports() ==> Reachable(cfg, start, p)
    ensures forall p :: p in cfg.Ports() ==> StaffedAsAsked(cfg, s, p)
  {
    hide KeysOf, WantedKeys, MembersMeant;
    forall p | p in cfg.Ports() ensures StaffedAsAsked(cfg, s, p) {
      assert Reachable(cfg, start, p);
      var l, q :| Serves(cfg, start, p, l, q);
      assert Serves(cfg, s, p, l, q);
      MembersAreMeant(cfg, p, s.members[q]);
    }
  }

  /** The members of every port's pool follow the new nodes; nothing else in the cloud changes, whatever fails. */
  method UpdateLoadBalancer(c: Cloud, o: Order) returns (r: Reply, ghost how: Extent)
    requires c.Valid() && Proper(o) && WellFormed(o.Name(), c.now)
    modifies c
    ensures c.Valid() && c.faults >= old(c.faults) && WellFormed(o.Name(), c.now)
    ensures how.Nowhere? ==> r != Ok && c.now == old(c.now) && c.log == old(c.log)
    ensures how.Running? ==>
              && o.Acceptable() && Updatable(c, how.cfg, how.run)
              && how.run.start == old(c.now) && how.run.before == old(c.log)
              && IsBalancerOf(c.known, o, old(c.now), how.cfg.lb)
              && how.cfg == ConfigFor(o, how.cfg.lb, old(c.now).balancers[how.cfg.lb])
              && Tailored(c.known, how.cfg, o, old(c.now))
    ensures c.now == old(c.now).(members := c.now.members)
    ensures r == Ok ==> Quiet(c, how.run) && forall p :: p in o.spec.ports ==> Reachable(how.cfg, old(c.now), p)
    ensures r == Ok ==> forall p :: p in o.spec.ports ==> ReachableMeant(how.cfg, old(c.now), p)
    ensures c.faults == old(c.faults) && how.Running? ==>
              (forall p :: p in o.spec.ports ==> ReachableMeant(how.cfg, old(c.now), p)) ==> r == Ok
    ensures r == Ok && NoDuplicates(old(c.now)) ==> Staffed(how.cfg, c.now)
    ensures r == Ok && NoDuplicates(old(c.now)) ==> forall p :: p in o.spec.ports ==> StaffedAsAsked(how.cfg, c.now, p)
    ensures c.faults == old(c.faults) && how.Running? ==>
              (forall p :: p in o.spec.ports ==> Reachable(how.cfg, old(c.now), p)) ==> r == Ok
    ensures c.faults == old(c.faults) ==>
            (how.Running? <==> o.Acceptable() && exists lb :: IsBalancerOf(c.known, o, old(c.now), lb))
  {
    hide LegalRun, Sound, Reachable, NoDuplicates, Staffed, References, KeysUnique, GroupsTidy, ProbesPlain, Proper,
        StaffedAsAsked, ReachableMeant, Quiet, QuietLog, Tailored;
    how := Nowhere;
    var settings := Annotations.SettingsForService(o.defaults, o.spec.annotations);
    if settings.None? {
      return Other, how;
    }
    var found;
    r, found := FindLoadBalancer(c, o);
    if r != Ok {
      return;
    }
    if found.None? {
      return Other, how;
    }
    var cfg := ConfigFor(o, found.value, c.balancers[found.value]);
    ghost var run := Run(Updating, c.now, c.log);
    RunStarts(c, o, cfg, run);
    how := Running(cfg, run);
    AllReachable(cfg, c.now);
    ConfigIsTailored(c.known, o, cfg, c.now);
    NewRunIsQuiet(c, run);
    var items;
    r, items := c.ListListeners(cfg.lb);
    if r != Ok {
      return;
    }
    var byKey := ListenersByKey(items, c.now, cfg.lb);
    r := UpdatePorts(c, cfg, run, byKey);
    OnlyMembersSoFar(c, cfg, run);
    if r == Ok && NoDuplicates(run.start) { StaffedIsAsAsked(cfg, run.start, c.now); }
  }

  /** After a settled reconciliation nothing but a missing node port or node set can stop a node update. */
  lemma SettledPortIsServed(cfg: Config, nodes: seq<Node>, s: State, p: Port)
    requires WellFormed(cfg.name, s) && Converged(cfg, s) && p in cfg.Ports()
    requires p.nodePort != 0 && WantedKeys(cfg.(nodes := nodes), p) != {}
    ensures Reachable(cfg.(nodes := nodes), s, p)
  {
    hide KeysUnique, GroupsTidy, ProbesPlain, AccessSettled, MonitorSettled, PoolTuned;
    assert PortSettled(cfg, s, p);
    var l :| At(s, cfg.lb, p.key, l) && Settled(cfg, p, TreeOf(s, l).value);
    assert Serves(cfg.(nodes := nodes), s, p, l, s.listeners[l].pool.value);
  }
}

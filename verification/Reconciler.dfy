/** Driving listeners, IP groups, pools, members and monitors of one Service to the wanted state. */
module Reconciler {
  import opened Basics
  import opened CloudState
  import opened Service
  import opened Plan
  import opened Steps
  import opened Backend
  import opened Calls
  import opened IpGroups
  import opened Pools
  import opened Members
  import opened Meaning
  import opened Monitors

  /** Between `s` and `t` at most listener `l` was created or its idle timeout set. */
  ghost predicate OnlyListener(s: State, t: State, l: Id) {
    && t == s.(listeners := t.listeners) && Frame(s, t, l)
    && t.listeners.Keys - {l} == s.listeners.Keys - {l}
    && (l in s.listeners ==> l in t.listeners && t.listeners[l] == s.listeners[l].(idle := t.listeners[l].idle))
  }

  predicate Unattached(listener: Listener) { listener.pool.None? && listener.group.None? && listener.enabled.None? }

  /** The snapshot the reconciler took of the listener on a port's key, if there was one. */
  predicate Current(cfg: Config, s: State, p: Port, byKey: map<Key, Item>) {
    if p.key in byKey then
      && At(s, cfg.lb, p.key, byKey[p.key].id)
      && byKey[p.key].listener == s.listeners[byKey[p.key].id]
    else NoneAt(s, cfg.lb, p.key)
  }

  /** A listener in service of port `p`, whose snapshot is current except perhaps for the idle timeout. */
  predicate Serving(cfg: Config, s: State, p: Port, l: Id, listener: Listener) {
    && At(s, cfg.lb, p.key, l)
    && listener.pool == s.listeners[l].pool && listener.group == s.listeners[l].group
    && listener.enabled == s.listeners[l].enabled
    && (cfg.settings.idle > 0 ==> s.listeners[l].idle == cfg.settings.idle)
  }

  ghost predicate PortReady(c: Cloud, cfg: Config, run: Run, port: Port)
    reads c
  {
    Ongoing(c, cfg, run) && run.verb == Ensuring && port in cfg.Ports()
  }

  method CreateListenerFor(c: Cloud, cfg: Config, ghost run: Run, port: Port)
    returns (r: Reply, l: Id, listener: Listener)
    requires PortReady(c, cfg, run, port) && NoneAt(c.now, cfg.lb, port.key)
    requires Quiet(c, run)
    modifies c
    ensures PortReady(c, cfg, run, port) && c.faults >= old(c.faults)
    ensures r == Ok ==> Quiet(c, run)
    ensures OnlyListener(old(c.now), c.now, l)
    ensures l !in old(c.now).listeners
    ensures l in c.now.listeners ==> At(c.now, cfg.lb, port.key, l)
    ensures r == Ok ==> Serving(cfg, c.now, port, l, listener) && Unattached(c.now.listeners[l])
    ensures Orphans(cfg.name, c.now) <= Orphans(cfg.name, old(c.now))
    ensures c.faults == old(c.faults) ==> r == Ok
  {
    hide Quiet;
    var name := ResourceName(cfg.name, port.key);
    r, l := Mutate(c, cfg, run, cfg.lb, ForPort(port, 0), CreateListener(cfg.lb, name, port.key, cfg.settings.idle));
    listener := Listener(cfg.lb, name, port.key, cfg.settings.idle, None, None, None, "");
  }

  method SetIdleTimeout(c: Cloud, cfg: Config, ghost run: Run, ghost port: Port, l: Id, ghost listener: Listener)
    returns (r: Reply)
    requires PortReady(c, cfg, run, port) && At(c.now, cfg.lb, port.key, l) && listener == c.now.listeners[l]
    requires cfg.settings.idle > 0
    requires Quiet(c, run)
    modifies c
    ensures PortReady(c, cfg, run, port) && c.faults >= old(c.faults)
    ensures r == Ok ==> Quiet(c, run)
    ensures OnlyListener(old(c.now), c.now, l)
    ensures r == Ok ==> Serving(cfg, c.now, port, l, listener)
    ensures Orphans(cfg.name, c.now) <= Orphans(cfg.name, old(c.now))
    ensures c.faults == old(c.faults) ==> r == Ok
  {
    hide Quiet, LegalRun, GroupsTidy, KeysUnique, ProbesPlain, PoolRefs, MonitorRefs, Retried;
    var id;
    r, id := Mutate(c, cfg, run, cfg.lb, ForPort(port, l), SetIdle(l, cfg.settings.idle));
  }

  /** The listener on the port's key, created if there is none; an existing one gets the idle timeout. */
  method ListenerFor(c: Cloud, cfg: Config, ghost run: Run, port: Port, byKey: map<Key, Item>)
    returns (r: Reply, l: Id, listener: Listener)
    requires PortReady(c, cfg, run, port) && Current(cfg, c.now, port, byKey)
    requires Quiet(c, run)
    modifies c
    ensures PortReady(c, cfg, run, port) && c.faults >= old(c.faults)
    ensures r == Ok ==> Quiet(c, run)
    ensures OnlyListener(old(c.now), c.now, l)
    ensures if port.key in byKey then l == byKey[port.key].id else l !in old(c.now).listeners
    ensures l in c.now.listeners ==> At(c.now, cfg.lb, port.key, l)
    ensures r == Ok ==> Serving(cfg, c.now, port, l, listener)
    ensures r == Ok && port.key !in byKey ==> Unattached(c.now.listeners[l])
    ensures Orphans(cfg.name, c.now) <= Orphans(cfg.name, old(c.now))
    ensures c.faults == old(c.faults) ==> r == Ok
  {
    hide Quiet;
    if port.key !in byKey {
      r, l, listener := CreateListenerFor(c, cfg, run, port);
      return;
    }
    l, listener := byKey[port.key].id, byKey[port.key].listener;
    r := Ok;
    if cfg.settings.idle > 0 {
      r := SetIdleTimeout(c, cfg, run, port, l, listener);
    }
  }

  // ----- one port -----

  /** Nothing but the state itself stands in the way of bringing port `p` in order. */
  ghost predicate Feasible(cfg: Config, s: State, p: Port) {
    && p.nodePort != 0 && WantedKeys(cfg, p) != {}
    && forall l :: At(s, cfg.lb, p.key, l) ==> NoForeignGroup(cfg, s, p, l)
  }

  lemma FeasibleIsMeant(cfg: Config, s: State, p: Port)
    ensures Feasible(cfg, s, p) <==> FeasibleMeant(cfg, s, p)
  {
    hide Usable, WantedKeys, ResourceName, NameMeant;
    UsableIsWanted(cfg, p);
    forall name ensures NameMeant(cfg.name, p.key, name) <==> name == ResourceName(cfg.name, p.key) {
      ResourceNameIsMeant(cfg.name, p.key, name);
    }
    if Feasible(cfg, s, p) {
      assert forall l :: l in s.listeners && s.listeners[l].lb == cfg.lb && s.listeners[l].key == p.key ==>
               NoForeignGroup(cfg, s, p, l) by {
        assert forall l :: l in s.listeners && s.listeners[l].lb == cfg.lb && s.listeners[l].key == p.key ==>
                 At(s, cfg.lb, p.key, l);
      }
    }
  }

  /** Between `s` and `t` only the tree of `l` changed, and `l` kept its place. */
  ghost predicate Local(s: State, t: State, l: Id) {
    && Frame(s, t, l) && t.listeners.Keys - {l} == s.listeners.Keys - {l}
    && (l in s.listeners ==> l in t.listeners && t.listeners[l].lb == s.listeners[l].lb
                             && t.listeners[l].key == s.listeners[l].key && t.listeners[l].name == s.listeners[l].name)
  }

  lemma LocalChain(s: State, t: State, u: State, l: Id)
    requires Local(s, t, l) && Local(t, u, l)
    ensures Local(s, u, l)
  {
  }

  lemma LocalSteps(s: State, t: State, l: Id, q: Id)
    ensures OnlyListener(s, t, l) ==> Local(s, t, l)
    ensures OnlyAccess(s, t, l) ==> Local(s, t, l)
    ensures OnlyPool(s, t, l) ==> Local(s, t, l)
    ensures OnlyMembers(s, t, l, q) && HasPool(s, l, q) ==> Local(s, t, l)
    ensures OnlyMonitor(s, t, l, q) && HasPool(s, l, q) ==> Local(s, t, l)
  {
    assert OnlyAccess(s, t, l) ==> t.listeners.Keys - {l} == s.listeners.Keys - {l} by {
      if OnlyAccess(s, t, l) {
        forall k | k != l ensures k in t.listeners <==> k in s.listeners {
          assert TreeOf(t, k) == TreeOf(s, k);
        }
      }
    }
  }

  /** What the pool step establishes, and the later steps keep. */
  ghost predicate Pooled(cfg: Config, s: State, p: Port, l: Id, q: Id) {
    && At(s, cfg.lb, p.key, l) && HasPool(s, l, q) && PoolTuned(cfg, s.pools[q])
    && AccessSettled(cfg, p, TreeOf(s, l).value)
    && (cfg.settings.idle > 0 ==> s.listeners[l].idle == cfg.settings.idle)
  }

  lemma PoolStep(cfg: Config, s: State, t: State, p: Port, l: Id, q: Id)
    requires At(s, cfg.lb, p.key, l) && AccessSettled(cfg, p, TreeOf(s, l).value)
    requires cfg.settings.idle > 0 ==> s.listeners[l].idle == cfg.settings.idle
    requires OnlyPool(s, t, l) && PoolKept(s, t, l, q) && PoolTuned(cfg, t.pools[q])
    ensures Pooled(cfg, t, p, l, q)
  {
  }

  lemma MemberStep(cfg: Config, s: State, t: State, p: Port, l: Id, q: Id)
    requires Pooled(cfg, s, p, l, q) && OnlyMembers(s, t, l, q)
    ensures Pooled(cfg, t, p, l, q) && t.pools == s.pools
  {
  }

  lemma MonitorStep(cfg: Config, s: State, t: State, p: Port, l: Id, q: Id)
    requires Pooled(cfg, s, p, l, q) && OnlyMonitor(s, t, l, q)
    requires KeysOf(s.members[q]) == WantedKeys(cfg, p) && MonitorSettled(cfg, p, TreeOf(t, l).value.monitor)
    ensures Settled(cfg, p, TreeOf(t, l).value)
  {
  }

  lemma MembersUnique(c: Cloud, cfg: Config, run: Run)
    requires Ongoing(c, cfg, run) && NoDuplicates(run.start)
    ensures NoDuplicates(c.now)
  {
    RunKeepsUnique(cfg, run.verb, run.start, c.log[|run.before|..], c.now);
  }

  /** The members of the port's pool, and then its monitor. */
  method PortBackends(c: Cloud, cfg: Config, ghost run: Run, port: Port, ghost l: Id, q: Id, pool: Pool)
    returns (r: Reply)
    requires PortReady(c, cfg, run, port) && Pooled(cfg, c.now, port, l, q) && pool == c.now.pools[q]
    requires Quiet(c, run)
    modifies c
    ensures PortReady(c, cfg, run, port) && c.faults >= old(c.faults)
    ensures r == Ok ==> Quiet(c, run)
    ensures Local(old(c.now), c.now, l)
    ensures r == Ok && NoDuplicates(run.start) ==> l in c.now.listeners && Settled(cfg, port, TreeOf(c.now, l).value)
    ensures r == Ok ==> At(c.now, cfg.lb, port.key, l) && port.nodePort != 0 && WantedKeys(cfg, port) != {}
    ensures Orphans(cfg.name, c.now) <= Orphans(cfg.name, old(c.now))
    ensures c.faults == old(c.faults) && port.nodePort != 0 && WantedKeys(cfg, port) != {} ==> r == Ok
  {
    hide Ongoing, Frame, Synced, Settled, AccessSettled, PoolTuned, Quiet;
    ghost var s, added, gone := c.now, map[], {};
    ghost var unique := NoDuplicates(run.start);
    if unique { MembersUnique(c, cfg, run); }
    r, added, gone := ReconcileMembers(c, cfg, run, port, l, q);
    ghost var t := c.now;
    LocalSteps(s, t, l, q);
    if r != Ok {
      return;
    }
    MemberStep(cfg, s, t, port, l, q);
    if unique { SyncedIsExact(s.members[q], WantedKeys(cfg, port), added, gone, t.members[q]); }
    r := ReconcileMonitor(c, cfg, run, port, l, q, pool);
    LocalSteps(t, c.now, l, q);
    LocalChain(s, t, c.now, l);
    if unique && r == Ok { MonitorStep(cfg, t, c.now, port, l, q); }
  }

  /** Access first, then the pool: no pool is created before the source ranges are in force. */
  method PortAccessAndPool(c: Cloud, cfg: Config, ghost run: Run, port: Port, l: Id, listener: Listener)
    returns (r: Reply, q: Id, pool: Option<Pool>, ghost leak: set<Id>)
    requires PortReady(c, cfg, run, port) && Serving(cfg, c.now, port, l, listener)
    requires Quiet(c, run)
    modifies c
    ensures PortReady(c, cfg, run, port) && c.faults >= old(c.faults)
    ensures r == Ok ==> Quiet(c, run)
    ensures Local(old(c.now), c.now, l)
    ensures r == Ok ==> pool.Some? && Pooled(cfg, c.now, port, l, q) && pool.value == c.now.pools[q]
    ensures r == Ok ==> NoForeignGroup(cfg, old(c.now), port, l)
    ensures r == Ok || c.faults == old(c.faults) ==> leak == {}
    ensures Orphans(cfg.name, c.now) <= Orphans(cfg.name, old(c.now)) + leak && |leak| <= 1
    ensures c.faults == old(c.faults) && NoForeignGroup(cfg, old(c.now), port, l) ==> r == Ok
  {
    hide Ongoing, Frame, AccessSettled, NoForeignGroup, Quiet;
    q, pool := 0, None;
    ghost var s := c.now;
    ServingIsReady(c, cfg, run, port, l, listener);
    r, leak := ReconcileIPGroup(c, cfg, run, port, l, listener);
    ghost var t := c.now;
    LocalSteps(s, t, l, q);
    if r != Ok {
      return;
    }
    AccessStep(cfg, s, t, port, l, listener);
    r, q, pool := EnsurePool(c, cfg, run, port, l, listener);
    LocalSteps(t, c.now, l, q);
    LocalChain(s, t, c.now, l);
    if r == Ok { PoolStep(cfg, t, c.now, port, l, q); }
  }

  lemma ServingIsReady(c: Cloud, cfg: Config, run: Run, port: Port, l: Id, listener: Listener)
    requires PortReady(c, cfg, run, port) && Serving(cfg, c.now, port, l, listener)
    ensures AccessReady(c, cfg, run, port, l, listener)
  {
  }

  lemma AccessStep(cfg: Config, s: State, t: State, p: Port, l: Id, listener: Listener)
    requires Serving(cfg, s, p, l, listener) && OnlyAccess(s, t, l)
    ensures At(t, cfg.lb, p.key, l) && listener.pool == t.listeners[l].pool
    ensures cfg.settings.idle > 0 ==> t.listeners[l].idle == cfg.settings.idle
  {
  }

  lemma ListenerStep(cfg: Config, s: State, t: State, p: Port, l: Id, byKey: map<Key, Item>)
    requires OnlyListener(s, t, l) && Current(cfg, s, p, byKey) && KeysUnique(s)
    requires if p.key in byKey then l == byKey[p.key].id
             else l !in s.listeners && l in t.listeners && Unattached(t.listeners[l])
    ensures NoForeignGroup(cfg, t, p, l) <==> forall k :: At(s, cfg.lb, p.key, k) ==> NoForeignGroup(cfg, s, p, k)
  {
  }

  /** One round of the loop over the Service's ports. */
  method ReconcilePort(c: Cloud, cfg: Config, ghost run: Run, port: Port, byKey: map<Key, Item>)
    returns (r: Reply, ghost l: Id, ghost leak: set<Id>)
    requires PortReady(c, cfg, run, port) && Current(cfg, c.now, port, byKey)
    requires Quiet(c, run)
    modifies c
    ensures PortReady(c, cfg, run, port) && c.faults >= old(c.faults)
    ensures r == Ok ==> Quiet(c, run)
    ensures Local(old(c.now), c.now, l)
    ensures if port.key in byKey then l == byKey[port.key].id else l !in old(c.now).listeners
    ensures r == Ok ==> At(c.now, cfg.lb, port.key, l) && Feasible(cfg, old(c.now), port)
    ensures r == Ok || c.faults == old(c.faults) ==> leak == {}
    ensures r == Ok && NoDuplicates(run.start) ==> Settled(cfg, port, TreeOf(c.now, l).value)
    ensures Orphans(cfg.name, c.now) <= Orphans(cfg.name, old(c.now)) + leak && |leak| <= 1
    ensures c.faults == old(c.faults) && Feasible(cfg, old(c.now), port) ==> r == Ok
  {
    hide Frame, NoForeignGroup, Settled, LegalRun, References, ProbesPlain, GroupsTidy, Quiet;
    leak := {};
    ghost var s := c.now;
    var id, listener;
    r, id, listener := ListenerFor(c, cfg, run, port, byKey);
    l := id;
    ghost var t := c.now;
    LocalSteps(s, t, l, 0);
    if r != Ok {
      return;
    }
    ListenerStep(cfg, s, t, port, l, byKey);
    var q, pool;
    r, q, pool, leak := PortAccessAndPool(c, cfg, run, port, id, listener);
    ghost var u := c.now;
    LocalChain(s, t, u, l);
    if r != Ok {
      return;
    }
    r := PortBackends(c, cfg, run, port, l, q, pool.value);
    LocalChain(s, u, c.now, l);
  }
}

/** The default pool of a listener: created, or its algorithm and persistence brought up to date. */
module Pools {
  import opened Basics
  import opened CloudState
  import opened Service
  import opened Plan
  import opened Backend
  import opened Calls
  import opened Meaning

  /** Between `s` and `t` only the pool of listener `l` was created or tuned. */
  ghost predicate OnlyPool(s: State, t: State, l: Id) {
    && t.balancers == s.balancers && t.eips == s.eips && t.groups == s.groups && t.monitors == s.monitors
    && l in s.listeners && l in t.listeners && t.listeners[l] == s.listeners[l].(pool := t.listeners[l].pool)
    && t.listeners == s.listeners[l := t.listeners[l]]
    && Frame(s, t, l)
  }

  /** A new pool has no monitor and no members; an old one keeps both. */
  ghost predicate PoolKept(s: State, t: State, l: Id, q: Id) {
    && HasPool(t, l, q)
    && (if HasPool(s, l, q) then t.members == s.members && t.pools[q].monitor == s.pools[q].monitor
        else t.members == s.members[q := map[]] && t.pools[q].monitor == None)
  }

  /** The pool is as asked for; persistence that is not asked for is not made, nor taken away from an old pool. */
  ghost predicate PoolAsAsked(cfg: Config, s: State, l: Id, q: Id, pool: Pool) {
    && PoolMeant(cfg, pool)
    && (!cfg.service.clientIP ==> pool.persistence == if HasPool(s, l, q) then s.pools[q].persistence else None)
  }

  lemma TunedIsAsAsked(cfg: Config, s: State, l: Id, q: Id, pool: Pool)
    requires PoolTuned(cfg, pool)
    requires if HasPool(s, l, q) then PersistenceFor(cfg).None? ==> pool.persistence == s.pools[q].persistence
             else pool.persistence == PersistenceFor(cfg)
    ensures PoolAsAsked(cfg, s, l, q, pool)
  {
    hide AffinityMeant;
    PoolIsMeant(cfg, pool);
    AffinityIsMeant(cfg.service, pool.persistence);
  }

  ghost predicate PoolReady(c: Cloud, cfg: Config, run: Run, port: Port, l: Id, listener: Listener)
    reads c
  {
    && Ongoing(c, cfg, run) && run.verb == Ensuring && port in cfg.Ports() && At(c.now, cfg.lb, port.key, l)
    && listener.pool == c.now.listeners[l].pool
    && AccessSettled(cfg, port, TreeOf(c.now, l).value)
  }

  method CreatePoolFor(c: Cloud, cfg: Config, ghost run: Run, port: Port, l: Id, ghost listener: Listener)
    returns (r: Reply, q: Id, pool: Option<Pool>)
    requires PoolReady(c, cfg, run, port, l, listener) && listener.pool.None?
    requires Quiet(c, run)
    modifies c
    ensures Ongoing(c, cfg, run) && c.faults >= old(c.faults)
    ensures r == Ok ==> Quiet(c, run)
    ensures OnlyPool(old(c.now), c.now, l)
    ensures r == Ok ==> pool.Some? && PoolKept(old(c.now), c.now, l, q) && pool.value == c.now.pools[q]
    ensures r == Ok ==> PoolTuned(cfg, pool.value) && PoolAsAsked(cfg, old(c.now), l, q, pool.value)
    ensures Orphans(cfg.name, c.now) <= Orphans(cfg.name, old(c.now))
    ensures c.faults == old(c.faults) ==> r == Ok
  {
    hide LegalRun, KeysUnique, GroupsTidy, ProbesPlain, MonitorRefs, AccessSettled, ResourceName, PoolMeant, Retried,
        Quiet;
    r, q := Mutate(c, cfg, run, cfg.lb, ForPort(port, l),
                   CreatePool(l, ResourceName(cfg.name, port.key), cfg.settings.algorithm, PersistenceFor(cfg)));
    pool := Some(Pool(l, ResourceName(cfg.name, port.key), cfg.settings.algorithm, PersistenceFor(cfg), None));
    if r == Ok { TunedIsAsAsked(cfg, old(c.now), l, q, pool.value); }
  }

  method UpdatePoolOf(c: Cloud, cfg: Config, ghost run: Run, ghost port: Port, ghost l: Id, ghost listener: Listener,
                      q: Id, pool: Pool)
    returns (r: Reply, updated: Pool)
    requires PoolReady(c, cfg, run, port, l, listener) && listener.pool == Some(q) && q in c.now.pools
    requires pool == c.now.pools[q] && !PoolTuned(cfg, pool)
    requires Quiet(c, run)
    modifies c
    ensures Ongoing(c, cfg, run) && c.faults >= old(c.faults)
    ensures r == Ok ==> Quiet(c, run)
    ensures OnlyPool(old(c.now), c.now, l)
    ensures r == Ok ==> PoolKept(old(c.now), c.now, l, q) && updated == c.now.pools[q] && PoolTuned(cfg, updated)
    ensures r == Ok ==> PersistenceFor(cfg).None? ==> updated.persistence == pool.persistence
    ensures Orphans(cfg.name, c.now) <= Orphans(cfg.name, old(c.now))
    ensures c.faults == old(c.faults) ==> r == Ok
  {
    hide LegalRun, KeysUnique, GroupsTidy, ProbesPlain, MonitorRefs, AccessSettled, Retried, Quiet;
    var persistence := PersistenceFor(cfg);
    var id;
    r, id := Mutate(c, cfg, run, cfg.lb, ForPort(port, l), UpdatePool(q, cfg.settings.algorithm, persistence));
    updated := pool.(algorithm := cfg.settings.algorithm,
                     persistence := if persistence.Some? then persistence else pool.persistence);
  }

  method EnsurePool(c: Cloud, cfg: Config, ghost run: Run, port: Port, l: Id, listener: Listener)
    returns (r: Reply, q: Id, pool: Option<Pool>)
    requires PoolReady(c, cfg, run, port, l, listener)
    requires Quiet(c, run)
    modifies c
    ensures Ongoing(c, cfg, run) && c.faults >= old(c.faults)
    ensures r == Ok ==> Quiet(c, run)
    ensures OnlyPool(old(c.now), c.now, l)
    ensures r == Ok ==> pool.Some? && PoolKept(old(c.now), c.now, l, q) && pool.value == c.now.pools[q]
    ensures r == Ok ==> PoolTuned(cfg, pool.value) && PoolAsAsked(cfg, old(c.now), l, q, pool.value)
    ensures Orphans(cfg.name, c.now) <= Orphans(cfg.name, old(c.now))
    ensures c.faults == old(c.faults) ==> r == Ok
  {
    hide PoolMeant, AccessSettled, ResourceName, LegalRun, GroupsTidy, ProbesPlain, KeysUnique, Quiet;
    if listener.pool.None? {
      r, q, pool := CreatePoolFor(c, cfg, run, port, l, listener);
      return;
    }
    q := listener.pool.value;
    r, pool := c.GetPool(q);
    if r != Ok {
      return;
    }
    var persistence := PersistenceFor(cfg);
    if pool.value.algorithm != cfg.settings.algorithm || (persistence.Some? && pool.value.persistence != persistence) {
      var updated;
      r, updated := UpdatePoolOf(c, cfg, run, port, l, listener, q, pool.value);
      pool := Some(updated);
    }
    if r == Ok { TunedIsAsAsked(cfg, old(c.now), l, q, pool.value); }
  }

  /** One update settles the pool: for the same wanted values no second one is called for. */
  lemma UpdatedOnce(cfg: Config, s: State, l: Id, q: Id, id: Id)
    requires Sound(cfg) && MayUpdatePool(cfg, s, l, q, cfg.settings.algorithm, PersistenceFor(cfg))
    ensures var t := Apply(s, UpdatePool(q, cfg.settings.algorithm, PersistenceFor(cfg)), id);
            PoolTuned(cfg, t.pools[q]) && forall a, p :: !MayUpdatePool(cfg, t, l, q, a, p)
  {
  }
}

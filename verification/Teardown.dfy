/** Taking a listener down: its monitor, members, pool, itself, and then the IP group of the Service. */
module Teardown {
  import opened Basics
  import opened CloudState
  import opened Service
  import opened Plan
  import opened Backend
  import opened Calls
  import IpGroups

  /** Between `s` and `t` the tree of listener `l` has been pruned, the listener itself keeps its identity. */
  ghost predicate Pruned(s: State, t: State, l: Id) {
    && Frame(s, t, l)
    && l in s.listeners && l in t.listeners && t.listeners[l] == s.listeners[l].(pool := t.listeners[l].pool)
    && t.listeners.Keys == s.listeners.Keys && t.groups == s.groups
  }

  lemma PrunedStart(s: State, l: Id)
    requires l in s.listeners
    ensures Pruned(s, s, l)
  {
  }

  lemma PrunedChain(s: State, t: State, u: State, l: Id)
    requires Pruned(s, t, l) && Pruned(t, u, l)
    ensures Pruned(s, u, l)
  {
  }

  ghost predicate Dooming(c: Cloud, cfg: Config, run: Run, l: Id)
    reads c
  {
    Ongoing(c, cfg, run) && run.verb != Updating && Doomed(cfg, run.verb, c.now, l)
  }

  method FindPoolForListener(c: Cloud, cfg: Config, ghost run: Run, l: Id)
    returns (r: Reply, q: Option<Id>, pool: Option<Pool>)
    requires Ongoing(c, cfg, run)
    modifies c`faults
    ensures Ongoing(c, cfg, run) && c.faults >= old(c.faults)
    ensures r == Ok ==> l in c.now.listeners && q == c.now.listeners[l].pool && pool == Get(c.now.pools, q)
    ensures c.faults == old(c.faults) && l in c.now.listeners ==> r == Ok
  {
    q, pool := None, None;
    var listener;
    r, listener := c.GetListener(l);
    if r != Ok {
      return;
    }
    q := listener.value.pool;
    if q.None? {
      return;
    }
    r, pool := c.GetPool(q.value);
    if r == NotFound {
      return Ok, q, None;
    }
  }

  /** One request that prunes the doomed tree without touching the listener record's identity. */
  predicate PruneOp(op: Op) { op.DeleteMonitor? || op.DeleteMember? || op.DeletePool? }

  lemma PruneStep(cfg: Config, s: State, l: Id, op: Op, id: Id, t: State)
    requires References(s) && PruneOp(op) && l in s.listeners && Removal(cfg.name, s, l, op) && Effect(s, op, id, t)
    requires Frame(s, t, l)
    ensures Pruned(s, t, l)
  {
  }

  method Prune(c: Cloud, cfg: Config, ghost run: Run, ghost l: Id, op: Op) returns (r: Reply, ghost id: Id)
    requires Dooming(c, cfg, run, l) && PruneOp(op) && Removal(cfg.name, c.now, l, op)
    requires Quiet(c, run)
    modifies c
    ensures Dooming(c, cfg, run, l) && c.faults >= old(c.faults)
    ensures r == Ok ==> Quiet(c, run)
    ensures Pruned(old(c.now), c.now, l)
    ensures r == Ok ==> Effect(old(c.now), op, id, c.now)
    ensures c.now == old(c.now) || Effect(old(c.now), op, id, c.now)
    ensures Orphans(cfg.name, c.now) <= Orphans(cfg.name, old(c.now))
    ensures c.faults == old(c.faults) ==> r == Ok
  {
    hide Quiet, LegalRun, GroupsTidy, KeysUnique, ProbesPlain, Sound, Retried;
    var i;
    r, i := Mutate(c, cfg, run, cfg.lb, Removing(l), op);
    id := i;
    if c.now != old(c.now) {
      PruneStep(cfg, old(c.now), l, op, id, c.now);
    }
    if r == NotFound {
      r := Ok;
    }
  }

  method DeleteMonitorOf(c: Cloud, cfg: Config, ghost run: Run, ghost l: Id, q: Id, pool: Pool) returns (r: Reply)
    requires Dooming(c, cfg, run, l) && HasPool(c.now, l, q) && pool.monitor == c.now.pools[q].monitor
    requires Quiet(c, run)
    modifies c
    ensures Dooming(c, cfg, run, l) && c.faults >= old(c.faults)
    ensures r == Ok ==> Quiet(c, run)
    ensures Pruned(old(c.now), c.now, l)
    ensures r == Ok ==> HasPool(c.now, l, q) && c.now.pools[q].monitor == None
    ensures Orphans(cfg.name, c.now) <= Orphans(cfg.name, old(c.now))
    ensures c.faults == old(c.faults) ==> r == Ok
  {
    hide Quiet;
    if pool.monitor.None? {
      return Ok;
    }
    ghost var id;
    r, id := Prune(c, cfg, run, l, DeleteMonitor(pool.monitor.value));
  }

  /** The pool of a doomed listener once its monitor is gone. */
  ghost predicate Emptying(c: Cloud, cfg: Config, run: Run, l: Id, q: Id)
    reads c
  {
    Dooming(c, cfg, run, l) && HasPool(c.now, l, q) && c.now.pools[q].monitor == None
  }

  method DeleteOneMember(c: Cloud, cfg: Config, ghost run: Run, ghost l: Id, q: Id, m: Id) returns (r: Reply)
    requires Emptying(c, cfg, run, l, q) && m in c.now.members[q]
    requires Quiet(c, run)
    modifies c
    ensures Emptying(c, cfg, run, l, q) && c.faults >= old(c.faults)
    ensures r == Ok ==> Quiet(c, run)
    ensures Pruned(old(c.now), c.now, l)
    ensures r == Ok ==> c.now.members[q] == old(c.now).members[q] - {m}
    ensures Orphans(cfg.name, c.now) <= Orphans(cfg.name, old(c.now))
    ensures c.faults == old(c.faults) ==> r == Ok
  {
    hide Quiet;
    ghost var id;
    r, id := Prune(c, cfg, run, l, DeleteMember(q, m));
  }

  method ListDoomedMembers(c: Cloud, cfg: Config, ghost run: Run, ghost l: Id, q: Id)
    returns (r: Reply, items: seq<MemberItem>)
    requires Emptying(c, cfg, run, l, q)
    modifies c`faults
    ensures Emptying(c, cfg, run, l, q) && c.faults >= old(c.faults)
    ensures r == Ok ==> ListsMembers(items, c.now.members[q])
    ensures c.faults == old(c.faults) ==> r == Ok
  {
    r, items := c.ListMembers(q);
  }

  method DeleteMembersOf(c: Cloud, cfg: Config, ghost run: Run, ghost l: Id, q: Id) returns (r: Reply)
    requires Emptying(c, cfg, run, l, q)
    requires Quiet(c, run)
    modifies c
    ensures Emptying(c, cfg, run, l, q) && c.faults >= old(c.faults)
    ensures r == Ok ==> Quiet(c, run)
    ensures Pruned(old(c.now), c.now, l)
    ensures r == Ok ==> c.now.members[q] == map[]
    ensures Orphans(cfg.name, c.now) <= Orphans(cfg.name, old(c.now))
    ensures c.faults == old(c.faults) ==> r == Ok
  {
    hide Ongoing, Pruned, Quiet;
    PrunedStart(c.now, l);
    var existing;
    r, existing := ListDoomedMembers(c, cfg, run, l, q);
    if r != Ok {
      return;
    }
    for i := 0 to |existing|
      invariant r == Ok
      invariant Quiet(c, run)
      invariant Emptying(c, cfg, run, l, q) && c.faults >= old(c.faults)
      invariant Pruned(old(c.now), c.now, l)
      invariant forall m :: m in c.now.members[q] <==> exists j :: i <= j < |existing| && existing[j].id == m
      invariant Orphans(cfg.name, c.now) <= Orphans(cfg.name, old(c.now))
    {
      ghost var before := c.now;
      assert existing[i].id in c.now.members[q];
      r := DeleteOneMember(c, cfg, run, l, q, existing[i].id);
      PrunedChain(old(c.now), before, c.now, l);
      if r != Ok {
        return;
      }
    }
  }

  method DeletePoolOf(c: Cloud, cfg: Config, ghost run: Run, ghost l: Id, q: Id, pool: Pool) returns (r: Reply)
    requires Dooming(c, cfg, run, l) && HasPool(c.now, l, q) && pool == c.now.pools[q]
    requires Quiet(c, run)
    modifies c
    ensures Dooming(c, cfg, run, l) && c.faults >= old(c.faults)
    ensures r == Ok ==> Quiet(c, run)
    ensures Pruned(old(c.now), c.now, l)
    ensures r == Ok ==> c.now.listeners[l].pool == None
    ensures Orphans(cfg.name, c.now) <= Orphans(cfg.name, old(c.now))
    ensures c.faults == old(c.faults) ==> r == Ok
  {
    hide Ongoing, Pruned, Quiet;
    ghost var s0, id := c.now, 0;
    r := DeleteMonitorOf(c, cfg, run, l, q, pool);
    if r != Ok {
      return;
    }
    ghost var s1 := c.now;
    r := DeleteMembersOf(c, cfg, run, l, q);
    PrunedChain(s0, s1, c.now, l);
    if r != Ok {
      return;
    }
    ghost var s2 := c.now;
    r, id := DropEmptyPool(c, cfg, run, l, q);
    PrunedChain(s0, s2, c.now, l);
  }

  method DropEmptyPool(c: Cloud, cfg: Config, ghost run: Run, ghost l: Id, q: Id) returns (r: Reply, ghost id: Id)
    requires Emptying(c, cfg, run, l, q) && c.now.members[q] == map[]
    requires Quiet(c, run)
    modifies c
    ensures Dooming(c, cfg, run, l) && c.faults >= old(c.faults)
    ensures r == Ok ==> Quiet(c, run)
    ensures Pruned(old(c.now), c.now, l)
    ensures r == Ok ==> c.now.listeners[l].pool == None
    ensures Orphans(cfg.name, c.now) <= Orphans(cfg.name, old(c.now))
    ensures c.faults == old(c.faults) ==> r == Ok
  {
    hide Quiet;
    DoomedPoolRefersBack(c, cfg, run, l, q);
    r, id := Prune(c, cfg, run, l, DeletePool(q));
  }

  lemma DoomedPoolRefersBack(c: Cloud, cfg: Config, run: Run, l: Id, q: Id)
    requires Emptying(c, cfg, run, l, q)
    ensures c.now.pools[q].listener == l
  {
  }

  /** The listener itself, once nothing hangs off it but its IP group. */
  method DropListener(c: Cloud, cfg: Config, ghost run: Run, l: Id) returns (r: Reply)
    requires Dooming(c, cfg, run, l) && c.now.listeners[l].pool == None
    requires Quiet(c, run)
    modifies c
    ensures Ongoing(c, cfg, run) && c.faults >= old(c.faults)
    ensures r == Ok ==> Quiet(c, run)
    ensures c.now == old(c.now) || c.now == old(c.now).(listeners := old(c.now).listeners - {l})
    ensures Frame(old(c.now), c.now, l)
    ensures r == Ok ==> l !in c.now.listeners
    ensures Orphans(cfg.name, c.now) <= Orphans(cfg.name, old(c.now)) + Groups(old(c.now).listeners[l])
    ensures c.faults == old(c.faults) ==> r == Ok
  {
    hide Quiet;
    var id;
    r, id := Mutate(c, cfg, run, cfg.lb, Removing(l), Op.DeleteListener(l));
    if r == NotFound {
      r := Ok;
    }
  }

  function Groups(listener: Listener): set<Id> {
    if listener.group.Some? then {listener.group.value} else {}
  }

  /** What is left of a listener on its way out: nothing, or the listener with the same identity. */
  ghost predicate Gone(s: State, t: State, l: Id) {
    && Frame(s, t, l)
    && l in s.listeners
    && (l in t.listeners ==> t.listeners[l] == s.listeners[l].(pool := t.listeners[l].pool))
    && t.listeners.Keys - {l} == s.listeners.Keys - {l} && t.groups == s.groups
  }

  /** The pool first, if there is one; then the listener. */
  method DropTree(c: Cloud, cfg: Config, ghost run: Run, l: Id) returns (r: Reply)
    requires Dooming(c, cfg, run, l)
    requires Quiet(c, run)
    modifies c
    ensures Ongoing(c, cfg, run) && c.faults >= old(c.faults)
    ensures r == Ok ==> Quiet(c, run)
    ensures Gone(old(c.now), c.now, l)
    ensures r == Ok ==> l !in c.now.listeners
    ensures Orphans(cfg.name, c.now) <= Orphans(cfg.name, old(c.now)) + Groups(old(c.now).listeners[l])
    ensures c.faults == old(c.faults) ==> r == Ok
  {
    hide Frame, WellFormed, LegalRun, Quiet;
    var q, pool;
    ghost var s0 := c.now;
    PrunedStart(s0, l);
    r, q, pool := FindPoolForListener(c, cfg, run, l);
    if r != Ok {
      return;
    }
    if pool.Some? {
      DoomedHasPool(c, cfg, run, l, q.value);
      r := DeletePoolOf(c, cfg, run, l, q.value, pool.value);
      if r != Ok {
        return;
      }
    } else {
      DoomedHasNoPool(c, cfg, run, l);
    }
    ghost var s1 := c.now;
    r := DropListener(c, cfg, run, l);
    GoneChain(s0, s1, c.now, l);
  }

  lemma DoomedHasPool(c: Cloud, cfg: Config, run: Run, l: Id, q: Id)
    requires Dooming(c, cfg, run, l) && c.now.listeners[l].pool == Some(q)
    ensures HasPool(c.now, l, q)
  {
  }

  lemma DoomedHasNoPool(c: Cloud, cfg: Config, run: Run, l: Id)
    requires Dooming(c, cfg, run, l) && Get(c.now.pools, c.now.listeners[l].pool).None?
    ensures c.now.listeners[l].pool == None
  {
  }

  lemma GoneChain(s: State, t: State, u: State, l: Id)
    requires Pruned(s, t, l) && Frame(t, u, l)
    requires u == t || u == t.(listeners := t.listeners - {l})
    ensures Gone(s, u, l)
  {
  }

  /** With the listener gone, its IP group is unbound if it belongs to the Service. */
  lemma GroupIsFree(base: string, s: State, t: State, l: Id, g: Id)
    requires GroupsTidy(base, s) && l in s.listeners && s.listeners[l].group == Some(g)
    requires Gone(s, t, l) && l !in t.listeners
    ensures g in t.groups && Own(base, t.groups[g].name) ==> !Bound(t, g)
  {
    if g in t.groups && Own(base, t.groups[g].name) {
      forall k | k in t.listeners ensures t.listeners[k].group != Some(g) {
        assert TreeOf(t, k) == TreeOf(s, k);
      }
    }
  }

  /** What is left after a teardown, complete or not. */
  ghost predicate TakenDown(s: State, t: State, l: Id) {
    && Frame(s, t, l)
    && l in s.listeners
    && (l in t.listeners ==> t.listeners[l] == s.listeners[l].(pool := t.listeners[l].pool))
    && t.listeners.Keys - {l} == s.listeners.Keys - {l}
  }

  method DeleteListener(c: Cloud, cfg: Config, ghost run: Run, l: Id, listener: Listener)
    returns (r: Reply, ghost leak: set<Id>)
    requires Dooming(c, cfg, run, l) && listener.group == c.now.listeners[l].group
    requires listener.group.Some? ==> Binds(run.start, l, listener.group.value)
    requires Quiet(c, run)
    modifies c
    ensures Ongoing(c, cfg, run) && c.faults >= old(c.faults)
    ensures r == Ok ==> Quiet(c, run)
    ensures TakenDown(old(c.now), c.now, l)
    ensures r == Ok ==> l !in c.now.listeners
    ensures Orphans(cfg.name, c.now) <= Orphans(cfg.name, old(c.now)) + leak
    ensures leak <= Groups(listener) && |leak| <= 1
    ensures r == Ok || c.faults == old(c.faults) ==> leak == {}
    ensures c.faults == old(c.faults) ==> r == Ok
  {
    hide Frame, LegalRun, Quiet;
    ghost var s := c.now;
    r := DropTree(c, cfg, run, l);
    leak := Groups(listener);
    TakenDownStart(s, c.now, l);
    if r != Ok {
      return;
    }
    ghost var t := c.now;
    if listener.group.Some? {
      GroupIsFree(cfg.name, s, t, l, listener.group.value);
    }
    r := IpGroups.DeleteIPGroup(c, cfg, run, l, listener.group);
    TakenDownChain(s, t, c.now, l);
    if r == Ok {
      leak := {};
    }
  }

  lemma TakenDownStart(s: State, t: State, l: Id)
    requires Gone(s, t, l)
    ensures TakenDown(s, t, l)
  {
  }

  lemma TakenDownChain(s: State, t: State, u: State, l: Id)
    requires TakenDown(s, t, l) && l !in t.listeners && Frame(t, u, l) && u.listeners == t.listeners
    ensures TakenDown(s, u, l)
  {
  }
}

/** The reconciliation of one Service: every port in turn, then the listeners that are no longer wanted. */
module Reconcile {
  import opened Basics
  import opened CloudState
  import opened Service
  import opened Plan
  import opened Steps
  import opened Backend
  import opened Calls
  import opened Reconciler
  import opened Teardown
  import opened Meaning
  import Ranges

  /** The map the reconciler builds from the listed listeners. */
  ghost predicate IndexesListeners(byKey: map<Key, Item>, s: State, lb: Id) {
    && (forall k :: k in byKey ==> At(s, lb, k, byKey[k].id) && byKey[k].listener == s.listeners[byKey[k].id])
    && (forall l :: l in s.listeners && s.listeners[l].lb == lb ==> s.listeners[l].key in byKey)
  }

  method ListenersByKey(items: seq<Item>, ghost s: State, ghost lb: Id) returns (byKey: map<Key, Item>)
    requires Lists(items, s, lb)
    ensures IndexesListeners(byKey, s, lb)
  {
    byKey := map[];
    for i := 0 to |items|
      invariant forall k :: k in byKey ==> At(s, lb, k, byKey[k].id) && byKey[k].listener == s.listeners[byKey[k].id]
      invariant forall j :: 0 <= j < i ==> items[j].listener.key in byKey
    {
      byKey := byKey[items[i].listener.key := items[i]];
    }
    forall l | l in s.listeners && s.listeners[l].lb == lb ensures s.listeners[l].key in byKey {
      assert Item(l, s.listeners[l]) in items;
    }
  }

  /** Listener `l` of `s` sits on the key of one of the first `n` ports. */
  predicate Visited(cfg: Config, s: State, n: nat, l: Id)
    requires l in s.listeners && n <= |cfg.Ports()|
  {
    s.listeners[l].lb == cfg.lb && exists j :: 0 <= j < n && cfg.Ports()[j].key == s.listeners[l].key
  }

  /** Listener `l` kept its place between `s` and `t`. */
  predicate SamePlace(s: State, t: State, l: Id) {
    && l in s.listeners && l in t.listeners && t.listeners[l].lb == s.listeners[l].lb
    && t.listeners[l].key == s.listeners[l].key && t.listeners[l].name == s.listeners[l].name
  }

  /** Nothing but the listeners of visited ports has changed, and new listeners serve visited ports. */
  ghost predicate Undisturbed(cfg: Config, s0: State, s: State, n: nat) {
    && n <= |cfg.Ports()|
    && (forall l :: l in s0.listeners ==> SamePlace(s0, s, l))
    && (forall l :: l in s0.listeners && !Visited(cfg, s0, n, l) ==> TreeOf(s, l) == TreeOf(s0, l))
    && (forall l :: l in s.listeners && l !in s0.listeners ==> Visited(cfg, s, n, l))
  }

  /** The first `n` ports are in order, served by the listeners `ls`. */
  ghost predicate Served(cfg: Config, s: State, n: nat, ls: seq<Id>, exact: bool) {
    && n <= |cfg.Ports()| && |ls| == n
    && forall j :: 0 <= j < n ==>
         At(s, cfg.lb, cfg.Ports()[j].key, ls[j]) && (exact ==> Settled(cfg, cfg.Ports()[j], TreeOf(s, ls[j]).value))
  }

  lemma PortIsCurrent(cfg: Config, s0: State, s: State, n: nat, byKey: map<Key, Item>)
    requires Sound(cfg) && IndexesListeners(byKey, s0, cfg.lb) && Undisturbed(cfg, s0, s, n) && n < |cfg.Ports()|
    ensures Current(cfg, s, cfg.Ports()[n], byKey)
  {
  }

  lemma UndisturbedStep(cfg: Config, s0: State, s: State, t: State, n: nat, l: Id)
    requires Undisturbed(cfg, s0, s, n) && n < |cfg.Ports()| && Local(s, t, l)
    requires At(t, cfg.lb, cfg.Ports()[n].key, l)
    ensures Undisturbed(cfg, s0, t, n + 1)
  {
    forall k | k in s0.listeners ensures SamePlace(s0, t, k) {
      assert SamePlace(s0, s, k);
      if k != l { assert TreeOf(t, k) == TreeOf(s, k); }
    }
    forall k | k in s0.listeners && !Visited(cfg, s0, n + 1, k) ensures TreeOf(t, k) == TreeOf(s0, k) {
      assert SamePlace(s0, t, k);
      assert !Visited(cfg, s0, n, k);
      assert k != l;
    }
    forall k | k in t.listeners && k !in s0.listeners ensures Visited(cfg, t, n + 1, k) {
      if k != l {
        assert TreeOf(t, k) == TreeOf(s, k);
        assert Visited(cfg, s, n, k);
      }
    }
  }

  lemma ServedStep(cfg: Config, s: State, t: State, n: nat, ls: seq<Id>, exact: bool, l: Id)
    requires Sound(cfg) && Served(cfg, s, n, ls, exact) && n < |cfg.Ports()| && Local(s, t, l)
    requires At(t, cfg.lb, cfg.Ports()[n].key, l)
    requires exact ==> Settled(cfg, cfg.Ports()[n], TreeOf(t, l).value)
    ensures Served(cfg, t, n + 1, ls + [l], exact)
  {
    forall j | 0 <= j < n
      ensures At(t, cfg.lb, cfg.Ports()[j].key, ls[j])
      ensures exact ==> Settled(cfg, cfg.Ports()[j], TreeOf(t, ls[j]).value)
    {
      assert At(s, cfg.lb, cfg.Ports()[j].key, ls[j]);
      assert cfg.Ports()[j].key != cfg.Ports()[n].key;
      assert ls[j] != l;
      assert TreeOf(t, ls[j]) == TreeOf(s, ls[j]);
    }
  }

  lemma FeasibleStays(cfg: Config, s0: State, s: State, n: nat)
    requires Sound(cfg) && Undisturbed(cfg, s0, s, n) && n < |cfg.Ports()|
    ensures Feasible(cfg, s, cfg.Ports()[n]) <==> Feasible(cfg, s0, cfg.Ports()[n])
  {
    var p := cfg.Ports()[n];
    assert forall j :: 0 <= j < n ==> cfg.Ports()[j].key != p.key;
    forall l | l in s.listeners && l !in s0.listeners ensures !At(s, cfg.lb, p.key, l) {
      assert Visited(cfg, s, n, l);
    }
    forall l | At(s, cfg.lb, p.key, l) || At(s0, cfg.lb, p.key, l)
      ensures At(s0, cfg.lb, p.key, l) && At(s, cfg.lb, p.key, l) && TreeOf(s, l) == TreeOf(s0, l)
    {
      assert SamePlace(s0, s, l);
      assert !Visited(cfg, s0, n, l);
    }
  }

  ghost predicate Reconciling(c: Cloud, cfg: Config, run: Run)
    reads c
  {
    Ongoing(c, cfg, run) && run.verb == Ensuring
  }

  /** First loop: every port of the Service, in order. */
  method ReconcilePorts(c: Cloud, cfg: Config, ghost run: Run, byKey: map<Key, Item>)
    returns (r: Reply, ghost ls: seq<Id>, ghost leak: set<Id>)
    requires Reconciling(c, cfg, run) && c.now == run.start && IndexesListeners(byKey, run.start, cfg.lb)
    requires Quiet(c, run)
    modifies c
    ensures Reconciling(c, cfg, run) && c.faults >= old(c.faults)
    ensures r == Ok ==> Quiet(c, run)
    ensures r == Ok ==> Undisturbed(cfg, run.start, c.now, |cfg.Ports()|)
    ensures r == Ok ==> Served(cfg, c.now, |cfg.Ports()|, ls, NoDuplicates(run.start))
    ensures r == Ok ==> forall p :: p in cfg.Ports() ==> Feasible(cfg, run.start, p)
    ensures r == Ok || c.faults == old(c.faults) ==> leak == {}
    ensures Orphans(cfg.name, c.now) <= Orphans(cfg.name, run.start) + leak && |leak| <= 1
    ensures c.faults == old(c.faults) && (forall p :: p in cfg.Ports() ==> Feasible(cfg, run.start, p)) ==> r == Ok
  {
    hide Frame, Settled, Feasible, LegalRun, WellFormed, Undisturbed, Served, Current, Local, IndexesListeners, Quiet;
    r, ls, leak := Ok, [], {};
    LoopStarts(cfg, run.start, NoDuplicates(run.start));
    for i := 0 to |cfg.Ports()|
      invariant r == Ok && leak == {}
      invariant Quiet(c, run)
      invariant Reconciling(c, cfg, run) && c.faults >= old(c.faults)
      invariant Undisturbed(cfg, run.start, c.now, i)
      invariant Served(cfg, c.now, i, ls, NoDuplicates(run.start))
      invariant forall p :: p in cfg.Ports()[..i] ==> Feasible(cfg, run.start, p)
      invariant Orphans(cfg.name, c.now) <= Orphans(cfg.name, run.start)
    {
      ghost var s, l := c.now, 0;
      var port := cfg.Ports()[i];
      PortIsCurrent(cfg, run.start, s, i, byKey);
      FeasibleStays(cfg, run.start, s, i);
      r, l, leak := ReconcilePort(c, cfg, run, port, byKey);
      if r != Ok {
        return;
      }
      UndisturbedStep(cfg, run.start, s, c.now, i, l);
      ServedStep(cfg, s, c.now, i, ls, NoDuplicates(run.start), l);
      ls := ls + [l];
    }
  }

  lemma LoopStarts(cfg: Config, s: State, exact: bool)
    ensures Undisturbed(cfg, s, s, 0) && Served(cfg, s, 0, [], exact)
  {
  }

  // ----- listeners that have to go -----

  /** From the `k`-th listed listener on, the condemned ones are as listed; those before are gone. */
  ghost predicate Cleaning(cfg: Config, verb: Verb, s0: State, s: State, items: seq<Item>, k: nat) {
    && k <= |items|
    && (forall j :: k <= j < |items| && Condemned(cfg, verb, items[j].listener) ==>
        TreeOf(s, items[j].id) == TreeOf(s0, items[j].id))
    && (forall j :: 0 <= j < k && Condemned(cfg, verb, items[j].listener) ==> items[j].id !in s.listeners)
  }

  /** Every listener of `t` was there in `s`, in the same place; only condemned ones are missing. */
  ghost predicate Thinned(cfg: Config, verb: Verb, s: State, t: State) {
    && (forall l :: l in t.listeners ==> SamePlace(s, t, l))
    && (forall l :: l in s.listeners && !Doomed(cfg, verb, s, l) ==> TreeOf(t, l) == TreeOf(s, l))
  }

  lemma CleaningStep(cfg: Config, verb: Verb, s0: State, s: State, t: State, items: seq<Item>, k: nat)
    requires Lists(items, s0, cfg.lb) && Cleaning(cfg, verb, s0, s, items, k) && k < |items|
    requires if Condemned(cfg, verb, items[k].listener) then TakenDown(s, t, items[k].id) && items[k].id !in t.listeners
             else t == s
    ensures Cleaning(cfg, verb, s0, t, items, k + 1)
  {
    forall j | 0 <= j < |items| && j != k
      ensures Condemned(cfg, verb, items[k].listener) ==> TreeOf(t, items[j].id) == TreeOf(s, items[j].id)
    {
      assert items[j].id != items[k].id;
    }
    forall j | 0 <= j < k && Condemned(cfg, verb, items[j].listener) ensures items[j].id !in t.listeners {
      assert TreeOf(t, items[j].id) == TreeOf(s, items[j].id);
    }
  }

  lemma ThinnedStep(cfg: Config, verb: Verb, s0: State, s: State, t: State, l: Id)
    requires Thinned(cfg, verb, s0, s) && Doomed(cfg, verb, s, l) && TakenDown(s, t, l)
    ensures Thinned(cfg, verb, s0, t)
  {
    forall k | k in t.listeners ensures SamePlace(s0, t, k) {
      if k != l { assert TreeOf(t, k) == TreeOf(s, k); }
      assert SamePlace(s0, s, k);
    }
    forall k | k in s0.listeners && !Doomed(cfg, verb, s0, k) ensures TreeOf(t, k) == TreeOf(s0, k) {
      assert TreeOf(s, k) == TreeOf(s0, k);
      assert k in s.listeners && s.listeners[k] == s0.listeners[k];
    }
  }

  /** The listed condemned listener is still there to be removed, with the group it had when the run began. */
  lemma ItemIsDoomed(cfg: Config, verb: Verb, s0: State, s: State, items: seq<Item>, k: nat)
    requires Lists(items, s0, cfg.lb) && Cleaning(cfg, verb, s0, s, items, k) && k < |items|
    requires Condemned(cfg, verb, items[k].listener)
    ensures Doomed(cfg, verb, s, items[k].id) && s.listeners[items[k].id] == items[k].listener
    ensures items[k].listener.group.Some? ==> Binds(s0, items[k].id, items[k].listener.group.value)
  {
  }

  /** The loop over the listed listeners, in the listed order. */
  method RemoveCondemned(c: Cloud, cfg: Config, ghost run: Run, verb: Verb, items: seq<Item>)
    returns (r: Reply, ghost leak: set<Id>)
    requires Ongoing(c, cfg, run) && run.verb == verb && verb != Updating
    requires Lists(items, run.start, cfg.lb) && Cleaning(cfg, verb, run.start, c.now, items, 0)
    requires Quiet(c, run)
    modifies c
    ensures Ongoing(c, cfg, run) && c.faults >= old(c.faults)
    ensures r == Ok ==> Quiet(c, run)
    ensures Thinned(cfg, verb, old(c.now), c.now)
    ensures r == Ok ==> Cleaning(cfg, verb, run.start, c.now, items, |items|)
    ensures r == Ok || c.faults == old(c.faults) ==> leak == {}
    ensures Orphans(cfg.name, c.now) <= Orphans(cfg.name, old(c.now)) + leak && |leak| <= 1
    ensures c.faults == old(c.faults) ==> r == Ok
  {
    hide Frame, LegalRun, WellFormed, Condemned, Cleaning, Thinned, TakenDown, TreeOf, Quiet;
    r, leak := Ok, {};
    ghost var s1 := c.now;
    ThinnedStart(cfg, verb, s1);
    for i := 0 to |items|
      invariant r == Ok && leak == {}
      invariant Quiet(c, run)
      invariant Ongoing(c, cfg, run) && c.faults >= old(c.faults)
      invariant Thinned(cfg, verb, s1, c.now)
      invariant Cleaning(cfg, verb, run.start, c.now, items, i)
      invariant Orphans(cfg.name, c.now) <= Orphans(cfg.name, s1)
    {
      ghost var s := c.now;
      if Condemned(cfg, verb, items[i].listener) {
        ItemIsDoomed(cfg, verb, run.start, s, items, i);
        r, leak := Teardown.DeleteListener(c, cfg, run, items[i].id, items[i].listener);
        ThinnedStep(cfg, verb, s1, s, c.now, items[i].id);
        if r != Ok {
          return;
        }
      }
      CleaningStep(cfg, verb, run.start, s, c.now, items, i);
    }
  }

  lemma ThinnedStart(cfg: Config, verb: Verb, s: State)
    ensures Thinned(cfg, verb, s, s)
  {
  }

  // ----- the whole reconciliation -----

  lemma CleaningStarts(cfg: Config, s0: State, s: State, items: seq<Item>)
    requires Lists(items, s0, cfg.lb) && Undisturbed(cfg, s0, s, |cfg.Ports()|)
    ensures Cleaning(cfg, Ensuring, s0, s, items, 0)
  {
  }

  lemma NothingStale(cfg: Config, s0: State, s1: State, s2: State, items: seq<Item>)
    requires Lists(items, s0, cfg.lb) && Undisturbed(cfg, s0, s1, |cfg.Ports()|)
    requires Thinned(cfg, Ensuring, s1, s2) && Cleaning(cfg, Ensuring, s0, s2, items, |items|)
    ensures NoStale(cfg, s2)
  {
  }

  lemma StillServed(cfg: Config, s1: State, s2: State, ls: seq<Id>)
    requires Served(cfg, s1, |cfg.Ports()|, ls, true) && Thinned(cfg, Ensuring, s1, s2)
    ensures forall p :: p in cfg.Ports() ==> PortSettled(cfg, s2, p)
  {
  }

  lemma AllFeasible(cfg: Config, s: State)
    ensures (forall p :: p in cfg.Ports() ==> Feasible(cfg, s, p)) <==>
            forall p :: p in cfg.service.ports ==> FeasibleMeant(cfg, s, p)
  {
    hide Feasible, FeasibleMeant;
    forall p: Port ensures Feasible(cfg, s, p) <==> FeasibleMeant(cfg, s, p) { FeasibleIsMeant(cfg, s, p); }
  }

  lemma AllInPlace(cfg: Config, s: State)
    requires s.members.Keys == s.pools.Keys
    requires (forall p :: p in cfg.Ports() ==> PortSettled(cfg, s, p)) && NoStale(cfg, s)
    ensures Converged(cfg, s) && InPlace(cfg, s)
  {
    hide PortSettled, InPlace;
    ConvergedIsInPlace(cfg, s);
  }

  method ReconcileService(c: Cloud, cfg: Config, ghost run: Run) returns (r: Reply, ghost leak: set<Id>)
    requires Reconciling(c, cfg, run) && c.now == run.start
    requires Quiet(c, run)
    modifies c
    ensures Reconciling(c, cfg, run) && c.faults >= old(c.faults)
    ensures r == Ok ==> Quiet(c, run)
    ensures r == Ok ==> NoStale(cfg, c.now) && forall p :: p in cfg.Ports() ==> Feasible(cfg, run.start, p)
    ensures r == Ok ==> forall p :: p in cfg.service.ports ==> FeasibleMeant(cfg, run.start, p)
    ensures r == Ok && NoDuplicates(run.start) ==> Converged(cfg, c.now) && InPlace(cfg, c.now)
    ensures Orphans(cfg.name, c.now) <= Orphans(cfg.name, run.start) + leak && |leak| <= 1
    ensures r == Ok || c.faults == old(c.faults) ==> leak == {}
    ensures c.faults == old(c.faults) && (forall p :: p in cfg.Ports() ==> Feasible(cfg, run.start, p)) ==> r == Ok
    ensures c.faults == old(c.faults) && (forall p :: p in cfg.service.ports ==> FeasibleMeant(cfg, run.start, p)) ==>
              r == Ok
  {
    AllFeasible(cfg, run.start);
    hide FeasibleMeant;
    hide Frame, Settled, Feasible, LegalRun, Undisturbed, Served, Cleaning, Thinned, InPlace, Converged, Quiet;
    var items;
    leak := {};
    r, items := c.ListListeners(cfg.lb);
    if r != Ok {
      return;
    }
    var byKey := ListenersByKey(items, c.now, cfg.lb);
    ghost var ls;
    r, ls, leak := ReconcilePorts(c, cfg, run, byKey);
    if r != Ok {
      return;
    }
    ghost var s1 := c.now;
    CleaningStarts(cfg, run.start, s1, items);
    r, leak := RemoveCondemned(c, cfg, run, Ensuring, items);
    if r == Ok {
      NothingStale(cfg, run.start, s1, c.now, items);
      if NoDuplicates(run.start) {
        StillServed(cfg, s1, c.now, ls);
        AllInPlace(cfg, c.now);
      }
    }
  }

  /** In the wanted state a Service with distinct source ranges has, on every port, an enabled white list that is a
      permutation of them. */
  lemma WhitelistIsExact(cfg: Config, s: State, p: Port) returns (l: Id, g: Id)
    requires Converged(cfg, s) && p in cfg.Ports() && cfg.Whitelist() != [] && Distinct(cfg.Whitelist())
    ensures At(s, cfg.lb, p.key, l) && HasGroup(s, l, g)
    ensures s.listeners[l].enabled == Some(true) && s.listeners[l].kind == "white"
    ensures multiset(s.groups[g].ips) == multiset(cfg.Whitelist())
  {
    hide MonitorSettled, PoolTuned;
    assert PortSettled(cfg, s, p);
    l :| At(s, cfg.lb, p.key, l) && Settled(cfg, p, TreeOf(s, l).value);
    g := s.listeners[l].group.value;
    Ranges.EqualIffPermutation(s.groups[g].ips, cfg.Whitelist());
  }
}

/** What whole lives of a Service come to: teardown and round trip, the invariants, and convergence. */
module Outcomes {
  import opened Basics
  import opened CloudState
  import opened Service
  import opened Plan
  import opened Steps
  import opened Backend
  import opened Calls
  import opened Reconciler
  import opened Lifecycle
  import opened Deletion
  import opened EipBooks
  import opened Isolation
  import opened Life
  import opened WholeLife
  import Annotations
  import Histories
  import Ranges
  import Safety

  /** The order is for the Service `base`, and for its home if the annotations are accepted at all. */
  predicate About(known: map<string, Id>, o: Order, base: string, home: Home) {
    && Proper(o) && o.Name() == base
    && (o.Acceptable() ==>
          match home
          case Guest(lb, keys) =>
            && ById(o) && o.Settings().balancerId in known && known[o.Settings().balancerId] == lb
            && forall p :: p in o.spec.ports ==> p.key in keys
          case Owner => !ById(o))
  }

  /** So are all the orders. */
  predicate AllAbout(known: map<string, Id>, orders: seq<Order>, base: string, home: Home) {
    forall o :: o in orders ==> About(known, o, base, home)
  }

  lemma WishesAbout(known: map<string, Id>, wishes: seq<Wish>, base: string, home: Home)
    requires AllAbout(known, OrdersOf(wishes), base, home)
    ensures Wished(wishes, base) && forall w :: w in wishes ==> About(known, w.order, base, home)
  {
    hide Proper;
    forall w | w in wishes ensures About(known, w.order, base, home) {
      var i :| 0 <= i < |wishes| && wishes[i] == w;
      assert OrdersOf(wishes)[i] == w.order;
    }
  }

  // ----- the phases of actual calls -----

  lemma RunIsAtHome(known: map<string, Id>, o: Order, cfg: Config, verb: Verb, base: string, home: Home, s: State)
    requires o.Acceptable() && About(known, o, base, home) && Sound(cfg)
    requires IsBalancerOf(known, o, s, cfg.lb) && cfg == ConfigFor(o, cfg.lb, s.balancers[cfg.lb])
    ensures AtHome(cfg, verb, home, s)
  {
  }

  lemma CreationIsChore(known: map<string, Id>, o: Order, s: State)
    requires o.Acceptable() && Creatable(known, o) && forall x :: !IsBalancerOf(known, o, s, x)
    ensures Chore(o.Name(), s, CreationOf(known, o))
  {
    assert forall x :: Named(o.Name(), s, x) ==> IsBalancerOf(known, o, s, x);
  }

  lemma ClosingIsChore(o: Order, lb: Id, ips: seq<Id>, s: State, op: Op)
    requires o.Acceptable() && MayClose(o, lb, ips, s, op)
    ensures !ById(o) && Chore(o.Name(), s, op)
  {
  }

  lemma OpeningIsLawful(known: map<string, Id>, o: Order, calls: seq<Call>, s: State, t: State)
    requires o.Acceptable() && calls != [] && Opening(known, o, calls, s, t)
    ensures !ById(o) && Lawful(Errand(s, calls, t), o.Name(), Owner)
  {
    hide Happened, Chore, CreationOf, IsBalancerOf;
    assert Happened(calls[0]) && Creatable(known, o);
    forall i | 0 <= i < |calls| ensures Happened(calls[i]) && Chore(o.Name(), calls[i].pre, calls[i].op) {
      CreationIsChore(known, o, calls[i].pre);
    }
  }

  lemma ClosingIsLawful(o: Order, lb: Id, ips: seq<Id>, calls: seq<Call>, s: State, t: State)
    requires o.Acceptable() && calls != [] && Closing(o, lb, ips, calls, s, t)
    ensures !ById(o) && Lawful(Errand(s, calls, t), o.Name(), Owner)
  {
    hide Happened, Chore, MayClose;
    assert Happened(calls[0]);
    ClosingIsChore(o, lb, ips, calls[0].pre, calls[0].op);
    forall i | 0 <= i < |calls| ensures Happened(calls[i]) && Chore(o.Name(), calls[i].pre, calls[i].op) {
      ClosingIsChore(o, lb, ips, calls[i].pre, calls[i].op);
    }
  }

  lemma ErrandIsLawful(known: map<string, Id>, o: Order, base: string, home: Home, calls: seq<Call>, s: State, t: State)
    requires o.Acceptable() && About(known, o, base, home) && calls != [] && ErrandFor(known, o, calls, s, t)
    ensures Lawful(Errand(s, calls, t), base, home)
  {
    hide Opening, Closing, Lawful, Proper;
    if Opening(known, o, calls, s, t) {
      OpeningIsLawful(known, o, calls, s, t);
    } else {
      var lb :| IsBalancerOf(known, o, s, lb) && Closing(o, lb, s.balancers[lb].publicIps, calls, s, t);
      ClosingIsLawful(o, lb, s.balancers[lb].publicIps, calls, s, t);
    }
  }

  lemma RecordedIsLawful(known: map<string, Id>, ph: Phase, o: Order, base: string, home: Home)
    requires Recorded(known, ph, o) && About(known, o, base, home)
    ensures Lawful(ph, base, home)
  {
    hide About, ErrandFor, Sound, AtHome;
    AboutName(known, o, base, home);
    match ph {
      case Phase(cfg, verb, start, calls, end) => RunIsAtHome(known, o, cfg, verb, base, home, start);
      case Errand(start, calls, end) => ErrandIsLawful(known, o, base, home, calls, start, end);
    }
  }

  lemma AboutName(known: map<string, Id>, o: Order, base: string, home: Home)
    requires About(known, o, base, home)
    ensures o.Name() == base
  {
  }

  lemma RecordedIsTraced(known: map<string, Id>, ph: Phase, o: Order)
    requires Recorded(known, ph, o)
    ensures Traced(ph, o.Name()) && (ph.Phase? ==> Sound(ph.cfg) && Safety.RootedPath(ph.cfg))
    ensures ph.Phase? ==> ph.cfg.service == o.spec
  {
    hide ErrandFor, Orphans;
    if ph.Errand? {
      ErrandHangs(known, o, ph.calls, ph.start, ph.end);
    }
  }

  lemma RecordedIsPosted(known: map<string, Id>, ph: Phase, o: Order)
    requires Recorded(known, ph, o) && !ById(o)
    ensures Posted(known, o, o.Name(), ph)
  {
    hide ErrandFor;
    if ph.Phase? {
      RunSparesBalancers(ph.cfg, ph.verb, ph.start, ph.calls, ph.end);
    }
  }

  lemma LivedIsTraced(known: map<string, Id>, life: seq<Phase>, orders: seq<Order>, base: string, s: State, t: State,
                      calls: seq<Call>, failed: nat, drops: nat)
    requires Lived(known, life, orders, base, s, t, calls, failed, drops)
    ensures Histories.TracedLife(life, base)
    ensures forall i :: 0 <= i < |life| && life[i].Phase? ==>
              Safety.RootedPath(life[i].cfg) && life[i].cfg.service == orders[i].spec
  {
    hide Recorded, Traced, Sound, Safety.RootedPath, Leaked;
    forall i | 0 <= i < |life|
      ensures Traced(life[i], base)
      ensures life[i].Phase? ==> Sound(life[i].cfg) && Safety.RootedPath(life[i].cfg)
      ensures life[i].Phase? ==> life[i].cfg.service == orders[i].spec
    {
      RecordedIsTraced(known, life[i], orders[i]);
    }
  }

  lemma LivedIsLawful(known: map<string, Id>, life: seq<Phase>, orders: seq<Order>, base: string, home: Home, s: State,
                      t: State, calls: seq<Call>, failed: nat, drops: nat)
    requires Lived(known, life, orders, base, s, t, calls, failed, drops) && AllAbout(known, orders, base, home)
    ensures Consecutive(life, s, t) && forall i :: 0 <= i < |life| ==> Lawful(life[i], base, home)
  {
    hide Recorded, Lawful, About, Leaked;
    forall i | 0 <= i < |life| ensures Lawful(life[i], base, home) {
      RecordedIsLawful(known, life[i], orders[i], base, home);
    }
  }

  lemma DrawnAbout(known: map<string, Id>, orders: seq<Order>, wishes: seq<Wish>, base: string, home: Home)
    requires Drawn(orders, wishes) && AllAbout(known, OrdersOf(wishes), base, home)
    ensures AllAbout(known, orders, base, home)
  {
    hide About;
  }

  // ----- teardown -----

  /** After a successful deletion the Service is gone from its home. */
  lemma DissolvedIsDeparted(known: map<string, Id>, o: Order, base: string, home: Home, s: State, t: State, drops: nat)
    requires o.Acceptable() && About(known, o, base, home) && Dissolved(known, o, s, t, drops)
    requires home.Guest? ==> home.lb in s.balancers
    requires home.Owner? ==> Sole(base, s)
    ensures Departed(base, home, t)
  {
    hide Proper;
    if t == s && forall lb :: !IsBalancerOf(known, o, s, lb) {
      assert home.Guest? ==> IsBalancerOf(known, o, s, home.lb);
      assert home.Owner? ==> forall x :: Named(base, s, x) ==> IsBalancerOf(known, o, s, x);
    } else {
      var lb :| IsBalancerOf(known, o, s, lb) && Swept(ConfigFor(o, lb, s.balancers[lb]), t)
                && (!ById(o) ==> t.balancers == s.balancers - {lb} && drops == 1);
      if home.Owner? {
        assert Named(base, s, lb);
        assert forall x :: Named(base, t, x) ==> Named(base, s, x);
      }
    }
  }

  lemma GuestKeepsBalancers(life: seq<Phase>, base: string, home: Home, s: State, t: State)
    requires Consecutive(life, s, t) && (forall i :: 0 <= i < |life| ==> Lawful(life[i], base, home))
    requires home.Guest? && Healthy(base, home, s)
    ensures t.balancers == s.balancers
  {
    hide Lawful, Healthy;
    LifeKeepsRest(life, base, home, s, t);
    assert Rest(base, home, t).balancers == Rest(base, home, s).balancers;
  }

  /** A guest whose shared load balancer does not exist never issues a request. */
  lemma GuestAbsent(life: seq<Phase>, base: string, home: Home, s: State, t: State)
    requires Consecutive(life, s, t) && (forall i :: 0 <= i < |life| ==> Lawful(life[i], base, home))
    requires forall i :: 0 <= i < |life| && life[i].Phase? ==> life[i].cfg.lb in life[i].start.balancers
    requires home.Guest? && Healthy(base, home, s) && home.lb !in s.balancers
    ensures life == [] && t == s
  {
    hide Healthy, LegalRun, Sound;
    if life != [] {
      var n := |life| - 1;
      assert Lawful(life[n], base, home);
      GuestKeepsBalancers(life[..n], base, home, s, life[n].start);
    }
  }

  lemma RunHasBalancer(known: map<string, Id>, ph: Phase, o: Order)
    requires Recorded(known, ph, o)
    ensures ph.Phase? ==> ph.cfg.lb in ph.start.balancers
  {
  }

  lemma BareHasDeparted(base: string, home: Home, s: State)
    requires Bare(base, home, s)
    ensures Departed(base, home, s)
  {
  }

  /** A shared load balancer is there. */
  predicate Present(home: Home, s: State) { home.Guest? ==> home.lb in s.balancers }

  /** A life and the successful deletion after it: the Service is gone from its home. */
  lemma LifeDeparts(known: map<string, Id>, life: seq<Phase>, orders: seq<Order>, base: string, home: Home, s: State,
                    t: State, calls: seq<Call>, failed: nat, drops: nat, o: Order, u: State, d: nat)
    requires Lived(known, life, orders, base, s, t, calls, failed, drops) && AllAbout(known, orders, base, home)
    requires Healthy(base, home, s) && (Present(home, s) || Bare(base, home, s))
    requires o.Acceptable() && About(known, o, base, home) && Dissolved(known, o, t, u, d)
    ensures Departed(base, home, u)
  {
    hide Recorded, Lawful, About, Leaked, Healthy, Bare, Departed, Dissolved;
    LivedIsLawful(known, life, orders, base, home, s, t, calls, failed, drops);
    LifeKeepsRest(life, base, home, s, t);
    if home.Guest? && home.lb !in t.balancers {
      GuestKeepsBalancers(life, base, home, s, t);
      forall i | 0 <= i < |life| ensures life[i].Phase? ==> life[i].cfg.lb in life[i].start.balancers {
        RunHasBalancer(known, life[i], orders[i]);
      }
      GuestAbsent(life, base, home, s, t);
      BareHasDeparted(base, home, s);
      assert u == t by { NotThere(known, o, base, home, t, u, d); }
    } else {
      HealthyIsSole(base, home, t);
      DissolvedIsDeparted(known, o, base, home, t, u, d);
    }
  }

  lemma NotThere(known: map<string, Id>, o: Order, base: string, home: Home, s: State, t: State, drops: nat)
    requires o.Acceptable() && About(known, o, base, home) && Dissolved(known, o, s, t, drops)
    requires home.Guest? && home.lb !in s.balancers
    ensures t == s
  {
  }

  lemma HealthyIsSole(base: string, home: Home, s: State)
    requires Healthy(base, home, s)
    ensures home.Owner? ==> Sole(base, s)
  {
  }

  /** Nothing but unbound IP groups carries the prefix of `base`, which is gone from its home, and everything of others
      is as it was. */
  ghost predicate Vanished(base: string, home: Home, s: State, t: State) {
    && Departed(base, home, t) && Rest(base, home, t) == Rest(base, home, s)
    && (forall l :: !OwnListener(base, t, l)) && (forall q :: !OwnPool(base, t, q))
    && (forall m :: !OwnMonitor(base, t, m))
    && forall g :: OwnGroup(base, t, g) ==> g in Orphans(base, t)
  }

  lemma Disappears(life: seq<Phase>, base: string, home: Home, s: State, t: State)
    requires Consecutive(life, s, t) && (forall i :: 0 <= i < |life| ==> Lawful(life[i], base, home))
    requires Healthy(base, home, s) && Departed(base, home, t)
    ensures Vanished(base, home, s, t)
  {
    hide Rest, Lawful, Consecutive, Departed, Undisputed, Orphans;
    LifeKeepsRest(life, base, home, s, t);
    DepartedHasNoListeners(base, home, t);
    OnlyOrphansLeft(base, t);
  }

  /** What is left of the Service: unbound IP groups of its own, no more than calls failed, each with its origin. */
  ghost predicate LeftOver(base: string, home: Home, life: seq<Phase>, s: State, t: State, failed: nat) {
    && RestoredUpToOrphans(base, home, s, t)
    && |Orphans(base, t)| <= failed
    && forall g :: g in Orphans(base, t) ==> Accounted(base, life, g)
  }

  lemma {:induction false} NothingMessy(base: string, life: seq<Phase>)
    requires Messy(base, life) == 0
    ensures forall i :: 0 <= i < |life| ==> Clean(base, life[i])
    decreases |life|
  {
    hide Clean;
    if life != [] {
      var n := |life| - 1;
      NothingMessy(base, life[..n]);
      forall i | 0 <= i < n ensures Clean(base, life[i]) {
        assert life[..n][i] == life[i];
      }
    }
  }

  lemma End(known: map<string, Id>, life: seq<Phase>, orders: seq<Order>, base: string, home: Home, s: State, t: State,
            calls: seq<Call>, failed: nat, drops: nat)
    requires Lived(known, life, orders, base, s, t, calls, failed, drops) && AllAbout(known, orders, base, home)
    requires Healthy(base, home, s) && Bare(base, home, s) && Departed(base, home, t)
    ensures LeftOver(base, home, life, s, t, failed)
    ensures failed == 0 ==> t == UpToEips(home, s, t)
  {
    hide Healthy, Bare, Departed, Lawful, RestoredUpToOrphans, Orphans, Accounted, Recorded, Consecutive, About, Traced;
    LivedIsLawful(known, life, orders, base, home, s, t, calls, failed, drops);
    LivedIsTraced(known, life, orders, base, s, t, calls, failed, drops);
    LifeRestores(life, base, home, s, t);
    LeftoversCounted(life, base, s, t);
    BareHasNoOrphans(base, home, s);
    assert Leaked(base, s, t) == Orphans(base, t);
    forall g | g in Orphans(base, t) ensures Accounted(base, life, g) {
      LeftoversAccounted(life, base, s, t, g);
    }
    if failed == 0 {
      NothingMessy(base, life);
      RoundTrip(life, base, home, s, t);
    }
  }

  // ----- EIPs -----

  /** No order asks for a new EIP. */
  predicate NoNewEips(orders: seq<Order>) {
    forall o :: o in orders && o.Acceptable() ==> o.Settings().eipBandwidth == 0
  }

  /** Every order does. */
  predicate NewEips(orders: seq<Order>) {
    forall o :: o in orders && o.Acceptable() ==> o.Settings().eipBandwidth > 0
  }

  /** Every order does, and keeps it. */
  predicate KeepEips(orders: seq<Order>) {
    NewEips(orders) && forall o :: o in orders && o.Acceptable() ==> Annotations.SaysKeep(o.spec.annotations)
  }

  /** How many EIPs there are that were not there before. */
  function Gain(s: State, t: State): nat { |t.eips - s.eips| }

  /** The EIPs after a life on load balancers of the Service's own, of which `drops` came and went, when the last one is
      gone. */
  ghost predicate EipsBooked(orders: seq<Order>, s: State, t: State, failed: nat, drops: nat) {
    && (NoNewEips(orders) ==> t.eips == s.eips)
    && (NewEips(orders) ==> s.eips <= t.eips && Gain(s, t) <= drops)
    && (AllRelease(orders) ==> Gain(s, t) <= failed)
    && (KeepEips(orders) ==> Gain(s, t) == drops)
  }

  lemma {:induction false} SpillsAreDrops(base: string, life: seq<Phase>)
    ensures Spilled(base, life) <= Dropped(base, life)
    decreases |life|
  {
    if life != [] {
      SpillsAreDrops(base, life[..|life| - 1]);
    }
  }

  lemma LivedIsPosted(known: map<string, Id>, life: seq<Phase>, orders: seq<Order>, base: string, s: State, t: State,
                      calls: seq<Call>, failed: nat, drops: nat)
    requires Lived(known, life, orders, base, s, t, calls, failed, drops) && AllAbout(known, orders, base, Owner)
    ensures forall i :: 0 <= i < |life| ==> Posted(known, orders[i], base, life[i])
  {
    hide Recorded, Posted, Leaked;
    forall i | 0 <= i < |life| ensures Posted(known, orders[i], base, life[i]) {
      RecordedAccepts(known, life[i], orders[i]);
      assert About(known, orders[i], base, Owner);
      RecordedIsPosted(known, life[i], orders[i]);
    }
  }

  lemma BooksAtEnd(base: string, t: State, kept: set<Id>)
    requires Books(base, t, kept) && forall x :: !Named(base, t, x)
    ensures t.eips == kept
  {
  }

  lemma NewEipsCounted(known: map<string, Id>, life: seq<Phase>, orders: seq<Order>, base: string, s: State, t: State)
    requires Consecutive(life, s, t) && |orders| == |life| && NewEips(orders)
    requires forall i :: 0 <= i < |life| ==> Posted(known, orders[i], base, life[i])
    requires (forall x :: !Named(base, s, x)) && forall x :: !Named(base, t, x)
    ensures s.eips <= t.eips && Gain(s, t) == Spilled(base, life)
    ensures KeepEips(orders) ==> Spilled(base, life) == Dropped(base, life)
  {
    hide Posted, Books, Named, Consecutive;
    forall i | 0 <= i < |life|
      ensures orders[i].Acceptable() && Posted(known, orders[i], base, life[i])
      ensures orders[i].Settings().eipBandwidth > 0
      ensures KeepEips(orders) ==> Annotations.SaysKeep(orders[i].spec.annotations)
    {
      PostedAccepts(known, orders[i], base, life[i]);
    }
    var kept := LifeKeepsBooks(known, life, orders, base, s, t);
    BooksAtEnd(base, t, kept);
    if KeepEips(orders) { KeptLife(known, life, orders, base, s, t); }
  }

  lemma PostedAccepts(known: map<string, Id>, o: Order, base: string, ph: Phase)
    requires Posted(known, o, base, ph)
    ensures o.Acceptable()
  {
  }

  lemma OldEipsStay(known: map<string, Id>, life: seq<Phase>, orders: seq<Order>, base: string, s: State, t: State)
    requires Consecutive(life, s, t) && |orders| == |life| && NoNewEips(orders)
    requires forall i :: 0 <= i < |life| ==> Posted(known, orders[i], base, life[i])
    ensures t.eips == s.eips
  {
    hide Posted, Consecutive;
    forall i | 0 <= i < |life|
      ensures orders[i].Acceptable() && Posted(known, orders[i], base, life[i])
      ensures orders[i].Settings().eipBandwidth == 0
    {
      PostedAccepts(known, orders[i], base, life[i]);
    }
    LifeSparesEips(known, life, orders, base, s, t);
  }

  /** The EIPs of a life that began and ended without a load balancer of the Service. */
  lemma EipsEnd(known: map<string, Id>, life: seq<Phase>, orders: seq<Order>, base: string, s: State, t: State,
                calls: seq<Call>, failed: nat, drops: nat)
    requires Lived(known, life, orders, base, s, t, calls, failed, drops) && AllAbout(known, orders, base, Owner)
    requires (forall x :: !Named(base, s, x)) && forall x :: !Named(base, t, x)
    ensures EipsBooked(orders, s, t, failed, drops)
    ensures NewEips(orders) ==> s.eips <= t.eips && Gain(s, t) == Spilled(base, life)
  {
    hide Posted, Recorded, Leaked, Consecutive, Named, About;
    LivedIsPosted(known, life, orders, base, s, t, calls, failed, drops);
    SpillsAreDrops(base, life);
    if NoNewEips(orders) {
      OldEipsStay(known, life, orders, base, s, t);
    }
    if NewEips(orders) {
      NewEipsCounted(known, life, orders, base, s, t);
    }
    assert AllRelease(orders) ==> NewEips(orders);
  }

  lemma BookedForAll(orders: seq<Order>, all: seq<Order>, s: State, t: State, failed: nat, drops: nat)
    requires EipsBooked(orders, s, t, failed, drops) && forall o :: o in orders ==> o in all
    ensures EipsBooked(all, s, t, failed, drops)
  {
    hide Releases;
  }

  /** The orders leave no EIP behind, even with a load balancer of the Service's own. */
  ghost predicate LeavesNoEip(orders: seq<Order>, home: Home) { home.Guest? || NoNewEips(orders) || AllRelease(orders) }

  lemma NothingGained(orders: seq<Order>, home: Home, s: State, t: State, drops: nat)
    requires t == UpToEips(home, s, t) && LeavesNoEip(orders, home)
    requires home.Owner? ==> EipsBooked(orders, s, t, 0, drops)
    ensures t == s
  {
    if AllRelease(orders) && home.Owner? {
      assert NewEips(orders) && t.eips - s.eips == {};
      assert t.eips == s.eips;
    }
  }

  // ----- a whole life -----

  lemma AllOrders(orders: seq<Order>, wishes: seq<Wish>, last: Order, n: nat)
    requires Drawn(orders, wishes)
    ensures forall o :: o in orders + Repeated(last, n) ==> o in OrdersOf(wishes) + [last]
  {
  }

  /** The whole life of a Service: any sequence of calls and a deletion at the end. Whatever failed before, a successful
      deletion leaves nothing of the Service but unbound IP groups. If there was nothing of it before, the cloud is
      restored up to such groups, at most one for each call that failed, each of them made, or bound by a listener
      deleted, in a call that failed, and up to the EIPs that load balancers of the Service left behind on demand.
      Without faults the deletion succeeds and the cloud is exactly as before, even if calls were refused half-way. */
  method LiveAndDie(c: Cloud, wishes: seq<Wish>, last: Order, base: string, ghost home: Home)
    returns (deleted: bool, ghost life: seq<Phase>, ghost orders: seq<Order>, ghost failed: nat, ghost drops: nat)
    requires c.Valid() && Healthy(base, home, c.now) && (Present(home, c.now) || Bare(base, home, c.now))
    requires AllAbout(c.known, OrdersOf(wishes) + [last], base, home) && last.Acceptable()
    modifies c
    ensures old(c.log) <= c.log && failed <= c.faults - old(c.faults)
    ensures Lived(c.known, life, orders, base, old(c.now), c.now, c.log[|old(c.log)|..], failed, drops)
    ensures c.faults == old(c.faults) ==> deleted
    ensures deleted ==> Vanished(base, home, old(c.now), c.now)
    ensures deleted && Bare(base, home, old(c.now)) ==>
              && LeftOver(base, home, life, old(c.now), c.now, failed)
              && (home.Owner? ==> EipsBooked(OrdersOf(wishes) + [last], old(c.now), c.now, failed, drops))
              && (failed == 0 ==> c.now == UpToEips(home, old(c.now), c.now))
              && (failed == 0 && LeavesNoEip(OrdersOf(wishes) + [last], home) ==> c.now == old(c.now))
  {
    hide Healthy, Bare, About, Lived, WellFormed, Departed, LeftOver, Stretch, Dissolved, EipsBooked, UpToEips, Proper,
        Drawn, LeavesNoEip, Vanished, Lawful;
    ghost var s, log0, all := c.now, c.log, OrdersOf(wishes) + [last];
    PartsAbout(c.known, wishes, last, base, home);
    HealthyIsWellFormed(base, home, s);
    life, orders, failed, drops := Live(c, wishes, base);
    ghost var t, log1, faults, before, early := c.now, c.log, c.faults, life, failed;
    ghost var more, d;
    deleted, more, d := Fulfil(c, Delete(last));
    ghost var clean, n := deleted || c.faults == faults, |more|;
    LivedOn(c.known, life, more, orders, base, last, s, t, c.now, log1[|log0|..], c.log[|log1|..], failed, drops, clean,
            d);
    LogSplit(log0, log1, c.log);
    if deleted {
      DrawnAbout(c.known, orders, wishes, base, home);
      LifeDeparts(c.known, life, orders, base, home, s, t, log1[|log0|..], failed, drops, last, c.now, d);
    }
    AllOrders(orders, wishes, last, n);
    life, orders, drops := life + more, orders + Repeated(last, n), drops + d;
    failed := if clean then failed else failed + 1;
    assert AllAbout(c.known, orders, base, home);
    if deleted {
      LivedIsLawful(c.known, life, orders, base, home, s, c.now, c.log[|log0|..], failed, drops);
      Disappears(life, base, home, s, c.now);
    }
    if deleted && Bare(base, home, s) {
      End(c.known, life, orders, base, home, s, c.now, c.log[|log0|..], failed, drops);
      if home.Owner? {
        NoBalancerLeft(base, home, s, c.now);
        EipsEnd(c.known, life, orders, base, s, c.now, c.log[|log0|..], failed, drops);
        BookedForAll(orders, all, s, c.now, failed, drops);
      }
      if failed == 0 && LeavesNoEip(all, home) { NothingGained(all, home, s, c.now, drops); }
    }
  }

  lemma PartsAbout(known: map<string, Id>, wishes: seq<Wish>, last: Order, base: string, home: Home)
    requires AllAbout(known, OrdersOf(wishes) + [last], base, home)
    ensures AllAbout(known, OrdersOf(wishes), base, home) && About(known, last, base, home)
    ensures Wished(wishes, base) && Proper(last) && last.Name() == base
  {
    hide Proper;
    assert last in OrdersOf(wishes) + [last];
    WishesAbout(known, wishes, base, home);
  }

  lemma HealthyIsWellFormed(base: string, home: Home, s: State)
    requires Healthy(base, home, s)
    ensures WellFormed(base, s)
  {
  }

  lemma NoBalancerLeft(base: string, home: Home, s: State, t: State)
    requires home.Owner? && Bare(base, home, s) && Departed(base, home, t)
    ensures (forall x :: !Named(base, s, x)) && forall x :: !Named(base, t, x)
  {
  }

  // ----- the invariants, for actual calls -----

  /** All orders have the source ranges. */
  predicate Ranged(orders: seq<Order>, ranges: seq<string>) {
    forall o :: o in orders ==> Ranges.Normalized(o.spec.sourceRanges) == ranges
  }

  lemma PhasesRanged(life: seq<Phase>, orders: seq<Order>, wishes: seq<Wish>, ranges: seq<string>)
    requires |orders| == |life| && Drawn(orders, wishes) && Ranged(OrdersOf(wishes), ranges)
    requires forall i :: 0 <= i < |life| && life[i].Phase? ==> life[i].cfg.service == orders[i].spec
    ensures Histories.SameRanges(life, ranges)
  {
    forall i | 0 <= i < |life| && life[i].Phase? ensures life[i].cfg.Whitelist() == ranges {
      assert orders[i] in orders;
    }
  }

  /** In the state after any sequence of calls, faults and refusals included, in any home or none: with fixed source
      ranges no listener that the calls made has a pool without its whitelist, and every monitor of the Service has the
      shape of its type. A Service that keeps to an undisputed home leaves everything of others as it is. */
  method LiveSafely(c: Cloud, wishes: seq<Wish>, base: string, ghost home: Home, ghost ranges: seq<string>)
    requires c.Valid() && WellFormed(base, c.now) && Wished(wishes, base)
    modifies c
    ensures ranges != [] && Ranged(OrdersOf(wishes), ranges) ==> Safety.Sheltered(old(c.now), c.now, ranges)
    ensures Safety.ProbesProper(base, old(c.now)) ==> Safety.ProbesProper(base, c.now)
    ensures Healthy(base, home, old(c.now)) && AllAbout(c.known, OrdersOf(wishes), base, home) ==>
              Healthy(base, home, c.now) && Rest(base, home, c.now) == Rest(base, home, old(c.now))
  {
    hide Healthy, Lived, Drawn, Wished, WellFormed, Safety.Sheltered, Safety.ProbesProper, Rest, Lawful, AllAbout,
        Histories.TracedLife, Ranged, Safety.RootedPath;
    ghost var s, log0, life, orders, failed, drops := c.now, c.log, [], [], 0, 0;
    life, orders, failed, drops := Live(c, wishes, base);
    ghost var calls := c.log[|log0|..];
    LivedIsTraced(c.known, life, orders, base, s, c.now, calls, failed, drops);
    LivedIsConsecutive(c.known, life, orders, base, s, c.now, calls, failed, drops);
    if ranges != [] && Ranged(OrdersOf(wishes), ranges) {
      PhasesRanged(life, orders, wishes, ranges);
      Histories.LifeIsSheltered(life, base, s, c.now, ranges);
    }
    if Safety.ProbesProper(base, s) {
      Histories.LifeKeepsMonitorsProper(life, base, s, c.now);
    }
    if Healthy(base, home, s) && AllAbout(c.known, OrdersOf(wishes), base, home) {
      DrawnAbout(c.known, orders, wishes, base, home);
      LivedIsLawful(c.known, life, orders, base, home, s, c.now, calls, failed, drops);
      LifeKeepsRest(life, base, home, s, c.now);
    }
  }

  lemma LivedIsConsecutive(known: map<string, Id>, life: seq<Phase>, orders: seq<Order>, base: string, s: State,
                           t: State, calls: seq<Call>, failed: nat, drops: nat)
    requires Lived(known, life, orders, base, s, t, calls, failed, drops)
    ensures Consecutive(life, s, t) && |orders| == |life|
  {
  }
}

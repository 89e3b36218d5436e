/** The EIP inventory over the calls of a Service and its deletion, complete or not. */
module EipLife {
  import opened Basics
  import opened CloudState
  import opened Service
  import opened Plan
  import opened Steps
  import opened Backend
  import opened Calls
  import opened Lifecycle
  import opened Deletion
  import opened EipBooks
  import opened Life
  import opened WholeLife
  import opened Outcomes
  import Annotations

  /** Two orders for the same Service with the same annotations; ports, nodes and ranges may differ. */
  predicate SameBalancer(a: Order, b: Order) {
    && a.defaults == b.defaults && a.cluster == b.cluster
    && a.spec.namespace == b.spec.namespace && a.spec.name == b.spec.name && a.spec.annotations == b.spec.annotations
  }

  /** While the annotations are those at creation, an EIP to be released was made by the provider: nothing the user
      listed is among the load balancer's EIPs. */
  lemma ReleasedIsOurs(known: map<string, Id>, o: Order, s: State, t: State, lb: Id)
    requires o.Acceptable() && Releases(o) && Created(known, o, s, t, lb)
    ensures o.Settings().eipIds == [] && Listed(t.balancers[lb].publicIps) == {lb + 1}
    ensures t.eips == s.eips + {lb + 1} && lb + 1 !in s.eips
  {
  }

  /** An EIP that the user listed at creation is gone after a successful deletion exactly when the order at deletion
      releases EIPs, which takes a change of annotations. */
  lemma ListedEipGoneIff(known: map<string, Id>, a: Order, b: Order, s: State, t: State, lb: Id, text: string)
    requires a.Acceptable() && b.Acceptable() && Created(known, a, s, t, lb) && IsBalancerOf(known, b, t, lb)
    requires text in a.Settings().eipIds && known[text] in s.eips
    ensures known[text] !in EipsAfter(b, t, lb) <==> Releases(b)
    ensures SameBalancer(a, b) ==> !Releases(b)
  {
    var ips := t.balancers[lb].publicIps;
    var i :| 0 <= i < |a.Settings().eipIds| && a.Settings().eipIds[i] == text;
    assert ips[i] == known[text];
    if SameBalancer(a, b) {
      Annotations.MergedFacts(a.defaults, a.spec.annotations);
    }
  }

  // ----- requests that create a load balancer -----

  /** One of the calls created a load balancer. */
  predicate Creates(calls: seq<Call>) {
    exists i :: 0 <= i < |calls| && calls[i].done && calls[i].op.CreateBalancer?
  }

  lemma CreatesChain(a: seq<Call>, b: seq<Call>)
    ensures Creates(a + b) <==> Creates(a) || Creates(b)
  {
    if Creates(a) {
      var i :| 0 <= i < |a| && a[i].done && a[i].op.CreateBalancer?;
      assert (a + b)[i] == a[i];
    }
    if Creates(b) {
      var i :| 0 <= i < |b| && b[i].done && b[i].op.CreateBalancer?;
      assert (a + b)[|a| + i] == b[i];
    }
  }

  lemma RunCreatesNothing(cfg: Config, verb: Verb, start: State, calls: seq<Call>, now: State)
    requires LegalRun(cfg, verb, start, calls, now)
    ensures !Creates(calls)
  {
    hide Upkeep, Removal;
    forall i | 0 <= i < |calls| ensures !calls[i].op.CreateBalancer? {
      assert LegalCall(cfg, verb, calls[i]);
      NoCreation(cfg, verb, calls[i].pre, calls[i].why, calls[i].op);
    }
  }

  lemma NoCreation(cfg: Config, verb: Verb, s: State, why: Purpose, op: Op)
    requires Justified(cfg, verb, s, why, op)
    ensures !op.CreateBalancer?
  {
  }

  lemma ClosingCreatesNothing(o: Order, lb: Id, ips: seq<Id>, calls: seq<Call>, s: State, t: State)
    requires o.Acceptable() && Closing(o, lb, ips, calls, s, t)
    ensures !Creates(calls)
  {
  }

  lemma DepartingCreatesNothing(c: Cloud, o: Order, cfg: Config, run: Run, mid: Handover)
    requires o.Acceptable() && Departing(c, o, cfg, run, mid)
    ensures !Creates(c.log[|run.before|..])
  {
    hide LegalRun, Closing, Creates;
    var first, closing := mid.log[|run.before|..], c.log[|mid.log|..];
    RunCreatesNothing(cfg, Deleting, run.start, first, mid.at);
    ClosingCreatesNothing(o, cfg.lb, run.start.balancers[cfg.lb].publicIps, closing, mid.at, c.now);
    CreatesChain(first, closing);
    LogSplit(run.before, mid.log, c.log);
  }

  lemma {:induction false} OpeningCreates(known: map<string, Id>, o: Order, calls: seq<Call>, s: State, t: State)
    requires o.Acceptable() && Opening(known, o, calls, s, t) && calls != []
    ensures Creates(calls) <==> exists x :: Named(o.Name(), t, x)
    decreases |calls|
  {
    hide Creates, Happened, Creatable, CreationOf, IsBalancerOf, Named, Opening;
    var n := |calls| - 1;
    OpeningParts(known, o, calls, s, t);
    LastOpening(known, o, calls[n]);
    if n > 0 {
      OpeningCreates(known, o, calls[..n], s, calls[n].pre);
    } else {
      NoCallsCreate();
    }
    CreatesChain(calls[..n], [calls[n]]);
    assert calls == calls[..n] + [calls[n]];
  }

  lemma OpeningParts(known: map<string, Id>, o: Order, calls: seq<Call>, s: State, t: State)
    requires o.Acceptable() && Opening(known, o, calls, s, t) && calls != []
    ensures var n := |calls| - 1;
            && Opening(known, o, calls[..n], s, calls[n].pre) && calls[n].post == t && Happened(calls[n])
            && Creatable(known, o) && calls[n].op == CreationOf(known, o)
            && forall x :: !IsBalancerOf(known, o, calls[n].pre, x)
  {
    hide Happened, Creatable, CreationOf, IsBalancerOf;
  }

  lemma LastOpening(known: map<string, Id>, o: Order, c: Call)
    requires o.Acceptable() && Happened(c) && Creatable(known, o) && c.op == CreationOf(known, o)
    requires forall x :: !IsBalancerOf(known, o, c.pre, x)
    ensures forall x :: !Named(o.Name(), c.pre, x)
    ensures Creates([c]) <==> exists x :: Named(o.Name(), c.post, x)
  {
    assert forall x :: Named(o.Name(), c.pre, x) ==> IsBalancerOf(known, o, c.pre, x);
    if c.done {
      assert [c][0].done;
      assert Named(o.Name(), c.post, c.id);
    }
  }

  /** The phase comes from a call for an order of the Service, without a shared load balancer. */
  ghost predicate ForOwn(known: map<string, Id>, ph: Phase, o: Order, base: string) {
    Recorded(known, ph, o) && o.Name() == base && o.Acceptable() && !ById(o)
  }

  /** The Service has a load balancer after a phase that drops none, if it had one before or the phase created one. */
  lemma PhaseCreates(known: map<string, Id>, o: Order, base: string, ph: Phase)
    requires ForOwn(known, ph, o, base) && !Drops(base, ph)
    ensures (exists x :: Named(base, ph.end, x)) <==> Creates(ph.calls) || exists x :: Named(base, ph.start, x)
  {
    hide LegalRun, Opening, Closing, Creates, Sound;
    match ph {
      case Phase(cfg, verb, s, calls, t) =>
        RunCreatesNothing(cfg, verb, s, calls, t);
        RunSparesBalancers(cfg, verb, s, calls, t);
        assert forall x :: Named(o.Name(), t, x) <==> Named(o.Name(), s, x);
      case Errand(s, calls, t) =>
        if Opening(known, o, calls, s, t) {
          OpeningCreates(known, o, calls, s, t);
          OpeningFindsNone(known, o, calls, s, t);
        } else {
          var lb :| IsBalancerOf(known, o, s, lb) && Closing(o, lb, s.balancers[lb].publicIps, calls, s, t);
          ClosingEffect(o, lb, s.balancers[lb].publicIps, calls, s, t);
          ClosingCreatesNothing(o, lb, s.balancers[lb].publicIps, calls, s, t);
          assert Named(o.Name(), s, lb);
          assert forall x :: Named(o.Name(), t, x) <==> Named(o.Name(), s, x);
        }
    }
  }

  lemma OpeningFindsNone(known: map<string, Id>, o: Order, calls: seq<Call>, s: State, t: State)
    requires o.Acceptable() && !ById(o) && Opening(known, o, calls, s, t) && calls != []
    ensures forall x :: !Named(o.Name(), s, x)
  {
    if x :| Named(o.Name(), s, x) {
      OpeningIsEmpty(known, o, calls, s, t, x);
    }
  }

  lemma {:induction false} LifeCreates(known: map<string, Id>, life: seq<Phase>, orders: seq<Order>, base: string,
                                       s: State, t: State)
    requires Consecutive(life, s, t) && |orders| == |life| && Dropped(base, life) == 0
    requires forall i :: 0 <= i < |life| ==> ForOwn(known, life[i], orders[i], base)
    requires forall x :: !Named(base, s, x)
    ensures (exists x :: Named(base, t, x)) <==> Creates(CallsOf(life))
    decreases |life|
  {
    hide ForOwn, Drops, Creates, Named;
    if life == [] {
      NoCallsCreate();
    } else {
      var n := |life| - 1;
      LifeCreates(known, life[..n], orders[..n], base, s, life[n].start);
      PhaseCreates(known, orders[n], base, life[n]);
      CreatesChain(CallsOf(life[..n]), life[n].calls);
    }
  }

  lemma NoCallsCreate()
    ensures !Creates([])
  {
  }

  /** A successful deletion releases exactly the EIPs that the load balancer has at that time, if the order says so. */
  method Delete(c: Cloud, o: Order) returns (r: Reply, ghost found: Option<Id>)
    requires c.Valid() && Proper(o) && WellFormed(o.Name(), c.now) && o.Acceptable()
    modifies c
    ensures c.Valid() && c.faults >= old(c.faults) && WellFormed(o.Name(), c.now)
    ensures old(c.log) <= c.log && !Creates(c.log[|old(c.log)|..])
    ensures r == Ok && found.None? ==> c.now == old(c.now) && forall x :: !IsBalancerOf(c.known, o, old(c.now), x)
    ensures found.Some? ==> IsBalancerOf(c.known, o, old(c.now), found.value)
    ensures r == Ok && found.Some? ==> c.now.eips == EipsAfter(o, old(c.now), found.value)
    ensures r == Ok && found.Some? ==>
              forall e :: e in old(c.now).eips ==>
                (e !in c.now.eips <==> e in old(c.now).balancers[found.value].publicIps && Releases(o))
    ensures c.faults == old(c.faults) ==> r == Ok
  {
    hide WellFormed, Proper, Swept, Orphans, Departing, Creates;
    ghost var log0, how, mid := c.log, Nowhere, Handover(c.now, c.log);
    r, how, mid := EnsureLoadBalancerDeleted(c, o);
    if how.Running? {
      DepartingCreatesNothing(c, o, how.cfg, how.run, mid);
    } else {
      assert c.log[|log0|..] == [];
      NoCallsCreate();
    }
    found := if how.Running? then Some(how.cfg.lb) else None;
  }

  /** The EIPs of load balancer `lb` in `s` that the order releases are all gone from `t`. */
  predicate Released(s: State, lb: Id, t: State)
    requires lb in s.balancers
  {
    Listed(s.balancers[lb].publicIps) !! t.eips
  }

  lemma StillOurs(c: Cloud, o: Order, s: State, t: State, lb: Id)
    requires o.Acceptable() && IsBalancerOf(c.known, o, s, lb)
             && (forall x :: IsBalancerOf(c.known, o, s, x) ==> x == lb)
    requires t.balancers == s.balancers || t.balancers == s.balancers - {lb}
    ensures forall x :: IsBalancerOf(c.known, o, t, x) ==> x == lb
    ensures (exists x :: IsBalancerOf(c.known, o, t, x)) <==> lb in t.balancers
    ensures lb in t.balancers ==> t.balancers[lb] == s.balancers[lb]
  {
    forall x | IsBalancerOf(c.known, o, t, x) ensures x == lb {
      assert IsBalancerOf(c.known, o, s, x);
    }
    assert lb in t.balancers ==> IsBalancerOf(c.known, o, t, lb);
  }

  /** A deletion that failed is repeated with success: the EIPs are released exactly when the first call left the load
      balancer in place or had released them itself. Otherwise they stay behind, since the repeated call returns at
      once. */
  method DeleteTwice(c: Cloud, o: Order, ghost lb: Id) returns (first: Reply, second: Reply, ghost between: State)
    requires c.Valid() && Proper(o) && WellFormed(o.Name(), c.now) && o.Acceptable() && Releases(o)
    requires IsBalancerOf(c.known, o, c.now, lb) && forall x :: IsBalancerOf(c.known, o, c.now, x) ==> x == lb
    modifies c
    ensures between.eips <= old(c.now).eips
    ensures second == Ok ==>
              (Released(old(c.now), lb, c.now) <==> lb in between.balancers || Released(old(c.now), lb, between))
  {
    hide WellFormed, Proper, Swept, Orphans, IsBalancerOf;
    ghost var s, how, later, mid := c.now, Nowhere, Nowhere, Handover(c.now, c.log);
    first, how, mid := EnsureLoadBalancerDeleted(c, o);
    between := c.now;
    StillOurs(c, o, s, between, lb);
    second, later, mid := EnsureLoadBalancerDeleted(c, o);
  }

  // ----- calls with fixed annotations, and then the deletion -----

  /** Every wish is for the load balancer of the order, and none is a deletion. */
  predicate Serving(wishes: seq<Wish>, o: Order) {
    forall w :: w in wishes ==> !w.Delete? && Proper(w.order) && SameBalancer(w.order, o)
  }

  lemma SameNameAndSettings(a: Order, b: Order)
    requires SameBalancer(a, b)
    ensures a.Name() == b.Name() && a.Acceptable() == b.Acceptable()
    ensures a.Acceptable() ==> a.Settings() == b.Settings()
  {
  }

  lemma ServingFacts(known: map<string, Id>, wishes: seq<Wish>, orders: seq<Order>, o: Order)
    requires Serving(wishes, o) && Drawn(orders, wishes) && o.Acceptable() && !ById(o)
    ensures Wished(wishes, o.Name()) && AllAbout(known, orders, o.Name(), Owner)
    ensures forall x :: x in orders ==> x.Acceptable() && x.Settings() == o.Settings()
  {
    hide Proper, SameBalancer;
    forall w | w in wishes ensures w.order.Name() == o.Name() {
      SameNameAndSettings(w.order, o);
    }
    forall x | x in orders
      ensures Proper(x) && x.Name() == o.Name() && x.Acceptable() && x.Settings() == o.Settings() && !ById(x)
    {
      var i :| 0 <= i < |wishes| && wishes[i].order == x;
      assert wishes[i] in wishes;
      SameNameAndSettings(x, o);
    }
  }

  /** While the load balancer stays, so do the EIPs: the book holds the EIPs from before. */
  lemma ServedBooks(known: map<string, Id>, life: seq<Phase>, orders: seq<Order>, base: string, s: State, t: State,
                    calls: seq<Call>, failed: nat)
    requires Lived(known, life, orders, base, s, t, calls, failed, 0) && AllAbout(known, orders, base, Owner)
    requires NewEips(orders) && forall x :: !Named(base, s, x)
    ensures Books(base, t, s.eips)
  {
    hide Posted, Books, Named, Recorded, About, Consecutive, CallsOf, Messy, Leaked, Releases;
    LivedIsPosted(known, life, orders, base, s, t, calls, failed, 0);
    SpillsAreDrops(base, life);
    forall i | 0 <= i < |life|
      ensures orders[i].Acceptable() && Posted(known, orders[i], base, life[i])
      ensures orders[i].Settings().eipBandwidth > 0
    {
      PostedAccepts(known, orders[i], base, life[i]);
    }
    var kept := LifeKeepsBooks(known, life, orders, base, s, t);
    NoneMore(s.eips, kept);
  }

  lemma NoneMore(a: set<Id>, b: set<Id>)
    requires a <= b && |b - a| == 0
    ensures a == b
  {
    assert b == a + (b - a);
  }

  lemma LivedSparesEips(known: map<string, Id>, life: seq<Phase>, orders: seq<Order>, base: string, s: State, t: State,
                        calls: seq<Call>, failed: nat, drops: nat)
    requires Lived(known, life, orders, base, s, t, calls, failed, drops) && AllAbout(known, orders, base, Owner)
    requires NoNewEips(orders)
    ensures t.eips == s.eips
  {
    hide Posted, Recorded, About;
    LivedIsPosted(known, life, orders, base, s, t, calls, failed, drops);
    OldEipsStay(known, life, orders, base, s, t);
  }

  /** The EIPs `now` are those before, and one more if there `was` a load balancer with a new EIP that is kept. */
  ghost predicate Conserved(o: Order, was: bool, before: set<Id>, now: set<Id>)
    requires o.Acceptable()
  {
    if was && o.Settings().eipBandwidth > 0 && Annotations.SaysKeep(o.spec.annotations)
    then exists e :: e !in before && now == before + {e}
    else now == before
  }

  lemma DeletionConserves(known: map<string, Id>, o: Order, before: set<Id>, s: State, t: State, found: Option<Id>)
    requires o.Acceptable() && !ById(o) && o.Settings().eipBandwidth > 0 && Books(o.Name(), s, before)
    requires found.None? ==> t == s && forall x :: !IsBalancerOf(known, o, s, x)
    requires found.Some? ==> IsBalancerOf(known, o, s, found.value) && t.eips == EipsAfter(o, s, found.value)
    ensures Conserved(o, found.Some?, before, t.eips)
  {
    var base := o.Name();
    Annotations.KeepIffSaid(o.defaults, o.spec.annotations);
    assert forall x :: Named(base, s, x) <==> IsBalancerOf(known, o, s, x);
    if found.Some? {
      var lb, e :| Entry(base, s, before, lb, e);
      assert Named(base, s, found.value);
      assert Listed([e]) == {e};
    }
  }

  /** The balance of EIPs: from no load balancer of its own, any reconciliations and node updates with unchanged
      annotations, whatever fails in them, and then a successful deletion leave the EIPs as they were, or one more if
      a load balancer was created and its new EIP is kept. Without faults in it the deletion succeeds. */
  method ServeThenDelete(c: Cloud, wishes: seq<Wish>, o: Order)
    returns (deleted: bool, ghost late: nat, ghost had: bool)
    requires c.Valid() && Proper(o) && o.Acceptable() && !ById(o) && WellFormed(o.Name(), c.now)
    requires Serving(wishes, o) && forall x :: !IsBalancerOf(c.known, o, c.now, x)
    modifies c
    ensures late <= c.faults && (c.faults == late ==> deleted)
    ensures old(c.log) <= c.log && had == Creates(c.log[|old(c.log)|..])
    ensures deleted ==> Conserved(o, had, old(c.now).eips, c.now.eips)
  {
    hide Proper, WellFormed, Lived, SameBalancer, Books, Conserved, AllAbout, Posted, Creates;
    ghost var s, log0, base := c.now, c.log, o.Name();
    ghost var life, orders, failed, drops := [], [], 0, 0;
    assert forall x :: Named(base, s, x) ==> IsBalancerOf(c.known, o, s, x);
    NothingDrawn(wishes);
    ServingFacts(c.known, wishes, [], o);
    life, orders, failed, drops := Live(c, wishes, o.Name());
    ServingFacts(c.known, wishes, orders, o);
    ghost var t, calls := c.now, c.log[|log0|..];
    late := c.faults;
    var r;
    ghost var found, log1 := None, c.log;
    r, found := Delete(c, o);
    LogSplit(log0, log1, c.log);
    CreatesChain(calls, c.log[|log1|..]);
    deleted, had := r == Ok, Creates(c.log[|log0|..]);
    if deleted {
      LivedCreates(c.known, life, orders, o, s, t, calls, failed);
      assert found.Some? ==> Named(base, t, found.value);
      assert forall x :: Named(base, t, x) ==> IsBalancerOf(c.known, o, t, x);
      assert had <==> found.Some?;
      Annotations.MergedFacts(o.defaults, o.spec.annotations);
      if o.Settings().eipBandwidth > 0 {
        ServedBooks(c.known, life, orders, base, s, t, calls, failed);
        DeletionConserves(c.known, o, s.eips, t, c.now, found);
      } else {
        LivedSparesEips(c.known, life, orders, base, s, t, calls, failed, drops);
        NoNewEip(o, had, s.eips);
      }
    }
  }

  lemma LivedCreates(known: map<string, Id>, life: seq<Phase>, orders: seq<Order>, o: Order, s: State, t: State,
                     calls: seq<Call>, failed: nat)
    requires Lived(known, life, orders, o.Name(), s, t, calls, failed, 0)
    requires AllAbout(known, orders, o.Name(), Owner) && forall x :: !Named(o.Name(), s, x)
    ensures (exists x :: Named(o.Name(), t, x)) <==> Creates(calls)
  {
    hide Recorded, Drops, Creates, Named, Leaked, Messy, Dropped, Spilled, Proper;
    forall i | 0 <= i < |life| ensures ForOwn(known, life[i], orders[i], o.Name()) {
      RecordedAccepts(known, life[i], orders[i]);
      assert About(known, orders[i], o.Name(), Owner);
    }
    LifeCreates(known, life, orders, o.Name(), s, t);
  }

  lemma NoNewEip(o: Order, had: bool, before: set<Id>)
    requires o.Acceptable() && o.Settings().eipBandwidth == 0
    ensures Conserved(o, had, before, before)
  {
  }
}

/** The entry points called one after the other for one Service, on a shared load balancer or on one of its own, and the
    final deletion. */
module WholeLife {
  import opened Basics
  import opened CloudState
  import opened Service
  import opened Plan
  import opened Steps
  import opened Backend
  import opened Calls
  import opened Reconciler
  import opened Reconcile
  import opened Lifecycle
  import opened NodeUpdate
  import opened Deletion
  import opened EipBooks
  import opened Life
  import opened Meaning
  import Annotations
  import Histories
  import Rollover
  import Safety

  /** One wish of Kubernetes: a full reconciliation, new nodes only, or the deletion. */
  datatype Wish = Ensure(order: Order) | Update(order: Order) | Delete(order: Order)

  // ----- what one call adds to a life -----

  /** The phase comes from a call for the order: a legal run on the load balancer of the order, for its spec and
      settings, or requests on that load balancer. */
  ghost predicate Recorded(known: map<string, Id>, ph: Phase, o: Order) {
    && o.Acceptable()
    && match ph
       case Phase(cfg, verb, start, calls, end) =>
         && LegalRun(cfg, verb, start, calls, end) && Sound(cfg) && Safety.RootedPath(cfg)
         && IsBalancerOf(known, o, start, cfg.lb) && cfg == ConfigFor(o, cfg.lb, start.balancers[cfg.lb])
       case Errand(start, calls, end) =>
         calls != [] && ErrandFor(known, o, calls, start, end)
  }

  /** What a call for the order adds to the life: all its requests, in phases of which at most one leaves an IP group
      unbound, and none if the call is clean; `drops` load balancers go, and an EIP to be released stays behind only if
      the call is not clean. */
  ghost predicate Stretch(known: map<string, Id>, more: seq<Phase>, o: Order, s: State, t: State, calls: seq<Call>,
                          clean: bool, drops: nat)
  {
    var unclean := if clean then 0 else 1;
    && Consecutive(more, s, t) && CallsOf(more) == calls
    && (forall i :: 0 <= i < |more| ==>
          Recorded(known, more[i], o) && |Leaked(o.Name(), more[i].start, more[i].end)| <= 1)
    && Messy(o.Name(), more) <= unclean && Dropped(o.Name(), more) == drops
    && (o.Acceptable() && Releases(o) ==> Spilled(o.Name(), more) <= unclean)
  }

  lemma NoStretch(known: map<string, Id>, o: Order, s: State, clean: bool)
    ensures Stretch(known, [], o, s, s, [], clean, 0)
  {
  }

  /** An errand without requests is none. */
  function Noted(start: State, calls: seq<Call>, end: State): seq<Phase> {
    if calls == [] then [] else [Errand(start, calls, end)]
  }

  lemma ErrandHangs(known: map<string, Id>, o: Order, calls: seq<Call>, s: State, t: State)
    requires o.Acceptable() && ErrandFor(known, o, calls, s, t)
    ensures Hanging(t) == Hanging(s) && Leaked(o.Name(), s, t) == {}
  {
    hide Opening, Closing, Created;
    if Opening(known, o, calls, s, t) {
      OpeningEffect(known, o, calls, s, t);
      if t != s {
        var lb :| Created(known, o, s, t, lb);
        CreatedHangs(known, o, s, t, lb);
      }
    } else {
      var lb :| IsBalancerOf(known, o, s, lb) && Closing(o, lb, s.balancers[lb].publicIps, calls, s, t);
      ClosingEffect(o, lb, s.balancers[lb].publicIps, calls, s, t);
    }
    HangingKeepsOrphans(o.Name(), s, t);
  }

  lemma CreatedHangs(known: map<string, Id>, o: Order, s: State, t: State, lb: Id)
    requires o.Acceptable() && Created(known, o, s, t, lb)
    ensures Hanging(t) == Hanging(s)
  {
  }

  lemma OneErrand(known: map<string, Id>, o: Order, calls: seq<Call>, s: State, t: State, drops: nat, clean: bool)
    requires o.Acceptable() && ErrandFor(known, o, calls, s, t) && (calls == [] ==> t == s)
    requires drops == if Drops(o.Name(), Errand(s, calls, t)) then 1 else 0
    requires clean && Releases(o) ==> !Spills(o.Name(), Errand(s, calls, t))
    ensures Stretch(known, Noted(s, calls, t), o, s, t, calls, clean, drops)
  {
    hide ErrandFor, Orphans;
    ErrandHangs(known, o, calls, s, t);
    if calls == [] {
      NothingDropped(o.Name(), s);
    } else {
      Single(o.Name(), Errand(s, calls, t));
    }
  }

  lemma NothingDropped(base: string, s: State)
    ensures !Drops(base, Errand(s, [], s)) && !Spills(base, Errand(s, [], s))
  {
  }

  lemma OneRun(known: map<string, Id>, o: Order, ph: Phase, clean: bool)
    requires ph.Phase? && Recorded(known, ph, o) && |Leaked(o.Name(), ph.start, ph.end)| <= 1
    requires clean ==> Leaked(o.Name(), ph.start, ph.end) == {}
    ensures Stretch(known, [ph], o, ph.start, ph.end, ph.calls, clean, 0)
  {
    hide Recorded, Orphans;
    Single(o.Name(), ph);
  }

  lemma Single(base: string, ph: Phase)
    ensures Consecutive([ph], ph.start, ph.end) && CallsOf([ph]) == ph.calls
    ensures Messy(base, [ph]) == (if Clean(base, ph) then 0 else 1)
    ensures Dropped(base, [ph]) == (if Drops(base, ph) then 1 else 0)
    ensures Spilled(base, [ph]) == if Spills(base, ph) then 1 else 0
  {
    hide Clean, Drops, Spills;
    var life := [ph];
    assert life[..0] == [] && CallsOf([]) + ph.calls == ph.calls;
  }

  /** A stretch that is clean whatever happens can be followed by any other. */
  lemma TwoStretches(known: map<string, Id>, a: seq<Phase>, b: seq<Phase>, o: Order, s: State, t: State, u: State,
                     first: seq<Call>, second: seq<Call>, early: bool, late: bool, d: nat, e: nat)
    requires Stretch(known, a, o, s, t, first, early, d) && Stretch(known, b, o, t, u, second, late, e)
    requires early || late
    ensures Stretch(known, a + b, o, s, u, first + second, early && late, d + e)
  {
    hide Recorded, Orphans, Releases;
    ConsecutiveChain(a, b, s, t, u);
    CallsChain(a, b);
    MessyChain(o.Name(), a, b);
    CountsChain(o.Name(), a, b);
  }

  // ----- one call -----

  lemma RunIsRecorded(c: Cloud, o: Order, cfg: Config, verb: Verb, start: State, calls: seq<Call>, end: State)
    requires o.Acceptable() && LegalRun(cfg, verb, start, calls, end) && Sound(cfg)
    requires IsBalancerOf(c.known, o, start, cfg.lb) && cfg == ConfigFor(o, cfg.lb, start.balancers[cfg.lb])
    ensures Recorded(c.known, Phase(cfg, verb, start, calls, end), o)
  {
    Annotations.MergedFacts(o.defaults, o.spec.annotations);
  }

  lemma OpeningStretch(known: map<string, Id>, o: Order, calls: seq<Call>, s: State, t: State)
    requires o.Acceptable() && Opening(known, o, calls, s, t)
    ensures Stretch(known, Noted(s, calls, t), o, s, t, calls, true, 0)
  {
    hide Opening, Stretch;
    assert ErrandFor(known, o, calls, s, t);
    OpeningDropsNothing(known, o, o.Name(), Errand(s, calls, t));
    OpeningEmptyStays(known, o, calls, s, t);
    OneErrand(known, o, calls, s, t, 0, true);
  }

  lemma OpeningEmptyStays(known: map<string, Id>, o: Order, calls: seq<Call>, s: State, t: State)
    requires o.Acceptable() && Opening(known, o, calls, s, t)
    ensures calls == [] ==> t == s
  {
  }

  lemma SameLeak(base: string, s: State, t: State, u: State)
    requires Hanging(t) == Hanging(s)
    ensures Leaked(base, t, u) == Leaked(base, s, u) && Leaked(base, u, t) == Leaked(base, u, s)
  {
    HangingKeepsOrphans(base, s, t);
  }

  method FulfilEnsure(c: Cloud, o: Order) returns (ok: bool, ghost more: seq<Phase>)
    requires c.Valid() && Proper(o) && WellFormed(o.Name(), c.now)
    modifies c
    ensures c.Valid() && WellFormed(o.Name(), c.now) && c.faults >= old(c.faults) && old(c.log) <= c.log
    ensures Stretch(c.known, more, o, old(c.now), c.now, c.log[|old(c.log)|..], ok || c.faults == old(c.faults), 0)
  {
    hide WellFormed, LegalRun, Opening, NoStale, Converged, Feasible, Creatable, Created, Proper, Orphans, Stretch,
        Sound;
    ghost var s, log0, faults := c.now, c.log, c.faults;
    var r, balancer;
    ghost var how;
    r, balancer, how := EnsureLoadBalancer(c, o);
    ok := r == Ok;
    ghost var clean := ok || c.faults == faults;
    SupportedIsAcceptable(o);
    if Supported(o) {
      ghost var opening, mid := LogBefore(c, how)[|log0|..], StateBefore(c, how);
      OpeningStretch(c.known, o, opening, s, mid);
      more := Noted(s, opening, mid);
      if how.Running? {
        ghost var run := c.log[|how.run.before|..];
        ghost var ph := Phase(how.cfg, Ensuring, mid, run, c.now);
        RunIsRecorded(c, o, how.cfg, Ensuring, mid, run, c.now);
        assert ErrandFor(c.known, o, opening, s, mid);
        ErrandHangs(c.known, o, opening, s, mid);
        SameLeak(o.Name(), s, mid, c.now);
        OneRun(c.known, o, ph, clean);
        TwoStretches(c.known, more, [ph], o, s, mid, c.now, opening, run, true, clean, 0, 0);
        LogSplit(log0, how.run.before, c.log);
        more := more + [ph];
      } else {
        Forgiving(c.known, more, o, s, c.now, opening, clean, 0);
      }
    } else {
      more := [];
      NoStretch(c.known, o, s, clean);
      assert c.log[|log0|..] == [];
    }
  }

  lemma Forgiving(known: map<string, Id>, more: seq<Phase>, o: Order, s: State, t: State, calls: seq<Call>, clean: bool,
                  drops: nat)
    requires Stretch(known, more, o, s, t, calls, true, drops)
    ensures Stretch(known, more, o, s, t, calls, clean, drops)
  {
    hide Recorded, Releases, Orphans;
  }

  method FulfilUpdate(c: Cloud, o: Order) returns (ok: bool, ghost more: seq<Phase>)
    requires c.Valid() && Proper(o) && WellFormed(o.Name(), c.now)
    modifies c
    ensures c.Valid() && WellFormed(o.Name(), c.now) && c.faults >= old(c.faults) && old(c.log) <= c.log
    ensures Stretch(c.known, more, o, old(c.now), c.now, c.log[|old(c.log)|..], ok || c.faults == old(c.faults), 0)
  {
    hide WellFormed, LegalRun, Proper, Orphans, Stretch, Reachable, Rollover.Staffed, Sound, Recorded;
    ghost var s, log0, faults := c.now, c.log, c.faults;
    var r;
    ghost var how;
    r, how := UpdateLoadBalancer(c, o);
    ok := r == Ok;
    ghost var clean := ok || c.faults == faults;
    if how.Running? {
      ghost var ph := Phase(how.cfg, Updating, s, c.log[|log0|..], c.now);
      RunIsRecorded(c, o, how.cfg, Updating, s, c.log[|log0|..], c.now);
      SameOrphans(o.Name(), s, c.now);
      OneRun(c.known, o, ph, clean);
      more := [ph];
    } else {
      more := [];
      NoStretch(c.known, o, s, clean);
      assert c.log[|log0|..] == [];
    }
  }

  lemma SameOrphans(base: string, s: State, t: State)
    requires t == s.(members := t.members)
    ensures Leaked(base, s, t) == {}
  {
  }

  /** What a successful deletion has done: there was no load balancer, or the listeners that had to go are gone, and so
      is the load balancer if it was not shared. */
  ghost predicate Dissolved(known: map<string, Id>, o: Order, s: State, t: State, drops: nat)
    requires o.Acceptable()
  {
    || (t == s && drops == 0 && forall lb :: !IsBalancerOf(known, o, s, lb))
    || (exists lb ::
          && IsBalancerOf(known, o, s, lb) && Swept(ConfigFor(o, lb, s.balancers[lb]), t)
          && (!ById(o) ==> t.balancers == s.balancers - {lb} && drops == 1))
  }

  lemma ClosingDrops(o: Order, lb: Id, calls: seq<Call>, s: State, t: State)
    requires o.Acceptable() && lb in s.balancers && Closing(o, lb, s.balancers[lb].publicIps, calls, s, t)
    requires !ById(o) ==> Named(o.Name(), s, lb)
    ensures calls == [] ==> t == s
    ensures ById(o) ==> calls == []
    ensures t.balancers == s.balancers || t.balancers == s.balancers - {lb}
    ensures Drops(o.Name(), Errand(s, calls, t)) <==> lb !in t.balancers
    ensures t.eips == s.eips - Listed(s.balancers[lb].publicIps) ==> !Spills(o.Name(), Errand(s, calls, t))
    ensures lb in t.balancers ==> !Spills(o.Name(), Errand(s, calls, t))
  {
    ClosingEffect(o, lb, s.balancers[lb].publicIps, calls, s, t);
    if calls != [] {
      assert MayClose(o, lb, s.balancers[lb].publicIps, calls[0].pre, calls[0].op);
    }
  }

  /** The phases of a deletion that reached the listeners at `run.start` and left them at `mid`. */
  lemma DeletionStretch(c: Cloud, o: Order, cfg: Config, run: Run, mid: Handover, clean: bool)
    returns (more: seq<Phase>)
    requires o.Acceptable() && Departing(c, o, cfg, run, mid) && IsBalancerOf(c.known, o, run.start, cfg.lb)
    requires cfg == ConfigFor(o, cfg.lb, run.start.balancers[cfg.lb])
    requires |Leaked(o.Name(), run.start, c.now)| <= 1 && (clean ==> Leaked(o.Name(), run.start, c.now) == {})
    requires clean ==> cfg.lb in c.now.balancers || c.now.eips == EipsAfter(o, run.start, cfg.lb)
    ensures Stretch(c.known, more, o, run.start, c.now, c.log[|run.before|..], clean,
                    if cfg.lb in c.now.balancers then 0 else 1)
  {
    hide WellFormed, LegalRun, Closing, Orphans, Stretch, Sound, Recorded, Swept, Drops, Spills, Noted;
    var s, lb := run.start, cfg.lb;
    var first, closing := mid.log[|run.before|..], c.log[|mid.log|..];
    var drops := if lb in c.now.balancers then 0 else 1;
    RunSparesBalancers(cfg, Deleting, s, first, mid.at);
    ClosingDrops(o, lb, closing, mid.at, c.now);
    assert ErrandFor(c.known, o, closing, mid.at, c.now);
    ErrandHangs(c.known, o, closing, mid.at, c.now);
    SameLeak(o.Name(), c.now, mid.at, s);
    var ph := Phase(cfg, Deleting, s, first, mid.at);
    RunIsRecorded(c, o, cfg, Deleting, s, first, mid.at);
    OneRun(c.known, o, ph, closing != [] || clean);
    OneErrand(c.known, o, closing, mid.at, c.now, drops, closing == [] || clean);
    TwoStretches(c.known, [ph], Noted(mid.at, closing, c.now), o, s, mid.at, c.now, first, closing,
                 closing != [] || clean, closing == [] || clean, 0, drops);
    LogSplit(run.before, mid.log, c.log);
    more := [ph] + Noted(mid.at, closing, c.now);
  }

  method FulfilDelete(c: Cloud, o: Order) returns (ok: bool, ghost more: seq<Phase>, ghost drops: nat)
    requires c.Valid() && Proper(o) && WellFormed(o.Name(), c.now)
    modifies c
    ensures c.Valid() && WellFormed(o.Name(), c.now) && c.faults >= old(c.faults) && old(c.log) <= c.log
    ensures Stretch(c.known, more, o, old(c.now), c.now, c.log[|old(c.log)|..], ok || c.faults == old(c.faults), drops)
    ensures ok ==> o.Acceptable() && Dissolved(c.known, o, old(c.now), c.now, drops)
    ensures c.faults == old(c.faults) && o.Acceptable() ==> ok
  {
    hide WellFormed, Proper, Orphans, Stretch, Swept, Departing, Releases;
    ghost var s, log0, faults := c.now, c.log, c.faults;
    var r;
    ghost var how, mid;
    r, how, mid := EnsureLoadBalancerDeleted(c, o);
    ok := r == Ok;
    ghost var clean := ok || c.faults == faults;
    drops := 0;
    if how.Running? {
      drops := if how.cfg.lb in c.now.balancers then 0 else 1;
      more := DeletionStretch(c, o, how.cfg, how.run, mid, clean);
    } else {
      more := [];
      NoStretch(c.known, o, s, clean);
      assert c.log[|log0|..] == [];
    }
  }

  method Fulfil(c: Cloud, w: Wish) returns (ok: bool, ghost more: seq<Phase>, ghost drops: nat)
    requires c.Valid() && Proper(w.order) && WellFormed(w.order.Name(), c.now)
    modifies c
    ensures c.Valid() && WellFormed(w.order.Name(), c.now) && c.faults >= old(c.faults) && old(c.log) <= c.log
    ensures Stretch(c.known, more, w.order, old(c.now), c.now, c.log[|old(c.log)|..], ok || c.faults == old(c.faults),
                    drops)
    ensures !w.Delete? ==> drops == 0
    ensures w.Delete? && ok ==> w.order.Acceptable() && Dissolved(c.known, w.order, old(c.now), c.now, drops)
    ensures w.Delete? && c.faults == old(c.faults) && w.order.Acceptable() ==> ok
  {
    drops := 0;
    match w {
      case Ensure(o) => ok, more := FulfilEnsure(c, o);
      case Update(o) => ok, more := FulfilUpdate(c, o);
      case Delete(o) => ok, more, drops := FulfilDelete(c, o);
    }
  }

  // ----- what the requests of a call say -----

  /** A request on the load balancer itself or its EIPs: a load balancer is made as the order says, while there is none;
      the Service's own is deleted once it is empty; an EIP is released only if the annotations say so. */
  ghost predicate BalancerRequestMeant(known: map<string, Id>, o: Order, s: State, op: Op)
    requires o.Acceptable()
  {
    && o.Settings().balancerId == ""
    && match op
       case CreateBalancer(name, subnet, eipIds, newEip) =>
         && (forall x :: x in s.balancers ==> s.balancers[x].name != o.Name())
         && name == o.Name() && subnet == o.Settings().subnet && subnet != "" && o.Settings().zones != []
         && |eipIds| == |o.Settings().eipIds|
         && (forall i :: 0 <= i < |eipIds| ==>
               o.Settings().eipIds[i] in known && eipIds[i] == known[o.Settings().eipIds[i]])
         && (newEip <==> o.Settings().eipBandwidth > 0)
       case DeleteBalancer(lb) =>
         && lb in s.balancers && s.balancers[lb].name == o.Name()
         && forall l :: l in s.listeners ==> s.listeners[l].lb != lb
       case DeleteEip(_) => o.Settings().eipBandwidth > 0 && !o.Settings().eipKeep
       case _ => false
  }

  /** Every request of the phase says what the order asks for. */
  ghost predicate AskedFor(known: map<string, Id>, ph: Phase, o: Order) {
    && o.Acceptable()
    && match ph
       case Phase(cfg, verb, _, calls, _) =>
         forall i :: 0 <= i < |calls| ==>
           Tailored(known, cfg, o, calls[i].pre) && RequestMeant(cfg, verb, calls[i].pre, calls[i].why, calls[i].op)
       case Errand(_, calls, _) =>
         forall i :: 0 <= i < |calls| ==> BalancerRequestMeant(known, o, calls[i].pre, calls[i].op)
  }

  lemma {:induction false} RunUpTo(cfg: Config, verb: Verb, start: State, calls: seq<Call>, now: State, i: nat)
    requires LegalRun(cfg, verb, start, calls, now) && i < |calls|
    ensures LegalRun(cfg, verb, start, calls[..i], calls[i].pre) && LegalCall(cfg, verb, calls[i])
    decreases |calls|
  {
    hide LegalCall, Freed;
    var n := |calls| - 1;
    if i < n {
      RunUpTo(cfg, verb, start, calls[..n], calls[n].pre, i);
      assert calls[..n][..i] == calls[..i];
    }
  }

  lemma StillTailored(known: map<string, Id>, cfg: Config, o: Order, s: State, t: State)
    requires o.Acceptable() && t.balancers == s.balancers && IsBalancerOf(known, o, s, cfg.lb)
    requires cfg == ConfigFor(o, cfg.lb, s.balancers[cfg.lb])
    ensures Tailored(known, cfg, o, t)
  {
  }

  lemma OpeningRequestIsMeant(known: map<string, Id>, o: Order, s: State)
    requires o.Acceptable() && Creatable(known, o) && forall x :: !IsBalancerOf(known, o, s, x)
    ensures BalancerRequestMeant(known, o, s, CreationOf(known, o))
  {
    forall x | x in s.balancers ensures s.balancers[x].name != o.Name() {
      assert !IsBalancerOf(known, o, s, x);
    }
  }

  lemma ClosingRequestIsMeant(known: map<string, Id>, o: Order, lb: Id, ips: seq<Id>, s: State, op: Op)
    requires o.Acceptable() && MayClose(o, lb, ips, s, op)
    ensures BalancerRequestMeant(known, o, s, op)
  {
  }

  /** The phases of actual calls consist of such requests. */
  lemma RecordedIsAskedFor(known: map<string, Id>, ph: Phase, o: Order)
    requires Recorded(known, ph, o)
    ensures AskedFor(known, ph, o)
  {
    hide LegalRun, RequestMeant, BalancerRequestMeant, Tailored, Sound, IsBalancerOf, Creatable, CreationOf, Happened,
        MayClose;
    match ph {
      case Phase(cfg, verb, start, calls, end) =>
        forall i | 0 <= i < |calls|
          ensures Tailored(known, cfg, o, calls[i].pre)
          ensures RequestMeant(cfg, verb, calls[i].pre, calls[i].why, calls[i].op)
        {
          RunUpTo(cfg, verb, start, calls, end, i);
          RunSparesBalancers(cfg, verb, start, calls[..i], calls[i].pre);
          StillTailored(known, cfg, o, start, calls[i].pre);
          JustifiedIsMeant(cfg, verb, calls[i].pre, calls[i].why, calls[i].op);
        }
      case Errand(start, calls, end) =>
        if Opening(known, o, calls, start, end) {
          OpeningIsAskedFor(known, o, calls, start, end);
        } else {
          ErrandIsClosing(known, o, calls, start, end);
        }
    }
  }

  lemma OpeningIsAskedFor(known: map<string, Id>, o: Order, calls: seq<Call>, s: State, t: State)
    requires o.Acceptable() && Opening(known, o, calls, s, t)
    ensures forall i :: 0 <= i < |calls| ==> BalancerRequestMeant(known, o, calls[i].pre, calls[i].op)
  {
    hide BalancerRequestMeant, IsBalancerOf, CreationOf, Happened;
    forall i | 0 <= i < |calls| ensures BalancerRequestMeant(known, o, calls[i].pre, calls[i].op) {
      OpeningRequestIsMeant(known, o, calls[i].pre);
    }
  }

  lemma ErrandIsClosing(known: map<string, Id>, o: Order, calls: seq<Call>, s: State, t: State)
    requires o.Acceptable() && ErrandFor(known, o, calls, s, t) && !Opening(known, o, calls, s, t)
    ensures forall i :: 0 <= i < |calls| ==> BalancerRequestMeant(known, o, calls[i].pre, calls[i].op)
  {
    hide BalancerRequestMeant, MayClose, Happened, Opening;
    var lb :| IsBalancerOf(known, o, s, lb) && Closing(o, lb, s.balancers[lb].publicIps, calls, s, t);
    forall i | 0 <= i < |calls| ensures BalancerRequestMeant(known, o, calls[i].pre, calls[i].op) {
      ClosingRequestIsMeant(known, o, lb, s.balancers[lb].publicIps, calls[i].pre, calls[i].op);
    }
  }

  lemma LivedIsAskedFor(known: map<string, Id>, life: seq<Phase>, orders: seq<Order>, base: string, s: State, t: State,
                        calls: seq<Call>, failed: nat, drops: nat)
    requires Lived(known, life, orders, base, s, t, calls, failed, drops)
    ensures |orders| == |life| && forall i :: 0 <= i < |life| ==> AskedFor(known, life[i], orders[i])
  {
    hide Recorded, AskedFor, Leaked;
    forall i | 0 <= i < |life| ensures AskedFor(known, life[i], orders[i]) {
      RecordedIsAskedFor(known, life[i], orders[i]);
    }
  }

  // ----- any sequence of calls -----

  /** Every order asks for an EIP that goes with the load balancer. */
  predicate AllRelease(orders: seq<Order>) {
    forall o :: o in orders && o.Acceptable() ==> Releases(o)
  }

  /** The life of the Service `base` so far, from `s` to `t`: its phases consist of exactly the requests `calls`, each
      comes from a call for one of the orders, at most `failed` left an IP group unbound, each at most one, `drops`
      load balancers went, and at most `failed` EIPs to be released stayed behind. */
  ghost predicate Lived(known: map<string, Id>, life: seq<Phase>, orders: seq<Order>, base: string, s: State, t: State,
                        calls: seq<Call>, failed: nat, drops: nat)
  {
    && Consecutive(life, s, t) && CallsOf(life) == calls && |orders| == |life|
    && (forall i :: 0 <= i < |life| ==>
          && Recorded(known, life[i], orders[i]) && orders[i].Name() == base
          && |Leaked(base, life[i].start, life[i].end)| <= 1)
    && Messy(base, life) <= failed && Dropped(base, life) == drops
    && (AllRelease(orders) ==> Spilled(base, life) <= failed)
  }

  function Repeated(o: Order, n: nat): seq<Order> { seq(n, _ => o) }

  lemma LivedOn(known: map<string, Id>, life: seq<Phase>, more: seq<Phase>, orders: seq<Order>, base: string, o: Order,
                s: State, t: State, u: State, calls: seq<Call>, next: seq<Call>, failed: nat, drops: nat, clean: bool,
                d: nat)
    requires Lived(known, life, orders, base, s, t, calls, failed, drops) && o.Name() == base
    requires Stretch(known, more, o, t, u, next, clean, d)
    ensures Lived(known, life + more, orders + Repeated(o, |more|), base, s, u, calls + next,
                  if clean then failed else failed + 1, drops + d)
  {
    hide Recorded, Orphans, Releases, Consecutive, CallsOf, Messy, Dropped, Spilled, AllRelease;
    ConsecutiveChain(life, more, s, t, u);
    CallsChain(life, more);
    MessyChain(base, life, more);
    CountsChain(base, life, more);
    var all := orders + Repeated(o, |more|);
    AllRecorded(known, life, more, orders, base, o);
    if AllRelease(all) {
      ReleasedSoFar(base, orders, o, more, all);
      if more != [] { RecordedAccepts(known, more[0], o); }
    }
  }

  lemma RecordedAccepts(known: map<string, Id>, ph: Phase, o: Order)
    requires Recorded(known, ph, o)
    ensures o.Acceptable()
  {
  }

  lemma AllRecorded(known: map<string, Id>, life: seq<Phase>, more: seq<Phase>, orders: seq<Order>, base: string,
                    o: Order)
    requires |orders| == |life| && o.Name() == base
    requires forall i :: 0 <= i < |life| ==> Recorded(known, life[i], orders[i]) && orders[i].Name() == base
                                             && |Leaked(base, life[i].start, life[i].end)| <= 1
    requires forall i :: 0 <= i < |more| ==> Recorded(known, more[i], o)
                                             && |Leaked(base, more[i].start, more[i].end)| <= 1
    ensures var all, longer := orders + Repeated(o, |more|), life + more;
            forall i :: 0 <= i < |all| ==> Recorded(known, longer[i], all[i]) && all[i].Name() == base
                                           && |Leaked(base, longer[i].start, longer[i].end)| <= 1
  {
    hide Recorded, Leaked;
  }

  lemma ReleasedSoFar(base: string, orders: seq<Order>, o: Order, more: seq<Phase>, all: seq<Order>)
    requires all == orders + Repeated(o, |more|) && AllRelease(all)
    ensures AllRelease(orders) && (more != [] && o.Acceptable() ==> Releases(o))
    ensures more == [] ==> Spilled(base, more) == 0
  {
    hide Releases;
    assert more != [] ==> all[|orders|] == o;
  }

  /** Every wish is about the Service. */
  predicate Wished(wishes: seq<Wish>, base: string) {
    forall w :: w in wishes ==> Proper(w.order) && w.order.Name() == base
  }

  function OrdersOf(wishes: seq<Wish>): seq<Order> {
    seq(|wishes|, i requires 0 <= i < |wishes| => wishes[i].order)
  }

  /** The orders are among those of the wishes. */
  predicate Drawn(orders: seq<Order>, wishes: seq<Wish>) {
    forall o :: o in orders ==> o in OrdersOf(wishes)
  }

  lemma DrawnOn(orders: seq<Order>, wishes: seq<Wish>, i: nat, n: nat)
    requires Drawn(orders, wishes) && i < |wishes|
    ensures Drawn(orders + Repeated(wishes[i].order, n), wishes)
  {
    assert OrdersOf(wishes)[i] == wishes[i].order;
  }

  lemma Begin(known: map<string, Id>, base: string, s: State)
    ensures Lived(known, [], [], base, s, s, [], 0, 0)
  {
  }

  /** Any sequence of calls of the entry points, whatever fails and whatever the cloud looks like; `failed` counts the
      calls that failed after an injected fault. The life consists of exactly the requests that the calls added to the
      log, and each of them says what its order asks for. */
  method Live(c: Cloud, wishes: seq<Wish>, base: string)
    returns (ghost life: seq<Phase>, ghost orders: seq<Order>, ghost failed: nat, ghost drops: nat)
    requires c.Valid() && WellFormed(base, c.now) && Wished(wishes, base)
    modifies c
    ensures c.Valid() && WellFormed(base, c.now) && c.faults >= old(c.faults) && old(c.log) <= c.log
    ensures Lived(c.known, life, orders, base, old(c.now), c.now, c.log[|old(c.log)|..], failed, drops)
    ensures Drawn(orders, wishes) && failed <= c.faults - old(c.faults)
    ensures |orders| == |life| && forall i :: 0 <= i < |life| ==> AskedFor(c.known, life[i], orders[i])
    ensures (forall w :: w in wishes ==> !w.Delete?) ==> drops == 0
  {
    hide Lived, Stretch, WellFormed, Proper, Drawn, AskedFor;
    ghost var s, log0 := c.now, c.log;
    life, orders, failed, drops := [], [], 0, 0;
    Begin(c.known, base, s);
    assert log0[|log0|..] == [] && Drawn([], wishes) by { NothingDrawn(wishes); }
    for i := 0 to |wishes|
      invariant c.Valid() && WellFormed(base, c.now) && c.faults >= old(c.faults) && log0 <= c.log
      invariant Lived(c.known, life, orders, base, s, c.now, c.log[|log0|..], failed, drops)
      invariant Drawn(orders, wishes) && failed <= c.faults - old(c.faults)
      invariant (forall w :: w in wishes ==> !w.Delete?) ==> drops == 0
    {
      ghost var t, log1, faults, more, d := c.now, c.log, c.faults, life, drops;
      var ok;
      ok, more, d := Fulfil(c, wishes[i]);
      ghost var clean, o := ok || c.faults == faults, wishes[i].order;
      LivedOn(c.known, life, more, orders, base, o, s, t, c.now, log1[|log0|..], c.log[|log1|..], failed, drops, clean,
              d);
      LogSplit(log0, log1, c.log);
      DrawnOn(orders, wishes, i, |more|);
      life, orders, drops := life + more, orders + Repeated(o, |more|), drops + d;
      failed := if clean then failed else failed + 1;
    }
    LivedIsAskedFor(c.known, life, orders, base, s, c.now, c.log[|log0|..], failed, drops);
  }

  lemma NothingDrawn(wishes: seq<Wish>)
    ensures Drawn([], wishes)
  {
  }
}

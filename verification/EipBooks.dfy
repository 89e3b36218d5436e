/** The book of EIPs over a whole life: which ones load balancers that came and went have left behind. */
module EipBooks {
  import opened Basics
  import opened CloudState
  import opened Service
  import opened Plan
  import opened Steps
  import opened Life
  import opened Lifecycle
  import opened Deletion
  import Annotations

  /** The requests on the load balancer that a call made for the order, before or after its run. */
  ghost predicate ErrandFor(known: map<string, Id>, o: Order, calls: seq<Call>, s: State, t: State)
    requires o.Acceptable()
  {
    || Opening(known, o, calls, s, t)
    || (exists lb :: IsBalancerOf(known, o, s, lb) && Closing(o, lb, s.balancers[lb].publicIps, calls, s, t))
  }

  // ----- what errands do -----

  lemma {:induction false} OpeningEffect(known: map<string, Id>, o: Order, calls: seq<Call>, s: State, t: State)
    requires o.Acceptable() && Opening(known, o, calls, s, t)
    ensures t == s || exists lb :: Created(known, o, s, t, lb)
    decreases |calls|
  {
    hide IsBalancerOf, Created, EipsOf;
    if calls != [] {
      var n := |calls| - 1;
      var u := calls[n].pre;
      OpeningEffect(known, o, calls[..n], s, u);
      if u != s {
        var lb :| Created(known, o, s, u, lb);
        CreatedIsIts(known, o, s, u, lb);
        assert false;
      }
      if calls[n].done {
        assert Created(known, o, s, t, calls[n].id) by { JustCreated(known, o, calls[n]); }
      }
    }
  }

  lemma CreatedIsIts(known: map<string, Id>, o: Order, s: State, t: State, lb: Id)
    requires o.Acceptable() && !ById(o) && Created(known, o, s, t, lb)
    ensures IsBalancerOf(known, o, t, lb)
  {
  }

  lemma JustCreated(known: map<string, Id>, o: Order, c: Call)
    requires o.Acceptable() && Creatable(known, o) && Happened(c) && c.done && c.op == CreationOf(known, o)
    ensures Created(known, o, c.pre, c.post, c.id)
  {
  }

  lemma {:induction false} ClosingEffect(o: Order, lb: Id, ips: seq<Id>, calls: seq<Call>, s: State, t: State)
    requires o.Acceptable() && Closing(o, lb, ips, calls, s, t)
    ensures t == s.(balancers := t.balancers, eips := t.eips)
    ensures t.balancers == s.balancers || t.balancers == s.balancers - {lb}
    ensures s.eips - Listed(ips) <= t.eips <= s.eips
    ensures t.eips != s.eips ==> Releases(o) && lb !in t.balancers
    decreases |calls|
  {
    hide MayClose, Happened, Releases;
    if calls != [] {
      var n := |calls| - 1;
      ClosingEffect(o, lb, ips, calls[..n], s, calls[n].pre);
      ClosingStep(o, lb, ips, calls[n]);
    }
  }

  lemma ClosingStep(o: Order, lb: Id, ips: seq<Id>, c: Call)
    requires o.Acceptable() && Happened(c) && MayClose(o, lb, ips, c.pre, c.op)
    ensures c.post == c.pre.(balancers := c.post.balancers, eips := c.post.eips)
    ensures c.post.balancers == c.pre.balancers || c.post.balancers == c.pre.balancers - {lb}
    ensures c.pre.eips - Listed(ips) <= c.post.eips <= c.pre.eips
    ensures c.post.eips != c.pre.eips ==> Releases(o) && lb !in c.post.balancers
  {
    hide Releases, Fresh, Vacant;
  }

  // ----- load balancers that came and went -----

  /** The phase got rid of the Service's own load balancer. */
  ghost predicate Drops(base: string, ph: Phase) {
    ph.Errand? && exists lb :: Named(base, ph.start, lb) && lb !in ph.end.balancers
  }

  /** It did, and an EIP of the load balancer stayed behind. */
  ghost predicate Spills(base: string, ph: Phase) {
    && ph.Errand?
    && exists lb, e :: Named(base, ph.start, lb) && lb !in ph.end.balancers
                       && e in ph.start.balancers[lb].publicIps && e in ph.end.eips
  }

  ghost function Dropped(base: string, life: seq<Phase>): nat {
    if life == [] then 0
    else Dropped(base, life[..|life| - 1]) + if Drops(base, life[|life| - 1]) then 1 else 0
  }

  ghost function Spilled(base: string, life: seq<Phase>): nat {
    if life == [] then 0
    else Spilled(base, life[..|life| - 1]) + if Spills(base, life[|life| - 1]) then 1 else 0
  }

  lemma {:induction false} CountsChain(base: string, before: seq<Phase>, after: seq<Phase>)
    ensures Dropped(base, before + after) == Dropped(base, before) + Dropped(base, after)
    ensures Spilled(base, before + after) == Spilled(base, before) + Spilled(base, after)
    decreases |after|
  {
    hide Drops, Spills;
    if after == [] {
      assert before + after == before;
    } else {
      var n := |after| - 1;
      CountsChain(base, before, after[..n]);
      assert (before + after)[..|before| + n] == before + after[..n];
    }
  }

  // ----- the book -----

  /** A phase that a call made for the order: it leaves load balancers and EIPs alone, or is an errand. */
  ghost predicate Posted(known: map<string, Id>, o: Order, base: string, ph: Phase) {
    && o.Acceptable() && !ById(o) && o.Name() == base
    && match ph
       case Phase(_, _, start, _, end) => end.balancers == start.balancers && end.eips == start.eips
       case Errand(start, calls, end) => ErrandFor(known, o, calls, start, end)
  }

  /** The one load balancer of the Service is `lb`, with an EIP `e` of its own. */
  ghost predicate Entry(base: string, s: State, kept: set<Id>, lb: Id, e: Id) {
    && Named(base, s, lb) && (forall x :: Named(base, s, x) ==> x == lb)
    && s.balancers[lb].publicIps == [e] && e !in kept && s.eips == kept + {e}
  }

  /** The Service has at most one load balancer of its own, with one EIP of its own, and otherwise there are the EIPs
      `kept`. */
  ghost predicate Books(base: string, s: State, kept: set<Id>) {
    ((forall x :: !Named(base, s, x)) && s.eips == kept) || exists lb, e :: Entry(base, s, kept, lb, e)
  }

  lemma RunKeepsBooks(base: string, s: State, t: State, kept: set<Id>)
    requires Books(base, s, kept) && t.balancers == s.balancers && t.eips == s.eips
    ensures Books(base, t, kept)
  {
    assert forall x :: Named(base, t, x) <==> Named(base, s, x);
    if exists x :: Named(base, s, x) {
      var lb, e :| Entry(base, s, kept, lb, e);
      assert Entry(base, t, kept, lb, e);
    }
  }

  lemma CreationKeepsBooks(known: map<string, Id>, o: Order, base: string, s: State, t: State, lb: Id, kept: set<Id>)
    requires o.Acceptable() && !ById(o) && o.Name() == base && o.Settings().eipBandwidth > 0
    requires Books(base, s, kept) && (forall x :: !Named(base, s, x)) && Created(known, o, s, t, lb)
    ensures Books(base, t, kept)
  {
    Annotations.MergedFacts(o.defaults, o.spec.annotations);
    assert EipsOf(known, o.Settings().eipIds) == [];
    var none: seq<Id> := [];
    assert none + [lb + 1] == [lb + 1];
    assert forall x :: Named(base, t, x) ==> Named(base, s, x) || x == lb;
    assert Entry(base, t, kept, lb, lb + 1);
  }

  lemma ClosingKeepsBooks(known: map<string, Id>, o: Order, base: string, calls: seq<Call>, s: State, t: State, lb: Id,
                          kept: set<Id>) returns (more: set<Id>)
    requires o.Acceptable() && !ById(o) && o.Name() == base
    requires Books(base, s, kept) && IsBalancerOf(known, o, s, lb)
    requires Closing(o, lb, s.balancers[lb].publicIps, calls, s, t)
    ensures Books(base, t, more) && kept <= more
    ensures |more| == |kept| + if Spills(base, Errand(s, calls, t)) then 1 else 0
  {
    hide Closing;
    ClosingEffect(o, lb, s.balancers[lb].publicIps, calls, s, t);
    assert Named(base, s, lb);
    var x, e :| Entry(base, s, kept, x, e);
    assert forall y :: Named(base, t, y) ==> Named(base, s, y);
    more := if lb !in t.balancers && e in t.eips then kept + {e} else kept;
    if lb in t.balancers {
      assert Entry(base, t, kept, lb, e);
      assert !Spills(base, Errand(s, calls, t));
    } else {
      assert s.balancers[lb].publicIps[0] == e;
      assert Spills(base, Errand(s, calls, t)) <==> e in t.eips;
    }
  }

  lemma PhaseKeepsBooks(known: map<string, Id>, o: Order, base: string, ph: Phase, kept: set<Id>)
    returns (more: set<Id>)
    requires Posted(known, o, base, ph) && o.Settings().eipBandwidth > 0 && Books(base, ph.start, kept)
    ensures Books(base, ph.end, more) && kept <= more && |more| == |kept| + if Spills(base, ph) then 1 else 0
  {
    hide Books, Closing, Created;
    more := kept;
    if ph.Phase? {
      RunKeepsBooks(base, ph.start, ph.end, kept);
    } else if Opening(known, o, ph.calls, ph.start, ph.end) {
      OpeningEffect(known, o, ph.calls, ph.start, ph.end);
      OpeningDropsNothing(known, o, base, ph);
      if ph.end != ph.start {
        var lb :| Created(known, o, ph.start, ph.end, lb);
        OpeningMeansNone(known, o, base, ph);
        CreationKeepsBooks(known, o, base, ph.start, ph.end, lb, kept);
      }
    } else {
      var lb :| IsBalancerOf(known, o, ph.start, lb)
                && Closing(o, lb, ph.start.balancers[lb].publicIps, ph.calls, ph.start, ph.end);
      more := ClosingKeepsBooks(known, o, base, ph.calls, ph.start, ph.end, lb, kept);
    }
  }

  lemma OpeningDropsNothing(known: map<string, Id>, o: Order, base: string, ph: Phase)
    requires o.Acceptable() && ph.Errand? && Opening(known, o, ph.calls, ph.start, ph.end)
    ensures !Drops(base, ph) && !Spills(base, ph)
  {
    OpeningEffect(known, o, ph.calls, ph.start, ph.end);
  }

  lemma OpeningMeansNone(known: map<string, Id>, o: Order, base: string, ph: Phase)
    requires o.Acceptable() && !ById(o) && o.Name() == base && ph.Errand? && ph.end != ph.start
    requires Opening(known, o, ph.calls, ph.start, ph.end)
    ensures forall x :: !Named(base, ph.start, x)
  {
    forall x | Named(base, ph.start, x) ensures false {
      OpeningIsEmpty(known, o, ph.calls, ph.start, ph.end, x);
    }
  }

  /** While every order asks for a new EIP, the EIPs left behind are as many as phases spilled one; all others are as
      before, and none of them is ever released. */
  lemma {:induction false} LifeKeepsBooks(known: map<string, Id>, life: seq<Phase>, orders: seq<Order>, base: string,
                                          s: State, t: State) returns (kept: set<Id>)
    requires Consecutive(life, s, t) && |orders| == |life| && forall x :: !Named(base, s, x)
    requires forall i :: 0 <= i < |life| ==> Posted(known, orders[i], base, life[i])
                                             && orders[i].Settings().eipBandwidth > 0
    ensures Books(base, t, kept) && s.eips <= kept && |kept - s.eips| == Spilled(base, life)
    decreases |life|
  {
    hide Posted, Spills, Books, Named;
    if life == [] {
      kept := s.eips;
      EmptyBooks(base, s);
      assert kept - s.eips == {};
    } else {
      var n := |life| - 1;
      var before := LifeKeepsBooks(known, life[..n], orders[..n], base, s, life[n].start);
      kept := PhaseKeepsBooks(known, orders[n], base, life[n], before);
      Bigger(s.eips, before, kept);
    }
  }

  lemma EmptyBooks(base: string, s: State)
    requires forall x :: !Named(base, s, x)
    ensures Books(base, s, s.eips)
  {
  }

  lemma Bigger(a: set<Id>, b: set<Id>, c: set<Id>)
    requires a <= b <= c
    ensures |c - a| == |b - a| + |c| - |b|
  {
    assert c == b + (c - b) && c - a == (b - a) + (c - b);
  }

  /** While no order asks for a new EIP, the EIPs stay as they are. */
  lemma {:induction false} LifeSparesEips(known: map<string, Id>, life: seq<Phase>, orders: seq<Order>, base: string,
                                          s: State, t: State)
    requires Consecutive(life, s, t) && |orders| == |life|
    requires forall i :: 0 <= i < |life| ==> Posted(known, orders[i], base, life[i])
                                             && orders[i].Settings().eipBandwidth == 0
    ensures t.eips == s.eips
    decreases |life|
  {
    hide Opening, Closing;
    if life != [] {
      var n := |life| - 1;
      var ph, o := life[n], orders[n];
      LifeSparesEips(known, life[..n], orders[..n], base, s, ph.start);
      assert Posted(known, o, base, ph);
      if ph.Errand? {
        if Opening(known, o, ph.calls, ph.start, ph.end) {
          OpeningEffect(known, o, ph.calls, ph.start, ph.end);
        } else {
          var lb :| IsBalancerOf(known, o, ph.start, lb)
                    && Closing(o, lb, ph.start.balancers[lb].publicIps, ph.calls, ph.start, ph.end);
          ClosingEffect(o, lb, ph.start.balancers[lb].publicIps, ph.calls, ph.start, ph.end);
        }
      }
    }
  }

  // ----- keeping EIPs -----

  /** With `eip-keep` a load balancer that goes leaves its EIP behind. */
  lemma KeptIsSpilled(known: map<string, Id>, o: Order, base: string, ph: Phase, kept: set<Id>)
    requires Posted(known, o, base, ph) && Books(base, ph.start, kept) && o.Settings().eipKeep
    ensures Spills(base, ph) <==> Drops(base, ph)
  {
    hide Opening, Closing;
    if ph.Errand? {
      if Opening(known, o, ph.calls, ph.start, ph.end) {
        OpeningDropsNothing(known, o, base, ph);
      } else {
        var lb :| IsBalancerOf(known, o, ph.start, lb)
                  && Closing(o, lb, ph.start.balancers[lb].publicIps, ph.calls, ph.start, ph.end);
        ClosingEffect(o, lb, ph.start.balancers[lb].publicIps, ph.calls, ph.start, ph.end);
        assert Named(base, ph.start, lb);
        assert ph.start.balancers[lb].publicIps[0] in ph.start.eips;
      }
    }
  }

  lemma KeepsIfSaid(known: map<string, Id>, o: Order, base: string, ph: Phase)
    requires Posted(known, o, base, ph) && Annotations.SaysKeep(o.spec.annotations)
    ensures o.Settings().eipKeep
  {
    Annotations.KeepIffSaid(o.defaults, o.spec.annotations);
    hide Annotations.SaysKeep, Annotations.Acceptable, Annotations.Merged;
  }

  /** When the annotations say that EIPs are kept, every load balancer that goes leaves its EIP behind. */
  lemma {:induction false} KeptLife(known: map<string, Id>, life: seq<Phase>, orders: seq<Order>, base: string,
                                    s: State, t: State)
    requires Consecutive(life, s, t) && |orders| == |life| && forall x :: !Named(base, s, x)
    requires forall i :: 0 <= i < |life| ==> Posted(known, orders[i], base, life[i])
                                             && orders[i].Settings().eipBandwidth > 0
                                             && Annotations.SaysKeep(orders[i].spec.annotations)
    ensures Spilled(base, life) == Dropped(base, life)
    decreases |life|
  {
    hide Posted, Spills, Drops, Books, Named;
    if life != [] {
      var n := |life| - 1;
      KeptLife(known, life[..n], orders[..n], base, s, life[n].start);
      var kept := LifeKeepsBooks(known, life[..n], orders[..n], base, s, life[n].start);
      KeepsIfSaid(known, orders[n], base, life[n]);
      KeptIsSpilled(known, orders[n], base, life[n], kept);
    }
  }
}

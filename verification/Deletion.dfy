/** Deleting a Service's load balancer, and what becomes of its EIPs. */
module Deletion {
  import opened Basics
  import opened CloudState
  import opened Service
  import opened Plan
  import opened Steps
  import opened Backend
  import opened Calls
  import opened Reconcile
  import opened Lifecycle
  import Annotations

  // ----- requests on the load balancer and its EIPs -----

  predicate Final(op: Op) { op.DeleteBalancer? || op.DeleteEip? }

  /** Attempts of one request, of which at most the last took effect. */
  ghost predicate Attempts(op: Op, calls: seq<Call>, s: State, t: State) {
    && Linked(calls, s, t) && |calls| <= 6
    && forall i :: 0 <= i < |calls| ==> Happened(calls[i]) && calls[i].op == op && calls[i].pre == s
  }

  lemma OneMoreAttempt(op: Op, calls: seq<Call>, s: State, call: Call)
    requires Attempts(op, calls, s, s) && |calls| < 6 && Happened(call) && call.op == op && call.pre == s
    ensures Attempts(op, calls + [call], s, call.post)
  {
  }

  /** Up to six attempts while the backend answers with one of `busy`. */
  method RetryFinal(c: Cloud, op: Op, busy: set<Reply>) returns (r: Reply)
    requires c.Valid() && Final(op) && busy == Transient(op)
    modifies c
    ensures c.Valid() && c.faults >= old(c.faults) && old(c.log) <= c.log
    ensures Attempts(op, c.log[|old(c.log)|..], old(c.now), c.now)
    ensures Retried(WholeBalancer, op, busy, c.log[|old(c.log)|..], r)
    ensures r == Ok ==> Verdict(old(c.now), op) == Ok && c.now == Apply(old(c.now), op, 0)
    ensures r != Ok ==> c.now == old(c.now)
    ensures r == NotFound ==> Verdict(old(c.now), op) == NotFound
    ensures c.faults == old(c.faults) ==> r == Verdict(old(c.now), op)
  {
    hide Attempts, Trying, Retried, Transient;
    ghost var log0 := c.log;
    NoAttempt(op, log0, c.now);
    BusyIsRefusal(op);
    r := AttemptFinal(c, op, log0);
    var steps := 1;
    while r in busy && steps < 6
      invariant c.Valid() && c.faults >= old(c.faults) && log0 <= c.log && |c.log| == |log0| + steps && steps <= 6
      invariant Attempts(op, c.log[|log0|..], old(c.now), c.now)
      invariant Trying(WholeBalancer, op, c.log[|log0|..], r)
      invariant r == Ok ==> Verdict(old(c.now), op) == Ok && c.now == Apply(old(c.now), op, 0)
      invariant r != Ok ==> c.now == old(c.now)
      invariant r == NotFound ==> Verdict(old(c.now), op) == NotFound
      invariant c.faults == old(c.faults) ==> r == Verdict(old(c.now), op) || r in busy
      decreases 6 - steps
    {
      r := AttemptFinal(c, op, log0);
      steps := steps + 1;
    }
    TriedEnough(WholeBalancer, op, c.log[|log0|..], r);
    if r in busy {
      c.GiveUp();
      r := Other;
    }
  }

  lemma NoAttempt(op: Op, log: seq<Call>, s: State)
    ensures Attempts(op, log[|log|..], s, s)
  {
  }

  lemma BusyIsRefusal(op: Op)
    ensures Ok !in Transient(op) && NotFound !in Transient(op)
  {
  }

  /** The next attempt of a retry loop that began at `log0`. */
  method AttemptFinal(c: Cloud, op: Op, ghost log0: seq<Call>) returns (r: Reply)
    requires c.Valid() && Final(op) && log0 <= c.log && |c.log| < |log0| + 6
    requires Attempts(op, c.log[|log0|..], c.now, c.now)
    requires c.log == log0 || exists answer :: Trying(WholeBalancer, op, c.log[|log0|..], answer)
                                               && answer in Transient(op)
    modifies c
    ensures c.Valid() && c.faults >= old(c.faults) && log0 <= c.log && |c.log| == |old(c.log)| + 1
    ensures Attempts(op, c.log[|log0|..], old(c.now), c.now)
    ensures Trying(WholeBalancer, op, c.log[|log0|..], r)
    ensures r == Ok ==> Verdict(old(c.now), op) == Ok && c.now == Apply(old(c.now), op, 0)
    ensures r != Ok ==> c.now == old(c.now)
    ensures r == NotFound ==> Verdict(old(c.now), op) == NotFound
    ensures c.faults == old(c.faults) ==> r == Verdict(old(c.now), op) || r in Transient(op)
  {
    hide Attempts, Trying, Transient;
    ghost var s, log1 := c.now, c.log;
    var id;
    r, id := c.Send(WholeBalancer, op);
    OneMoreAttempt(op, log1[|log0|..], s, c.log[|log1|]);
    TryAgain(WholeBalancer, op, log0, log1, c.log[|log1|]);
    assert c.log[|log0|..] == log1[|log0|..] + [c.log[|log1|]];
  }

  /** The order at deletion alone decides whether EIPs are released, whatever the load balancer was created with. */
  predicate Releases(o: Order)
    requires o.Acceptable()
  {
    !ById(o) && o.Settings().eipBandwidth > 0 && !o.Settings().eipKeep
  }

  function Listed(ips: seq<Id>): set<Id> { set e | e in ips }

  /** No listener is on the load balancer. */
  predicate Vacant(s: State, lb: Id) { forall l :: l in s.listeners ==> s.listeners[l].lb != lb }

  /** What a deletion may ask for once the listeners are gone: the load balancer `lb` itself, and after that the EIPs it
      had, if the order releases them. */
  predicate MayClose(o: Order, lb: Id, ips: seq<Id>, s: State, op: Op)
    requires o.Acceptable()
  {
    match op
    case DeleteBalancer(x) =>
      x == lb && !ById(o) && lb in s.balancers && s.balancers[lb].name == o.Name() && Vacant(s, lb)
    case DeleteEip(e) => Releases(o) && e in ips && lb !in s.balancers
    case _ => false
  }

  /** The requests after the last listener. */
  ghost predicate Closing(o: Order, lb: Id, ips: seq<Id>, calls: seq<Call>, s: State, t: State)
    requires o.Acceptable()
  {
    && Linked(calls, s, t)
    && forall i :: 0 <= i < |calls| ==> Happened(calls[i]) && MayClose(o, lb, ips, calls[i].pre, calls[i].op)
  }

  lemma NothingClosed(o: Order, lb: Id, ips: seq<Id>, log: seq<Call>, s: State)
    requires o.Acceptable()
    ensures Closing(o, lb, ips, log[|log|..], s, s)
  {
  }

  lemma ClosingChain(o: Order, lb: Id, ips: seq<Id>, before: seq<Call>, after: seq<Call>, s: State, t: State, u: State)
    requires o.Acceptable() && Closing(o, lb, ips, before, s, t) && Closing(o, lb, ips, after, t, u)
    ensures Closing(o, lb, ips, before + after, s, u)
  {
    LinkedChain(before, after, s, t, u);
  }

  lemma AttemptsClose(o: Order, lb: Id, ips: seq<Id>, op: Op, calls: seq<Call>, s: State, t: State)
    requires o.Acceptable() && Attempts(op, calls, s, t) && MayClose(o, lb, ips, s, op)
    ensures Closing(o, lb, ips, calls, s, t)
  {
  }

  /** One EIP; one that is already gone counts as released. */
  method ReleaseEip(c: Cloud, e: Id, ghost ips: seq<Id>, ghost o: Order, ghost lb: Id) returns (r: Reply)
    requires c.Valid() && o.Acceptable() && Releases(o) && lb !in c.now.balancers && e in ips
    modifies c
    ensures c.Valid() && c.faults >= old(c.faults) && old(c.log) <= c.log
    ensures Closing(o, lb, ips, c.log[|old(c.log)|..], old(c.now), c.now)
    ensures exists answer ::
              && Retried(WholeBalancer, DeleteEip(e), {Conflict, BadRequest}, c.log[|old(c.log)|..], answer)
              && (r == Ok <==> answer in {Ok, NotFound})
    ensures c.now == old(c.now).(eips := c.now.eips)
    ensures c.now.eips == old(c.now).eips || c.now.eips == old(c.now).eips - {e}
    ensures r == Ok ==> c.now.eips == old(c.now).eips - {e}
    ensures c.faults == old(c.faults) ==> r == Ok
  {
    hide Attempts, Retried, Closing, Releases;
    r := RetryFinal(c, DeleteEip(e), {Conflict, BadRequest});
    AttemptsClose(o, lb, ips, DeleteEip(e), c.log[|old(c.log)|..], old(c.now), c.now);
    r := if r == Ok || r == NotFound then Ok else Other;
  }

  /** Each EIP in turn. */
  method ReleaseEips(c: Cloud, ips: seq<Id>, ghost o: Order, ghost lb: Id) returns (r: Reply)
    requires c.Valid() && o.Acceptable() && Releases(o) && lb !in c.now.balancers
    modifies c
    ensures c.Valid() && c.faults >= old(c.faults) && old(c.log) <= c.log
    ensures Closing(o, lb, ips, c.log[|old(c.log)|..], old(c.now), c.now)
    ensures c.now == old(c.now).(eips := c.now.eips)
    ensures old(c.now).eips - Listed(ips) <= c.now.eips <= old(c.now).eips
    ensures r == Ok ==> c.now.eips == old(c.now).eips - Listed(ips)
    ensures c.faults == old(c.faults) ==> r == Ok
  {
    hide Closing, Releases;
    r := Ok;
    NothingClosed(o, lb, ips, c.log, c.now);
    for i := 0 to |ips|
      invariant r == Ok && c.Valid() && c.faults >= old(c.faults) && old(c.log) <= c.log
      invariant Closing(o, lb, ips, c.log[|old(c.log)|..], old(c.now), c.now)
      invariant c.now == old(c.now).(eips := old(c.now).eips - Listed(ips[..i]))
    {
      assert Listed(ips[..i + 1]) == Listed(ips[..i]) + {ips[i]};
      assert ips[i] in Listed(ips);
      ghost var s, log1 := c.now, c.log;
      r := ReleaseEip(c, ips[i], ips, o, lb);
      ClosingChain(o, lb, ips, log1[|old(c.log)|..], c.log[|log1|..], old(c.now), s, c.now);
      LogSplit(old(c.log), log1, c.log);
      if r != Ok {
        return;
      }
    }
    assert ips[..|ips|] == ips;
  }

  // ----- the listeners -----

  /** No listener that has to go is left on the load balancer. */
  ghost predicate Swept(cfg: Config, s: State) {
    forall l :: l in s.listeners && s.listeners[l].lb == cfg.lb ==> Shared(cfg) && !Own(cfg.name, s.listeners[l].name)
  }

  lemma AllSwept(cfg: Config, s: State, t: State, items: seq<Item>)
    requires Lists(items, s, cfg.lb) && Thinned(cfg, Deleting, s, t) && Cleaning(cfg, Deleting, s, t, items, |items|)
    ensures Swept(cfg, t)
  {
  }

  lemma NothingCleaned(cfg: Config, s: State, items: seq<Item>)
    requires Lists(items, s, cfg.lb)
    ensures Cleaning(cfg, Deleting, s, s, items, 0)
  {
  }

  /** Every listener that has to go, in the listed order. */
  method Sweep(c: Cloud, cfg: Config, ghost run: Run) returns (r: Reply)
    requires Ongoing(c, cfg, run) && run.verb == Deleting && c.now == run.start
    requires Quiet(c, run)
    modifies c
    ensures Ongoing(c, cfg, run) && c.faults >= old(c.faults)
    ensures r == Ok ==> Quiet(c, run)
    ensures c.now.balancers == run.start.balancers && c.now.eips == run.start.eips
    ensures r == Ok ==> Swept(cfg, c.now)
    ensures |Leaked(cfg.name, run.start, c.now)| <= 1
    ensures r == Ok || c.faults == old(c.faults) ==> Leaked(cfg.name, run.start, c.now) == {}
    ensures c.faults == old(c.faults) ==> r == Ok
  {
    hide LegalRun, Thinned, Cleaning, Swept, KeysUnique, ProbesPlain, GroupsTidy, PoolRefs, MonitorRefs, Quiet;
    var items;
    r, items := c.ListListeners(cfg.lb);
    if r != Ok {
      return;
    }
    NothingCleaned(cfg, c.now, items);
    ghost var leak;
    r, leak := RemoveCondemned(c, cfg, run, Deleting, items);
    LeakedWithin(cfg.name, run.start, c.now, leak);
    RunSparesBalancers(cfg, run.verb, run.start, c.log[|run.before|..], c.now);
    if r == Ok {
      AllSwept(cfg, run.start, c.now, items);
    }
  }

  // ----- EnsureLoadBalancerDeleted -----

  /** The EIPs after a successful deletion. */
  function EipsAfter(o: Order, s: State, lb: Id): set<Id>
    requires o.Acceptable() && lb in s.balancers
  {
    if Releases(o) then s.eips - Listed(s.balancers[lb].publicIps) else s.eips
  }

  lemma BalancerGoneKeepsWellFormed(base: string, s: State, t: State)
    requires WellFormed(base, s) && t == s.(balancers := t.balancers, eips := t.eips)
    ensures WellFormed(base, t) && Orphans(base, t) == Orphans(base, s)
  {
  }

  /** The load balancer itself, which takes 404 for success, and then the EIPs to release. */
  method DropBalancer(c: Cloud, o: Order, lb: Id, balancer: Balancer) returns (r: Reply)
    requires c.Valid() && o.Acceptable() && !ById(o) && WellFormed(o.Name(), c.now)
    requires lb in c.now.balancers && c.now.balancers[lb].name == o.Name() && Vacant(c.now, lb)
    modifies c
    ensures c.Valid() && c.faults >= old(c.faults) && WellFormed(o.Name(), c.now) && old(c.log) <= c.log
    ensures Closing(o, lb, balancer.publicIps, c.log[|old(c.log)|..], old(c.now), c.now)
    ensures exists n, answer ::
              && |old(c.log)| <= n <= |c.log|
              && Retried(WholeBalancer, DeleteBalancer(lb), {Conflict}, c.log[|old(c.log)|..n], answer)
              && (answer !in {Ok, NotFound} ==> r == answer && n == |c.log|)
    ensures c.now == old(c.now).(balancers := c.now.balancers, eips := c.now.eips)
    ensures c.now.balancers == old(c.now).balancers || c.now.balancers == old(c.now).balancers - {lb}
    ensures c.now.eips == old(c.now).eips ||
            (Releases(o) && lb !in c.now.balancers
                && old(c.now).eips - Listed(balancer.publicIps) <= c.now.eips <= old(c.now).eips)
    ensures r == Ok ==> lb !in c.now.balancers
    ensures r == Ok && Releases(o) ==> c.now.eips == old(c.now).eips - Listed(balancer.publicIps)
    ensures c.faults == old(c.faults) ==> r == Ok
  {
    hide KeysUnique, ProbesPlain, GroupsTidy, References, Attempts, Vacant, Retried;
    ghost var ips := balancer.publicIps;
    r := RetryFinal(c, DeleteBalancer(lb), {Conflict});
    assert c.log[|old(c.log)|..|c.log|] == c.log[|old(c.log)|..];
    AttemptsClose(o, lb, ips, DeleteBalancer(lb), c.log[|old(c.log)|..], old(c.now), c.now);
    BalancerGoneKeepsWellFormed(o.Name(), old(c.now), c.now);
    if r != Ok && r != NotFound {
      return;
    }
    ghost var gone, log1, answer := c.now, c.log, r;
    r := Ok;
    if o.Settings().eipBandwidth > 0 && !o.Settings().eipKeep {
      r := ReleaseEips(c, balancer.publicIps, o, lb);
      BalancerGoneKeepsWellFormed(o.Name(), gone, c.now);
      ClosingChain(o, lb, ips, log1[|old(c.log)|..], c.log[|log1|..], old(c.now), gone, c.now);
      LogSplit(old(c.log), log1, c.log);
    }
    assert c.log[|old(c.log)|..|log1|] == log1[|old(c.log)|..];
    assert Retried(WholeBalancer, DeleteBalancer(lb), {Conflict}, c.log[|old(c.log)|..|log1|], answer);
  }

  /** What a successful deletion of the load balancer `lb` leaves, from `s` to `t`: on one named by annotation no
      listener of the Service; one of the Service's own is gone with all its listeners, and of its EIPs all are gone or
      none, depending on the annotations. */
  ghost predicate DeletedAsAsked(o: Order, s: State, t: State, lb: Id)
    requires o.Acceptable() && lb in s.balancers
  {
    var own := o.Settings().balancerId == "";
    && (forall l :: l in t.listeners && t.listeners[l].lb == lb ==> !own && !(o.Name() + "_" <= t.listeners[l].name))
    && t.balancers.Keys == (if own then s.balancers.Keys - {lb} else s.balancers.Keys)
    && forall e :: e in t.eips <==>
         e in s.eips && !(own && o.Settings().eipBandwidth > 0 && !o.Settings().eipKeep
                          && e in s.balancers[lb].publicIps)
  }

  lemma DeletedIsAsAsked(o: Order, cfg: Config, s: State, t: State)
    requires o.Acceptable() && cfg.lb in s.balancers && cfg == ConfigFor(o, cfg.lb, s.balancers[cfg.lb])
    requires Swept(cfg, t) && t.eips == EipsAfter(o, s, cfg.lb)
    requires t.balancers == if ById(o) then s.balancers else s.balancers - {cfg.lb}
    ensures DeletedAsAsked(o, s, t, cfg.lb)
  {
  }

  /** The cloud and the request log at the point where a deletion is done with the listeners. */
  datatype Handover = Handover(at: State, log: seq<Call>)

  /** The deletion is one legal run over the listeners, followed, once all of them are gone, by requests on the load
      balancer and its EIPs. */
  ghost predicate Departing(c: Cloud, o: Order, cfg: Config, run: Run, mid: Handover)
    requires o.Acceptable()
    reads c
  {
    && Sound(cfg) && run.verb == Deleting && cfg.lb in run.start.balancers
    && run.before <= mid.log <= c.log
    && LegalRun(cfg, Deleting, run.start, mid.log[|run.before|..], mid.at)
    && Closing(o, cfg.lb, run.start.balancers[cfg.lb].publicIps, c.log[|mid.log|..], mid.at, c.now)
    && (mid.log == c.log || (!ById(o) && Swept(cfg, mid.at) && Leaked(cfg.name, run.start, mid.at) == {}))
  }

  method EnsureLoadBalancerDeleted(c: Cloud, o: Order) returns (r: Reply, ghost how: Extent, ghost mid: Handover)
    requires c.Valid() && Proper(o) && WellFormed(o.Name(), c.now)
    modifies c
    ensures c.Valid() && c.faults >= old(c.faults) && WellFormed(o.Name(), c.now) && old(c.log) <= c.log
    ensures how.Nowhere? ==> c.now == old(c.now) && c.log == old(c.log)
    ensures how.Nowhere? && r == Ok ==> o.Acceptable() && forall lb :: !IsBalancerOf(c.known, o, old(c.now), lb)
    ensures how.Nowhere? && r == Ok ==> forall lb :: !Intended(c.known, o, old(c.now), lb)
    ensures how.Running? ==>
              && o.Acceptable() && Departing(c, o, how.cfg, how.run, mid)
              && how.run.start == old(c.now) && how.run.before == old(c.log)
              && IsBalancerOf(c.known, o, old(c.now), how.cfg.lb)
              && how.cfg == ConfigFor(o, how.cfg.lb, old(c.now).balancers[how.cfg.lb])
              && Tailored(c.known, how.cfg, o, old(c.now))
              && (r == Ok ==> DeletedAsAsked(o, old(c.now), c.now, how.cfg.lb))
    ensures how.Running? && ById(o) ==> c.now.balancers == old(c.now).balancers && c.now.eips == old(c.now).eips
    ensures how.Running? && r == Ok ==> Swept(how.cfg, c.now)
    ensures |Leaked(o.Name(), old(c.now), c.now)| <= 1
    ensures r == Ok || c.faults == old(c.faults) ==> Leaked(o.Name(), old(c.now), c.now) == {}
    ensures how.Running? && !ById(o) && r == Ok ==> how.cfg.lb !in c.now.balancers
    ensures how.Running? ==>
              || c.now.balancers == old(c.now).balancers
              || c.now.balancers == old(c.now).balancers - {how.cfg.lb}
    ensures how.Running? && c.now.eips != old(c.now).eips ==>
              && Releases(o) && how.cfg.lb !in c.now.balancers
              && old(c.now).eips - Listed(old(c.now).balancers[how.cfg.lb].publicIps) <= c.now.eips <= old(c.now).eips
    ensures how.Running? && r == Ok ==> c.now.eips == EipsAfter(o, old(c.now), how.cfg.lb)
    ensures c.faults == old(c.faults) && o.Acceptable() ==> r == Ok
  {
    hide LegalRun, KeysUnique, ProbesPlain, GroupsTidy, References, Proper, Orphans, Vacant, Swept, Closing,
        DeletedAsAsked, Annotations.SettingsMeant;
    how, mid := Nowhere, Handover(c.now, c.log);
    var settings := Annotations.SettingsForService(o.defaults, o.spec.annotations);
    if settings.None? {
      return Other, how, mid;
    }
    var found;
    r, found := FindLoadBalancer(c, o);
    if r != Ok || found.None? {
      return;
    }
    var balancer := c.balancers[found.value];
    var cfg := ConfigFor(o, found.value, balancer);
    ghost var run := Run(Deleting, c.now, c.log);
    RunStarts(c, o, cfg, run);
    how := Running(cfg, run);
    r := Sweep(c, cfg, run);
    mid := Handover(c.now, c.log);
    NothingClosed(o, cfg.lb, balancer.publicIps, c.log, c.now);
    if r != Ok || ById(o) {
      if r == Ok { DeletedIsAsAsked(o, cfg, run.start, c.now); }
      return;
    }
    SweptIsVacant(o, cfg, c.now);
    r := DropBalancer(c, o, found.value, balancer);
    StillSwept(cfg, mid.at, c.now);
    if r == Ok { DeletedIsAsAsked(o, cfg, run.start, c.now); }
  }

  lemma SweptIsVacant(o: Order, cfg: Config, s: State)
    requires o.Acceptable() && !ById(o) && cfg.settings == o.Settings() && Swept(cfg, s)
    ensures Vacant(s, cfg.lb)
  {
  }

  lemma StillSwept(cfg: Config, s: State, t: State)
    requires t == s.(balancers := t.balancers, eips := t.eips)
    ensures Swept(cfg, s) ==> Swept(cfg, t)
    ensures Orphans(cfg.name, t) == Orphans(cfg.name, s)
  {
  }
}

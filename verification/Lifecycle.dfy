/** The entry points: ensuring, updating and deleting the load balancer of a Service, and its EIPs. */
module Lifecycle {
  import opened Basics
  import opened CloudState
  import opened Service
  import opened Plan
  import opened Steps
  import opened Backend
  import opened Calls
  import opened Reconciler
  import opened Reconcile
  import opened Meaning
  import Annotations
  import Names

  /** One request to the provider: the Service, its cluster, the nodes and the cloud configuration. */
  datatype Order = Order(defaults: Annotations.Defaults, cluster: string, spec: Spec, nodes: seq<Node>)
  {
    /** The base name of everything the Service owns. */
    function Name(): string { Names.LoadBalancerName(cluster, spec.namespace, spec.name) }

    predicate Acceptable() { Annotations.Acceptable(defaults, spec.annotations) }

    function Settings(): Settings
      requires Acceptable()
    {
      Annotations.Merged(defaults, spec.annotations)
    }
  }

  /** What the provider relies on: the name leaves room for the separator, ports are distinct, probe times positive. */
  predicate Proper(o: Order) {
    && |o.Name()| < MAX_NAME
    && (forall i, j :: 0 <= i < j < |o.spec.ports| ==> o.spec.ports[i].key != o.spec.ports[j].key)
    && (o.Acceptable() ==> o.Settings().delay > 0 && o.Settings().timeout > 0 && o.Settings().retries > 0)
  }

  function ConfigFor(o: Order, lb: Id, balancer: Balancer): Config
    requires o.Acceptable()
  {
    Config(lb, o.Name(), balancer.subnet, o.Settings(), o.spec, o.nodes)
  }

  // ----- finding the load balancer -----

  predicate ById(o: Order)
    requires o.Acceptable()
  {
    o.Settings().balancerId != ""
  }

  /** The load balancer the order is about: the one the annotation names, or one with the Service's own name. */
  predicate IsBalancerOf(known: map<string, Id>, o: Order, s: State, lb: Id)
    requires o.Acceptable()
  {
    && lb in s.balancers
    && if ById(o) then o.Settings().balancerId in known && known[o.Settings().balancerId] == lb
       else s.balancers[lb].name == o.Name()
  }

  /** The load balancer with the identifier that the annotation names, or if it names none, with the Service's name. */
  predicate Intended(known: map<string, Id>, o: Order, s: State, lb: Id)
    requires o.Acceptable()
  {
    var id := o.Settings().balancerId;
    lb in s.balancers && if id == "" then s.balancers[lb].name == o.Name() else id in known && lb == known[id]
  }

  /** The configuration takes over what the order says, and the subnet of the load balancer it is for. */
  predicate Tailored(known: map<string, Id>, cfg: Config, o: Order, s: State)
    requires o.Acceptable()
  {
    && Intended(known, o, s, cfg.lb) && cfg.subnet == s.balancers[cfg.lb].subnet && cfg.name == o.Name()
    && cfg.settings == o.Settings() && cfg.service == o.spec && cfg.nodes == o.nodes
  }

  /** What the order asks for are the settings that its annotations mean. */
  lemma OrderIsMeant(o: Order)
    ensures o.Acceptable() ==> Annotations.SettingsMeant(o.defaults, o.spec.annotations, o.Settings())
    ensures !o.Acceptable() ==> forall s :: !Annotations.SettingsMeant(o.defaults, o.spec.annotations, s)
  {
    forall s
      ensures Annotations.SettingsMeant(o.defaults, o.spec.annotations, s) <==> o.Acceptable() && s == o.Settings()
    {
      Annotations.MergedIsMeant(o.defaults, o.spec.annotations, s);
    }
    hide Annotations.SettingsMeant, Annotations.Acceptable, Annotations.Merged;
  }

  method FindLoadBalancer(c: Cloud, o: Order) returns (r: Reply, found: Option<Id>)
    requires c.Valid() && o.Acceptable()
    modifies c`faults
    ensures c.Valid() && c.faults >= old(c.faults)
    ensures r == Ok || r == Other
    ensures r == Ok && found.Some? ==> IsBalancerOf(c.known, o, c.now, found.value)
    ensures r == Ok && found.None? ==> forall lb :: !IsBalancerOf(c.known, o, c.now, lb)
    ensures r == Ok && found.Some? ==> Intended(c.known, o, c.now, found.value)
    ensures r == Ok && found.None? ==> forall lb :: !Intended(c.known, o, c.now, lb)
    ensures c.faults == old(c.faults) ==> r == Ok
  {
    found := None;
    if ById(o) {
      if o.Settings().balancerId !in c.known {
        return Ok, None;
      }
      var lb := c.known[o.Settings().balancerId];
      var balancer;
      r, balancer := c.GetBalancer(lb);
      if r == Ok {
        found := Some(lb);
      } else {
        r := if r == NotFound then Ok else Other;
      }
      return;
    }
    var ids;
    r, ids := c.ListBalancers(o.Name());
    if r == Ok && |ids| > 0 {
      assert ids[0] in ids;
      found := Some(ids[0]);
    }
  }

  // ----- creating it -----

  /** The EIPs that the annotation lists, as identifiers. */
  function EipsOf(known: map<string, Id>, texts: seq<string>): seq<Id>
    requires forall t :: t in texts ==> t in known
  {
    seq(|texts|, i requires 0 <= i < |texts| => known[texts[i]])
  }

  /** `t` is `s` with a new load balancer `lb` for the order. */
  predicate Created(known: map<string, Id>, o: Order, s: State, t: State, lb: Id)
    requires o.Acceptable()
  {
    && (forall x :: x in o.Settings().eipIds ==> x in known)
    && Fresh(s, lb)
    && t == Apply(s, CreateBalancer(o.Name(), o.Settings().subnet, EipsOf(known, o.Settings().eipIds),
        o.Settings().eipBandwidth > 0), lb)
  }

  /** Nothing in the order itself prevents the creation of a load balancer. */
  predicate Creatable(known: map<string, Id>, o: Order)
    requires o.Acceptable()
  {
    && !ById(o) && o.Settings().subnet != "" && o.Settings().zones != []
    && forall x :: x in o.Settings().eipIds ==> x in known
  }

  /** The request for the load balancer of the order. */
  function CreationOf(known: map<string, Id>, o: Order): Op
    requires o.Acceptable() && forall x :: x in o.Settings().eipIds ==> x in known
  {
    CreateBalancer(o.Name(), o.Settings().subnet, EipsOf(known, o.Settings().eipIds), o.Settings().eipBandwidth > 0)
  }

  /** The requests before the reconciliation: they ask for the load balancer of the order, and only while there is
      none. */
  ghost predicate Opening(known: map<string, Id>, o: Order, calls: seq<Call>, s: State, t: State)
    requires o.Acceptable()
  {
    && Linked(calls, s, t)
    && forall i :: 0 <= i < |calls| ==>
         && Happened(calls[i]) && Creatable(known, o) && calls[i].op == CreationOf(known, o)
         && forall x :: !IsBalancerOf(known, o, calls[i].pre, x)
  }

  /** The new load balancer `lb` has the name and subnet of the order, and the listed EIPs, and behind them a new one
      exactly if a bandwidth is set; nothing else has changed. */
  ghost predicate CreatedAsAsked(known: map<string, Id>, o: Order, s: State, t: State, lb: Id)
    requires o.Acceptable()
  {
    && lb !in s.balancers && lb in t.balancers
    && t.balancers[lb].name == o.Name() && t.balancers[lb].subnet == o.Settings().subnet
    && t == s.(balancers := s.balancers[lb := t.balancers[lb]], eips := t.eips)
    && var ips, texts := t.balancers[lb].publicIps, o.Settings().eipIds;
       && |ips| == |texts| + (if o.Settings().eipBandwidth > 0 then 1 else 0)
       && (forall i :: 0 <= i < |texts| ==> texts[i] in known && ips[i] == known[texts[i]])
       && (if o.Settings().eipBandwidth > 0 then ips[|texts|] !in s.eips && t.eips == s.eips + {ips[|texts|]}
           else t.eips == s.eips)
  }

  lemma CreatedIsAsAsked(known: map<string, Id>, o: Order, s: State, t: State, lb: Id)
    requires o.Acceptable() && Created(known, o, s, t, lb)
    ensures CreatedAsAsked(known, o, s, t, lb)
  {
  }

  method CreateLoadBalancer(c: Cloud, o: Order) returns (r: Reply, lb: Id)
    requires c.Valid() && o.Acceptable() && !ById(o) && forall x :: !IsBalancerOf(c.known, o, c.now, x)
    modifies c
    ensures c.Valid() && c.faults >= old(c.faults) && old(c.log) <= c.log && |c.log| <= |old(c.log)| + 1
    ensures Opening(c.known, o, c.log[|old(c.log)|..], old(c.now), c.now)
    ensures r == Ok ==> Creatable(c.known, o) && Created(c.known, o, old(c.now), c.now, lb)
    ensures r == Ok ==> CreatedAsAsked(c.known, o, old(c.now), c.now, lb)
    ensures r == Ok || c.faults == old(c.faults) ==>
              (r == Ok <==> o.Settings().subnet != "" && o.Settings().zones != []
                            && forall x :: x in o.Settings().eipIds ==> x in c.known)
    ensures r != Ok ==> c.now == old(c.now)
    ensures c.faults == old(c.faults) ==> (r == Ok <==> Creatable(c.known, o))
  {
    lb := 0;
    var s := o.Settings();
    if s.subnet == "" || s.zones == [] {
      return Other, lb;
    }
    if exists i :: 0 <= i < |s.eipIds| && s.eipIds[i] !in c.known {
      return BadRequest, lb;
    }
    ghost var log0 := c.log;
    r, lb := c.Send(WholeBalancer, CreationOf(c.known, o));
    assert c.log[|log0|..] == [c.log[|log0|]] && c.log[|log0|..][..0] == [];
    if r == Ok { CreatedIsAsAsked(c.known, o, old(c.now), c.now, lb); }
  }

  lemma CreationKeepsWellFormed(known: map<string, Id>, o: Order, s: State, t: State, lb: Id, base: string)
    requires o.Acceptable() && Created(known, o, s, t, lb)
    ensures WellFormed(base, s) ==> WellFormed(base, t)
    ensures NoDuplicates(s) ==> NoDuplicates(t)
    ensures Orphans(base, t) == Orphans(base, s)
  {
  }

  // ----- EnsureLoadBalancer -----

  /** The checks made before any request. */
  predicate Supported(o: Order) {
    && o.spec.ports != [] && o.nodes != [] && o.Acceptable()
    && forall p :: p in o.spec.ports ==> p.key.proto == "TCP" || p.key.proto == "UDP"
  }

  method ValidatePorts(o: Order) returns (ok: bool)
    ensures ok <==> forall p :: p in o.spec.ports ==> p.key.proto == "TCP" || p.key.proto == "UDP"
  {
    for i := 0 to |o.spec.ports|
      invariant forall p :: p in o.spec.ports[..i] ==> p.key.proto == "TCP" || p.key.proto == "UDP"
    {
      if o.spec.ports[i].key.proto != "TCP" && o.spec.ports[i].key.proto != "UDP" {
        assert o.spec.ports[i] in o.spec.ports;
        return false;
      }
    }
    return true;
  }

  /** How far one call of an entry point got: refused or failed before the reconciliation, or into its run. */
  datatype Extent = Nowhere | Running(cfg: Config, run: Run)

  /** The load balancer of the order is `lb`, found as it was or just made. */
  ghost predicate Available(c: Cloud, o: Order, s: State, t: State, lb: Id)
    requires o.Acceptable()
  {
    && IsBalancerOf(c.known, o, t, lb)
    && (t == s || (Creatable(c.known, o) && (forall x :: !IsBalancerOf(c.known, o, s, x))
        && Created(c.known, o, s, t, lb)))
  }

  /** Finding the load balancer, or creating it when it is the Service's own. */
  method FindOrCreate(c: Cloud, o: Order) returns (r: Reply, lb: Id)
    requires c.Valid() && o.Acceptable() && WellFormed(o.Name(), c.now)
    modifies c
    ensures c.Valid() && c.faults >= old(c.faults) && WellFormed(o.Name(), c.now)
    ensures old(c.log) <= c.log && Opening(c.known, o, c.log[|old(c.log)|..], old(c.now), c.now)
    ensures r == Ok ==> Available(c, o, old(c.now), c.now, lb)
    ensures r != Ok ==> c.now == old(c.now)
    ensures NoDuplicates(old(c.now)) ==> NoDuplicates(c.now)
    ensures Orphans(o.Name(), c.now) == Orphans(o.Name(), old(c.now))
    ensures c.faults == old(c.faults) ==>
              (r == Ok <==> Creatable(c.known, o) || exists x :: IsBalancerOf(c.known, o, old(c.now), x))
  {
    lb := 0;
    var found;
    NothingAsked(c.known, o, c.log, c.now);
    r, found := FindLoadBalancer(c, o);
    if r != Ok {
      return;
    }
    if found.Some? {
      return Ok, found.value;
    }
    if ById(o) {
      return Other, lb;
    }
    r, lb := CreateLoadBalancer(c, o);
    if r == Ok {
      CreationKeepsWellFormed(c.known, o, old(c.now), c.now, lb, o.Name());
    }
  }

  lemma NothingAsked(known: map<string, Id>, o: Order, log: seq<Call>, s: State)
    requires o.Acceptable()
    ensures Opening(known, o, log[|log|..], s, s)
  {
  }

  /** A load balancer that is there is not asked for. */
  lemma OpeningIsEmpty(known: map<string, Id>, o: Order, calls: seq<Call>, s: State, t: State, lb: Id)
    requires o.Acceptable() && Opening(known, o, calls, s, t) && IsBalancerOf(known, o, s, lb)
    ensures calls == [] && t == s
    decreases |calls|
  {
    if calls != [] {
      OpeningIsEmpty(known, o, calls[..|calls| - 1], s, calls[|calls| - 1].pre, lb);
    }
  }

  /** The checks at the beginning of `EnsureLoadBalancer`. */
  method Check(o: Order) returns (ok: bool)
    ensures ok <==> Supported(o)
    ensures ok <==> && |o.spec.ports| > 0 && |o.nodes| > 0
                    && (forall i :: 0 <= i < |o.spec.ports| ==> o.spec.ports[i].key.proto in {"TCP", "UDP"})
                    && exists s :: Annotations.SettingsMeant(o.defaults, o.spec.annotations, s)
  {
    hide Annotations.SettingsMeant, Annotations.Acceptable, Annotations.Merged;
    OrderIsMeant(o);
    if |o.spec.ports| == 0 {
      return false;
    }
    var valid := ValidatePorts(o);
    if !valid || |o.nodes| == 0 {
      return false;
    }
    var settings := Annotations.SettingsForService(o.defaults, o.spec.annotations);
    return settings.Some?;
  }

  /** The reconciliation of the available load balancer `lb`, which has become active, and the final read. */
  method ReconcileBalancer(c: Cloud, o: Order, lb: Id)
    returns (r: Reply, balancer: Option<Balancer>, ghost cfg: Config, ghost run: Run)
    requires c.Valid() && Proper(o) && o.Acceptable() && WellFormed(o.Name(), c.now) && lb in c.now.balancers
    requires c.awaited == |c.log|
    modifies c
    ensures cfg == ConfigFor(o, lb, old(c.now).balancers[lb])
    ensures Reconciling(c, cfg, run) && run.start == old(c.now) && run.before == old(c.log)
    ensures c.faults >= old(c.faults)
    ensures r == Ok ==> lb in c.now.balancers && balancer == Some(c.now.balancers[lb])
    ensures r == Ok ==> NoStale(cfg, c.now) && Quiet(c, run)
    ensures |Leaked(o.Name(), run.start, c.now)| <= 1
    ensures r == Ok || c.faults == old(c.faults) ==> Leaked(o.Name(), run.start, c.now) == {}
    ensures r == Ok && NoDuplicates(run.start) ==> Converged(cfg, c.now) && InPlace(cfg, c.now)
    ensures c.faults == old(c.faults) && (forall p :: p in o.spec.ports ==> Feasible(cfg, run.start, p)) ==> r == Ok
  {
    hide Settled, Feasible, Orphans, NoStale, LegalRun, WellFormed, InPlace, Converged, FeasibleMeant;
    var config := ConfigFor(o, lb, c.balancers[lb]);
    cfg, run := config, Run(Ensuring, c.now, c.log);
    RunStarts(c, o, cfg, run);
    ghost var leak;
    balancer := None;
    r, leak := ReconcileService(c, config, run);
    LeakedWithin(o.Name(), run.start, c.now, leak);
    if r == Ok {
      r, balancer := c.GetBalancer(lb);
    }
  }

  /** The request log when the run began, or as it is now if there was no run. */
  ghost function LogBefore(c: Cloud, how: Extent): seq<Call>
    reads c
  {
    if how.Running? then how.run.before else c.log
  }

  /** The cloud at that time. */
  ghost function StateBefore(c: Cloud, how: Extent): State
    reads c
  {
    if how.Running? then how.run.start else c.now
  }

  /** On success the load balancer is returned as it is after the reconciliation. */
  method EnsureLoadBalancer(c: Cloud, o: Order) returns (r: Reply, balancer: Option<Balancer>, ghost how: Extent)
    requires c.Valid() && Proper(o) && WellFormed(o.Name(), c.now)
    modifies c
    ensures c.Valid() && c.faults >= old(c.faults) && WellFormed(o.Name(), c.now)
    ensures !Supported(o) ==> r != Ok && c.now == old(c.now) && c.log == old(c.log)
    ensures old(c.log) <= LogBefore(c, how)
    ensures Supported(o) ==>
              Opening(c.known, o, LogBefore(c, how)[|old(c.log)|..], old(c.now), StateBefore(c, how))
    ensures how.Nowhere? ==> r != Ok
    ensures how.Nowhere? ==>
              (c.now == old(c.now) || (Supported(o) && exists lb :: Available(c, o, old(c.now), c.now, lb)))
    ensures how.Running? ==>
              && Supported(o) && Reconciling(c, how.cfg, how.run)
              && Available(c, o, old(c.now), how.run.start, how.cfg.lb)
              && how.cfg.lb in how.run.start.balancers
              && how.cfg == ConfigFor(o, how.cfg.lb, how.run.start.balancers[how.cfg.lb])
              && Tailored(c.known, how.cfg, o, how.run.start)
    ensures r == Ok ==> how.cfg.lb in c.now.balancers && balancer == Some(c.now.balancers[how.cfg.lb])
    ensures r == Ok ==> NoStale(how.cfg, c.now) && Quiet(c, how.run)
    ensures |Leaked(o.Name(), old(c.now), c.now)| <= 1
    ensures r == Ok || c.faults == old(c.faults) ==> Leaked(o.Name(), old(c.now), c.now) == {}
    ensures r == Ok && NoDuplicates(old(c.now)) ==> Converged(how.cfg, c.now) && InPlace(how.cfg, c.now)
    ensures c.faults == old(c.faults) && Supported(o) ==>
              (how.Running? <==> Creatable(c.known, o) || exists x :: IsBalancerOf(c.known, o, old(c.now), x))
    ensures c.faults == old(c.faults) && how.Running? ==>
              (forall p :: p in o.spec.ports ==> Feasible(how.cfg, how.run.start, p)) ==> r == Ok
  {
    hide Converged, Feasible, Orphans, NoStale, LegalRun, KeysUnique, ProbesPlain, GroupsTidy, References, Supported,
        Created, Creatable, NoDuplicates, Proper, InPlace, Tailored, Quiet, Opening, Annotations.SettingsMeant;
    how, balancer := Nowhere, None;
    var ok := Check(o);
    SupportedIsAcceptable(o);
    if !ok {
      return Other, None, how;
    }
    var lb;
    r, lb := FindOrCreate(c, o);
    if r != Ok {
      return;
    }
    r := c.WaitForActive(lb);
    if r != Ok {
      return;
    }
    ghost var cfg, run;
    r, balancer, cfg, run := ReconcileBalancer(c, o, lb);
    how := Running(cfg, run);
    ConfigIsTailored(c.known, o, cfg, run.start);
  }

  lemma ConfigIsTailored(known: map<string, Id>, o: Order, cfg: Config, s: State)
    requires o.Acceptable() && IsBalancerOf(known, o, s, cfg.lb) && cfg == ConfigFor(o, cfg.lb, s.balancers[cfg.lb])
    ensures Tailored(known, cfg, o, s)
  {
  }

  lemma SupportedIsAcceptable(o: Order)
    ensures Supported(o) ==> o.Acceptable()
  {
  }

  lemma RunStarts(c: Cloud, o: Order, cfg: Config, run: Run)
    requires c.Valid() && WellFormed(o.Name(), c.now) && Proper(o) && o.Acceptable()
    requires cfg.lb in c.now.balancers && cfg == ConfigFor(o, cfg.lb, c.now.balancers[cfg.lb])
    requires run.start == c.now && run.before == c.log
    ensures Ongoing(c, cfg, run)
  {
  }
}

/** Several Services on shared load balancers, their requests interleaved in any order. */
module Interleave {
  import opened Basics
  import opened CloudState
  import opened Service
  import opened Plan
  import opened Steps
  import opened Isolation
  import opened Solo
  import Life

  /** A Service by its base name, with the keys it has or may want on its load balancer. */
  datatype Party = Party(name: string, lb: Id, keys: set<Key>)

  /** One request of one Service; `done` says whether it took effect or failed. */
  datatype Act = Act(cfg: Config, verb: Verb, why: Purpose, op: Op, id: Id, done: bool)

  /** No name belongs to both, and on a common load balancer their keys are disjoint. */
  ghost predicate Foreign(x: Party, y: Party) {
    && Apart(x.name, y.name, true) && Apart(y.name, x.name, true)
    && (x.lb != y.lb || x.keys !! y.keys)
  }

  ghost predicate Neighbours(parties: set<Party>) {
    forall x, y :: x in parties && y in parties && x != y ==> Foreign(x, y)
  }

  predicate Plays(x: Party, a: Act) {
    && a.cfg.name == x.name && a.cfg.lb == x.lb && Sound(a.cfg) && a.cfg.Wanted() <= x.keys
    && (a.verb == Deleting ==> Shared(a.cfg))
  }

  predicate Allowed(s: State, a: Act) { Justified(a.cfg, a.verb, s, a.why, a.op) }

  /** Identifiers are given out once: a new one is unused, and that of a listener just removed has not gone to another
      Service. */
  predicate NewId(s: State, a: Act) {
    && (a.done ==> Fresh(s, a.id))
    && (a.op.DeleteGroup? && a.why.Removing? && a.why.listener in s.listeners ==>
        OwnListener(a.cfg.name, s, a.why.listener))
  }

  function After(s: State, a: Act): State {
    if a.done && Verdict(s, a.op) == Ok then Apply(s, a.op, a.id) else s
  }

  /** The cloud after all requests. */
  function Play(s: State, acts: seq<Act>): State {
    if acts == [] then s else After(Play(s, acts[..|acts| - 1]), acts[|acts| - 1])
  }

  /** Every request is justified when it is made, and accepted by the backend unless it fails spuriously. */
  predicate Legal(s: State, acts: seq<Act>) {
    if acts == [] then true
    else
      var n := |acts| - 1;
      && Legal(s, acts[..n]) && Allowed(Play(s, acts[..n]), acts[n])
      && Verdict(Play(s, acts[..n]), acts[n].op) == Ok
  }

  predicate NewIds(s: State, acts: seq<Act>) {
    if acts == [] then true
    else NewIds(s, acts[..|acts| - 1]) && NewId(Play(s, acts[..|acts| - 1]), acts[|acts| - 1])
  }

  /** The requests of one Service, in the order it made them. */
  function Of(name: string, acts: seq<Act>): seq<Act> {
    if acts == [] then []
    else
      var n := |acts| - 1;
      Of(name, acts[..n]) + if acts[n].cfg.name == name then [acts[n]] else []
  }

  /** Listeners of the Service bind no IP groups of others. */
  ghost predicate HomeGroups(base: string, s: State) {
    forall l :: OwnListener(base, s, l) && s.listeners[l].group.Some? && s.listeners[l].group.value in s.groups ==>
      OwnGroup(base, s, s.listeners[l].group.value)
  }

  /** The cloud is well-formed, and the Service keeps to its own resources and keys. */
  ghost predicate Domain(x: Party, s: State) {
    && WellFormed(x.name, s) && Coherent(x.name, s) && Territory(x.name, x.lb, x.keys, s) && HomeGroups(x.name, s)
  }

  // ----- one request of the Service itself -----

  lemma DomainIsHomely(x: Party, s: State, a: Act)
    requires Domain(x, s) && Plays(x, a)
    ensures Homely(a.cfg, a.verb, s)
  {
  }

  /** On the Service's own keys its slice shows every listener. */
  lemma NoneTogether(base: string, s: State, lb: Id, key: Key)
    requires Territory(base, lb, {key}, s)
    ensures NoneAt(Mine(base, s), lb, key) ==> NoneAt(s, lb, key)
  {
    forall l | At(s, lb, key, l) ensures At(Mine(base, s), lb, key, l) {
    }
  }

  /** The slice shows every listener that binds one of the Service's groups. */
  lemma BindersTogether(base: string, s: State, g: Id, l: Id)
    requires GroupsAtHome(base, s) && OwnGroup(base, s, g)
    ensures BoundOnlyTo(Mine(base, s), g, l) ==> BoundOnlyTo(s, g, l)
    ensures Bound(s, g) ==> Bound(Mine(base, s), g)
  {
    forall k | k in s.listeners && s.listeners[k].group == Some(g)
      ensures k in Mine(base, s).listeners && Mine(base, s).listeners[k].group == Some(g)
    {
    }
  }

  lemma UpkeepTogether(cfg: Config, s: State, p: Port, l: Id, op: Op)
    requires Sound(cfg) && Upkeep(cfg, Mine(cfg.name, s), p, l, op) && s.members.Keys == s.pools.Keys
    requires Territory(cfg.name, cfg.lb, {p.key}, s) && HomeGroups(cfg.name, s) && GroupsAtHome(cfg.name, s)
    ensures Upkeep(cfg, s, p, l, op)
  {
    OwnershipIff(cfg.name, p.key);
    match op {
      case CreateListener(lb, _, key, _) => NoneTogether(cfg.name, s, lb, key);
      case SetGroup(_, g, _, _) => BindersTogether(cfg.name, s, g, l);
      case _ =>
    }
  }

  lemma RemovalTogether(base: string, s: State, l: Id, op: Op)
    requires Removal(base, Mine(base, s), l, op) && s.members.Keys == s.pools.Keys && GroupsAtHome(base, s)
    requires op.DeleteGroup? && l in s.listeners ==> OwnListener(base, s, l)
    ensures Removal(base, s, l, op)
  {
    if op.DeleteGroup? {
      BindersTogether(base, s, op.group, l);
    }
  }

  /** What is justified for the Service on its own slice is justified on the whole cloud. */
  lemma JustifiedTogether(x: Party, s: State, a: Act)
    requires Domain(x, s) && Plays(x, a) && NewId(s, a) && Allowed(Mine(x.name, s), a)
    ensures Allowed(s, a)
  {
    if a.why.ForPort? {
      assert a.why.port.key in a.cfg.Wanted();
      UpkeepTogether(a.cfg, s, a.why.port, a.why.listener, a.op);
    } else {
      RemovalTogether(x.name, s, a.why.listener, a.op);
    }
  }

  lemma AllowedIffAlone(x: Party, s: State, a: Act)
    requires Domain(x, s) && Plays(x, a) && NewId(s, a)
    ensures Allowed(s, a) <==> Allowed(Mine(x.name, s), a)
  {
    if Allowed(s, a) {
      DomainIsHomely(x, s, a);
      JustifiedAlone(a.cfg, a.verb, s, a.why, a.op);
    } else if Allowed(Mine(x.name, s), a) {
      JustifiedTogether(x, s, a);
    }
  }

  lemma HomeGroupsStep(base: string, s: State, op: Op, id: Id)
    requires HomeGroups(base, s) && Verdict(s, op) == Ok && Fresh(s, id)
    requires op.SetGroup? ==> (OwnListener(base, s, op.listener) ==> OwnGroup(base, s, op.group))
    ensures HomeGroups(base, Apply(s, op, id))
  {
    hide Apply, Verdict;
    var t := Apply(s, op, id);
    if op.CreateListener? {
      ListenerMade(s, op, id);
    }
    if op.CreateGroup? {
      GroupMade(s, op, id);
    }
    if op.SetGroup? {
      Attached(s, op, id);
    }
    forall l | l in t.listeners && (op.CreateListener? ==> l != id)
      ensures l in s.listeners && t.listeners[l].name == s.listeners[l].name
      ensures (op.SetGroup? ==> l != op.listener) ==> t.listeners[l].group == s.listeners[l].group
    {
      PlaceKept(s, op, id, l);
      if op.SetGroup? ==> l != op.listener {
        BindingKept(s, op, id, l);
      }
    }
    forall g | g in t.groups && (op.CreateGroup? ==> g != id)
        ensures g in s.groups && t.groups[g].name == s.groups[g].name {
      GroupKept(s, op, id, g);
    }
  }

  lemma AttachesHome(cfg: Config, verb: Verb, s: State, why: Purpose, op: Op)
    requires Sound(cfg) && Justified(cfg, verb, s, why, op)
    ensures op.SetGroup? ==> OwnGroup(cfg.name, s, op.group)
    ensures op.CreateListener? ==> op.lb == cfg.lb && op.key in cfg.Wanted() && Own(cfg.name, op.name)
  {
  }

  /** A request of the Service: accepted, kept within its domain, and the same on its slice alone. */
  lemma OwnStep(x: Party, s: State, a: Act)
    requires Domain(x, s) && Plays(x, a) && NewId(s, a) && Allowed(s, a)
    ensures Domain(x, After(s, a)) && Verdict(s, a.op) == Ok && Verdict(Mine(x.name, s), a.op) == Ok
    ensures Mine(x.name, After(s, a)) == After(Mine(x.name, s), a)
  {
    hide Slice, Coherent, KeysUnique, ProbesPlain, GroupsTidy, Territory, HomeGroups, OwnOp, Justified;
    var cfg, verb := a.cfg, a.verb;
    DomainIsHomely(x, s, a);
    JustifiedIsOwn(cfg, verb, s, a.why, a.op);
    JustifiedIsAccepted(cfg, verb, s, a.why, a.op);
    OwnOpAcceptedAlone(x.name, s, a.op);
    AttachesHome(cfg, verb, s, a.why, a.op);
    if a.done {
      Life.JustifiedIsMatched(cfg, verb, s, a.why, a.op);
      JustifiedIsSane(cfg, verb, s, a.why, a.op);
      JustifiedKeepsWellFormed(cfg, verb, s, a.why, a.op, a.id);
      MatchedKeepsCoherent(x.name, s, a.op, a.id);
      TerritoryStep(x.name, x.lb, x.keys, s, a.op, a.id);
      HomeGroupsStep(x.name, s, a.op, a.id);
      OwnOpCommutes(x.name, s, a.op, a.id);
    }
  }

  // ----- one request of a neighbour -----

  lemma ForeignIsMatched(x: Party, y: Party, s: State, a: Act)
    requires Domain(x, s) && Plays(x, a) && Allowed(s, a) && Foreign(x, y)
    requires OwnOp(x.name, s, a.op)
    ensures Matched(y.name, s, a.op)
    ensures a.op.SetGroup? ==> !OwnGroup(y.name, s, a.op.group) && !OwnListener(y.name, s, a.op.listener)
  {
  }

  lemma ForeignKeepsTidy(base: string, s: State, op: Op, id: Id)
    requires GroupsTidy(base, s) && Verdict(s, op) == Ok && Fresh(s, id)
    requires op.SetGroup? ==> !OwnGroup(base, s, op.group)
    ensures GroupsTidy(base, Apply(s, op, id))
  {
    if !op.SetGroup? {
      DetachedKeepsTidy(base, s, op, id);
    }
  }

  /** A request of `x` leaves the slice of `y` exactly as it was, and `y` in its domain. */
  lemma ForeignStep(x: Party, y: Party, s: State, a: Act)
    requires Domain(x, s) && Domain(y, s) && Foreign(x, y) && Plays(x, a) && NewId(s, a) && Allowed(s, a)
    ensures Domain(y, After(s, a)) && Mine(y.name, After(s, a)) == Mine(y.name, s)
  {
    hide Slice, Coherent, KeysUnique, ProbesPlain, GroupsTidy, Territory, HomeGroups, OwnOp, Justified, Apart;
    var cfg, verb := a.cfg, a.verb;
    DomainIsHomely(x, s, a);
    JustifiedIsOwn(cfg, verb, s, a.why, a.op);
    JustifiedIsAccepted(cfg, verb, s, a.why, a.op);
    if a.done {
      AttachesHome(cfg, verb, s, a.why, a.op);
      ForeignIsMatched(x, y, s, a);
      JustifiedIsSane(cfg, verb, s, a.why, a.op);
      JustifiedKeepsWellFormed(cfg, verb, s, a.why, a.op, a.id);
      ForeignKeepsTidy(y.name, s, a.op, a.id);
      MatchedKeepsCoherent(y.name, s, a.op, a.id);
      TerritoryStep(y.name, y.lb, y.keys, s, a.op, a.id);
      HomeGroupsStep(y.name, s, a.op, a.id);
      OwnOpKeepsSlice(x.name, s, a.op, a.id, y.name, true);
    }
  }

  // ----- any interleaving -----

  ghost predicate AllDomains(parties: set<Party>, s: State) {
    forall x :: x in parties ==> Domain(x, s)
  }

  ghost predicate AllPlay(parties: set<Party>, acts: seq<Act>) {
    forall i :: 0 <= i < |acts| ==> exists x :: x in parties && Plays(x, acts[i])
  }

  /** Every Service sees exactly the cloud it would have made of its own requests alone. */
  ghost predicate AsAlone(parties: set<Party>, s: State, acts: seq<Act>) {
    forall x :: x in parties ==> Mine(x.name, Play(s, acts)) == Play(Mine(x.name, s), Of(x.name, acts))
  }

  /** Every Service's own requests are legal on its own slice. */
  ghost predicate LegalAlone(parties: set<Party>, s: State, acts: seq<Act>) {
    forall x :: x in parties ==> Legal(Mine(x.name, s), Of(x.name, acts))
  }

  lemma OneMore(x: Party, s: State, before: seq<Act>, a: Act)
    ensures Of(x.name, before + [a]) == if a.cfg.name == x.name then Of(x.name, before) + [a] else Of(x.name, before)
    ensures Play(s, before + [a]) == After(Play(s, before), a)
    ensures Legal(s, before + [a]) <==>
            Legal(s, before) && Allowed(Play(s, before), a) && Verdict(Play(s, before), a.op) == Ok
    ensures NewIds(s, before + [a]) <==> NewIds(s, before) && NewId(Play(s, before), a)
  {
  }

  /** How one more request of `x` looks to `z`, which may be `x` itself or a neighbour. */
  lemma OneMoreSeen(x: Party, z: Party, s: State, before: seq<Act>, a: Act)
    requires Domain(x, Play(s, before)) && Domain(z, Play(s, before)) && (x == z || Foreign(x, z))
    requires Plays(x, a) && NewId(Play(s, before), a)
    requires Mine(z.name, Play(s, before)) == Play(Mine(z.name, s), Of(z.name, before))
    requires Allowed(Play(s, before), a) && Verdict(Play(s, before), a.op) == Ok
    requires Legal(Mine(z.name, s), Of(z.name, before))
    ensures Domain(z, Play(s, before + [a]))
    ensures Mine(z.name, Play(s, before + [a])) == Play(Mine(z.name, s), Of(z.name, before + [a]))
    ensures Legal(Mine(z.name, s), Of(z.name, before + [a]))
  {
    hide Domain, Foreign, Slice, Justified, Allowed, Plays;
    var now := Play(s, before);
    OneMore(z, s, before, a);
    OneMore(z, Mine(z.name, s), Of(z.name, before), a);
    if x == z {
      SamePartyName(x, a);
      OwnStep(x, now, a);
      AllowedIffAlone(x, now, a);
    } else {
      DifferentNames(x, z, a);
      ForeignStep(x, z, now, a);
    }
  }

  lemma SamePartyName(x: Party, a: Act)
    requires Plays(x, a)
    ensures a.cfg.name == x.name
  {
  }

  lemma DifferentNames(x: Party, z: Party, a: Act)
    requires Plays(x, a) && Foreign(x, z)
    ensures a.cfg.name != z.name
  {
    assert Own(x.name, x.name + "_");
  }

  /** The requests of each Service, legal on its slice alone, can be interleaved in any order: every one of them stays
      justified and accepted on the shared cloud, and every Service ends with the view it has when run alone. */
  lemma {:induction false} Interleaving(parties: set<Party>, s: State, acts: seq<Act>)
    requires Neighbours(parties) && AllDomains(parties, s) && AllPlay(parties, acts) && NewIds(s, acts)
    ensures Legal(s, acts) <==> LegalAlone(parties, s, acts)
    ensures Legal(s, acts) ==> AllDomains(parties, Play(s, acts)) && AsAlone(parties, s, acts)
    decreases |acts|
  {
    hide Domain, Foreign, Slice, Justified, Allowed, Plays, Apart;
    if acts != [] {
      var n := |acts| - 1;
      var before, a := acts[..n], acts[n];
      assert acts == before + [a];
      Interleaving(parties, s, before);
      var x :| x in parties && Plays(x, a);
      if Legal(s, before) {
        LastAct(parties, x, s, before, a);
      } else {
        assert !LegalAlone(parties, s, before);
        EarlierIllegal(parties, s, before, a);
      }
    }
  }

  lemma EarlierIllegal(parties: set<Party>, s: State, before: seq<Act>, a: Act)
    requires !LegalAlone(parties, s, before)
    ensures !LegalAlone(parties, s, before + [a])
  {
    hide Slice, Justified, Allowed;
    var z :| z in parties && !Legal(Mine(z.name, s), Of(z.name, before));
    OneMore(z, s, before, a);
    OneMore(z, Mine(z.name, s), Of(z.name, before), a);
  }

  lemma LastAct(parties: set<Party>, x: Party, s: State, before: seq<Act>, a: Act)
    requires Neighbours(parties) && x in parties && Plays(x, a) && NewId(Play(s, before), a)
    requires AllDomains(parties, Play(s, before)) && AsAlone(parties, s, before) && LegalAlone(parties, s, before)
    requires Legal(s, before)
    ensures Legal(s, before + [a]) <==> LegalAlone(parties, s, before + [a])
    ensures Legal(s, before + [a]) ==> AllDomains(parties, Play(s, before + [a])) && AsAlone(parties, s, before + [a])
  {
    hide Domain, Foreign, Slice, Justified, Allowed, Plays, Apart;
    var now := Play(s, before);
    OneMore(x, s, before, a);
    OneMore(x, Mine(x.name, s), Of(x.name, before), a);
    AllowedIffAlone(x, now, a);
    SamePartyName(x, a);
    if Allowed(now, a) {
      OwnStep(x, now, a);
      forall z | z in parties
        ensures Domain(z, Play(s, before + [a]))
        ensures Mine(z.name, Play(s, before + [a])) == Play(Mine(z.name, s), Of(z.name, before + [a]))
        ensures Legal(Mine(z.name, s), Of(z.name, before + [a]))
      {
        OneMoreSeen(x, z, s, before, a);
      }
    } else {
      assert !Legal(Mine(x.name, s), Of(x.name, before + [a]));
    }
  }

  // ----- what the view decides -----

  /** The slice shows the whole tree of an own listener. */
  lemma SameTree(x: Party, s: State, l: Id)
    requires Domain(x, s) && OwnListener(x.name, s, l)
    ensures TreeOf(Mine(x.name, s), l) == TreeOf(s, l)
  {
  }

  /** Two clouds that show a Service the same view. */
  ghost predicate SameView(x: Party, s: State, t: State) {
    Domain(x, s) && Domain(x, t) && Mine(x.name, s) == Mine(x.name, t)
  }

  /** What a Service reads depends on its view only: the listener on each of its keys, its own listeners, and the pools,
      members, monitors and IP groups behind them. */
  lemma ReadsDependOnView(x: Party, s: State, t: State, l: Id)
    requires SameView(x, s, t)
    ensures OwnListener(x.name, s, l) <==> OwnListener(x.name, t, l)
    ensures OwnListener(x.name, s, l) ==> TreeOf(s, l) == TreeOf(t, l)
    ensures forall key :: key in x.keys ==> (At(s, x.lb, key, l) <==> At(t, x.lb, key, l))
    ensures forall key :: key in x.keys && At(s, x.lb, key, l) ==> TreeOf(s, l) == TreeOf(t, l)
  {
    hide WellFormed, Coherent, TreeOf;
    assert l in s.listeners && Own(x.name, s.listeners[l].name) ==> l in Mine(x.name, s).listeners;
    assert l in t.listeners && Own(x.name, t.listeners[l].name) ==> l in Mine(x.name, t).listeners;
    if OwnListener(x.name, s, l) {
      SameTree(x, s, l);
      SameTree(x, t, l);
    }
  }

  /** Whatever the others did: with the same view a Service may issue the same requests, and they have the same effect
      on the view. */
  lemma RequestsDependOnView(x: Party, s: State, t: State, a: Act)
    requires SameView(x, s, t) && Plays(x, a) && NewId(s, a) && NewId(t, a)
    ensures Allowed(s, a) <==> Allowed(t, a)
    ensures Allowed(s, a) ==> SameView(x, After(s, a), After(t, a))
  {
    hide Domain, Slice, Allowed, Plays, NewId;
    AllowedIffAlone(x, s, a);
    AllowedIffAlone(x, t, a);
    if Allowed(s, a) {
      OwnStep(x, s, a);
      OwnStep(x, t, a);
    }
  }

  lemma StaleAlone(cfg: Config, s: State)
    ensures NoStale(cfg, s) <==> NoStale(cfg, Mine(cfg.name, s))
  {
    var mine := Mine(cfg.name, s);
    forall l | l in s.listeners && Own(cfg.name, s.listeners[l].name)
      ensures l in mine.listeners && mine.listeners[l] == s.listeners[l]
    {
    }
  }

  /** Whether a Service has reached its wanted state can be read off its own view. */
  lemma ConvergedAlone(x: Party, cfg: Config, s: State)
    requires Domain(x, s) && cfg.name == x.name && cfg.lb == x.lb && cfg.Wanted() <= x.keys
    ensures Converged(cfg, s) <==> Converged(cfg, Mine(x.name, s))
  {
    hide Settled, WellFormed, Coherent, NoStale;
    StaleAlone(cfg, s);
    var mine := Mine(x.name, s);
    forall p | p in cfg.Ports() ensures PortSettled(cfg, s, p) <==> PortSettled(cfg, mine, p) {
      assert p.key in cfg.Wanted();
      forall l ensures At(s, cfg.lb, p.key, l) <==> At(mine, cfg.lb, p.key, l) {
      }
      forall l | At(s, cfg.lb, p.key, l) ensures TreeOf(mine, l) == TreeOf(s, l) {
        SameTree(x, s, l);
      }
    }
  }
}

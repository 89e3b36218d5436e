/** Source ranges as an IP group (whitelist) on a listener: reconcile, attach and delete. */
module IpGroups {
  import opened Basics
  import opened CloudState
  import opened Service
  import opened Plan
  import opened Backend
  import opened Calls
  import opened Meaning
  import Ranges

  /** The two listeners differ in their IP group binding only. */
  predicate SameButGroup(a: Listener, b: Listener) {
    b == a.(group := b.group, enabled := b.enabled, kind := b.kind)
  }

  /** Between `s` and `t` only IP groups and the binding of listener `l` have changed. */
  ghost predicate OnlyAccess(s: State, t: State, l: Id) {
    && t.balancers == s.balancers && t.eips == s.eips
    && t.pools == s.pools && t.members == s.members && t.monitors == s.monitors
    && l in s.listeners && l in t.listeners && SameButGroup(s.listeners[l], t.listeners[l])
    && Frame(s, t, l)
  }

  method AttachIPGroup(c: Cloud, cfg: Config, ghost run: Run, ghost port: Port, l: Id, g: Id) returns (r: Reply)
    requires Ongoing(c, cfg, run) && MayCall(cfg, run, c.now, ForPort(port, l), SetGroup(l, g, true, "white"))
    requires Quiet(c, run)
    modifies c
    ensures Ongoing(c, cfg, run) && c.faults >= old(c.faults)
    ensures r == Ok ==> Quiet(c, run)
    ensures OnlyAccess(old(c.now), c.now, l) && c.now.groups == old(c.now).groups
    ensures r == Ok ==> c.now.listeners[l].group == Some(g) && c.now.listeners[l].enabled == Some(true)
                        && c.now.listeners[l].kind == "white"
    ensures Orphans(cfg.name, c.now) <= Orphans(cfg.name, old(c.now))
    ensures c.faults == old(c.faults) ==> r == Ok
  {
    hide Quiet;
    var id;
    r, id := Mutate(c, cfg, run, cfg.lb, ForPort(port, l), SetGroup(l, g, true, "white"));
  }

  /** No IP group of another owner stands in the way of a whitelist. */
  predicate NoForeignGroup(cfg: Config, s: State, p: Port, l: Id) {
    cfg.Whitelist() != [] && l in s.listeners && TreeOf(s, l).value.group.Some? ==>
      TreeOf(s, l).value.group.value.name == ResourceName(cfg.name, p.key)
  }

  /** The state in which a port's access can be reconciled: its listener, as listed before. */
  ghost predicate AccessReady(c: Cloud, cfg: Config, run: Run, port: Port, l: Id, listener: Listener)
    reads c
  {
    && Ongoing(c, cfg, run) && run.verb == Ensuring && port in cfg.Ports()
    && At(c.now, cfg.lb, port.key, l)
    && listener.group == c.now.listeners[l].group && listener.enabled == c.now.listeners[l].enabled
  }

  /** No restriction wanted: the whitelist is disabled but kept, since the API cannot detach it. */
  method DisableIPGroup(c: Cloud, cfg: Config, ghost run: Run, port: Port, l: Id, listener: Listener) returns (r: Reply)
    requires AccessReady(c, cfg, run, port, l, listener) && cfg.Whitelist() == []
    requires Quiet(c, run)
    modifies c
    ensures Ongoing(c, cfg, run) && c.faults >= old(c.faults)
    ensures r == Ok ==> Quiet(c, run)
    ensures OnlyAccess(old(c.now), c.now, l) && c.now.groups == old(c.now).groups
    ensures r == Ok ==> Open(cfg, port, TreeOf(c.now, l).value)
    ensures c.now != old(c.now) ==> !Open(cfg, port, TreeOf(old(c.now), l).value)
    ensures Orphans(cfg.name, c.now) <= Orphans(cfg.name, old(c.now))
    ensures c.faults == old(c.faults) ==> r == Ok
  {
    hide LegalRun, KeysUnique, ProbesPlain, PoolRefs, MonitorRefs, Quiet;
    if listener.group.None? {
      return Ok;
    }
    var g := listener.group.value;
    var group;
    r, group := c.GetGroup(g);
    if r == NotFound {
      return Ok;
    }
    if r != Ok {
      return;
    }
    if group.value.name != ResourceName(cfg.name, port.key) || listener.enabled != Some(true) {
      return Ok;
    }
    OwnershipIff(cfg.name, port.key);
    var id;
    r, id := Mutate(c, cfg, run, cfg.lb, ForPort(port, l), SetGroup(l, g, false, ""));
  }

  method UpdateIPGroup(c: Cloud, cfg: Config, ghost run: Run, ghost port: Port, ghost l: Id, g: Id, ranges: seq<string>)
    returns (r: Reply)
    requires Ongoing(c, cfg, run) && MayCall(cfg, run, c.now, ForPort(port, l), UpdateGroup(g, ranges))
    requires Quiet(c, run)
    modifies c
    ensures Ongoing(c, cfg, run) && c.faults >= old(c.faults)
    ensures r == Ok ==> Quiet(c, run)
    ensures OnlyAccess(old(c.now), c.now, l) && c.now.listeners == old(c.now).listeners
    ensures r != Ok ==> c.now == old(c.now)
    ensures r == Ok ==> c.now.groups == old(c.now).groups[g := old(c.now).groups[g].(ips := ranges)]
    ensures Orphans(cfg.name, c.now) <= Orphans(cfg.name, old(c.now))
    ensures c.faults == old(c.faults) ==> r == Ok
  {
    hide LegalRun, KeysUnique, ProbesPlain, PoolRefs, MonitorRefs, Quiet;
    var id;
    ghost var log0 := c.log;
    QuietIs(c, run);
    r, id := RetryOnConflict(c, cfg, run, ForPort(port, l), UpdateGroup(g, ranges));
    GroupsStayQuiet(c, run, ForPort(port, l), UpdateGroup(g, ranges), log0, r);
  }

  /** A group of ours is attached: its ranges are updated and the whitelist is enabled again. */
  method RefreshIPGroup(c: Cloud, cfg: Config, ghost run: Run, port: Port, l: Id, listener: Listener,
                        g: Id, group: Group, ranges: seq<string>) returns (r: Reply)
    requires AccessReady(c, cfg, run, port, l, listener) && ranges == cfg.Whitelist() && ranges != []
    requires HasGroup(c.now, l, g) && group == c.now.groups[g] && group.name == ResourceName(cfg.name, port.key)
    requires Quiet(c, run)
    modifies c
    ensures Ongoing(c, cfg, run) && c.faults >= old(c.faults)
    ensures r == Ok ==> Quiet(c, run)
    ensures OnlyAccess(old(c.now), c.now, l)
    ensures r == Ok ==> Whitelisted(cfg, port, TreeOf(c.now, l).value)
    ensures Orphans(cfg.name, c.now) <= Orphans(cfg.name, old(c.now))
    ensures c.faults == old(c.faults) ==> r == Ok
  {
    hide LegalRun, KeysUnique, ProbesPlain, PoolRefs, MonitorRefs, Quiet;
    OwnershipIff(cfg.name, port.key);
    var equal := Ranges.IpListEqual(group.ips, ranges);
    if !equal {
      r := UpdateIPGroup(c, cfg, run, port, l, g, ranges);
      if r != Ok {
        return;
      }
    }
    if listener.enabled != Some(true) {
      r := AttachIPGroup(c, cfg, run, port, l, g);
    } else {
      r := Ok;
    }
  }

  /** A group just created for the port can be attached: nothing binds it yet. */
  lemma NewGroupMayAttach(cfg: Config, s: State, p: Port, l: Id, g: Id, t: State)
    requires l in s.listeners && Get(s.groups, s.listeners[l].group).None?
    requires cfg.Whitelist() != []
    requires Effect(s, CreateGroup(ResourceName(cfg.name, p.key), cfg.Whitelist()), g, t)
    ensures t.listeners == s.listeners
    ensures MayAttach(cfg, t, p, l, g, true, "white")
    ensures t.groups == s.groups[g := Group(ResourceName(cfg.name, p.key), cfg.Whitelist())]
    ensures t == s.(groups := t.groups)
  {
  }

  /** The groups made for the port since `s`. */
  function NewGroups(cfg: Config, s: State, t: State, p: Port): set<Id> {
    set g | g in t.groups && g !in s.groups && t.groups[g].name == ResourceName(cfg.name, p.key)
  }

  /** The new group, ready to be attached; nothing else changes. */
  method MakeGroup(c: Cloud, cfg: Config, ghost run: Run, port: Port, ghost l: Id, ghost listener: Listener,
                   ranges: seq<string>)
    returns (r: Reply, g: Id)
    requires AccessReady(c, cfg, run, port, l, listener) && ranges == cfg.Whitelist() && ranges != []
    requires Get(c.now.groups, listener.group).None?
    requires Quiet(c, run)
    modifies c
    ensures AccessReady(c, cfg, run, port, l, listener) && c.faults >= old(c.faults)
    ensures r == Ok ==> Quiet(c, run)
    ensures OnlyAccess(old(c.now), c.now, l)
    ensures |c.log| == |old(c.log)| + 1
    ensures r == Ok ==> MayAttach(cfg, c.now, port, l, g, true, "white") && g !in old(c.now).groups
    ensures r == Ok ==> c.now.groups == old(c.now).groups[g := Group(ResourceName(cfg.name, port.key), cfg.Whitelist())]
    ensures r != Ok ==> c.now == old(c.now)
    ensures Orphans(cfg.name, c.now) <= Orphans(cfg.name, old(c.now)) + if r == Ok then {g} else {}
    ensures c.faults == old(c.faults) ==> r == Ok
  {
    hide LegalRun, KeysUnique, ProbesPlain, PoolRefs, MonitorRefs, Quiet;
    ghost var log0 := c.log;
    QuietIs(c, run);
    r, g := Attempt(c, cfg, run, ForPort(port, l), CreateGroup(ResourceName(cfg.name, port.key), ranges));
    GroupStaysQuiet(c, run, log0);
    if r == Ok {
      NewGroupMayAttach(cfg, old(c.now), port, l, g, c.now);
    }
  }

  /** No group is attached: one is created and attached; if attaching fails the group is left behind. */
  method CreateIPGroup(c: Cloud, cfg: Config, ghost run: Run, port: Port, l: Id, listener: Listener,
                       ranges: seq<string>)
    returns (r: Reply, ghost leak: set<Id>)
    requires AccessReady(c, cfg, run, port, l, listener) && ranges == cfg.Whitelist() && ranges != []
    requires Get(c.now.groups, listener.group).None?
    requires Quiet(c, run)
    modifies c
    ensures Ongoing(c, cfg, run) && c.faults >= old(c.faults)
    ensures r == Ok ==> Quiet(c, run)
    ensures OnlyAccess(old(c.now), c.now, l)
    ensures r == Ok ==> Whitelisted(cfg, port, TreeOf(c.now, l).value)
    ensures Orphans(cfg.name, c.now) <= Orphans(cfg.name, old(c.now)) + leak && |leak| <= 1
    ensures leak <= NewGroups(cfg, old(c.now), c.now, port)
    ensures r == Ok || c.faults == old(c.faults) ==> leak == {}
    ensures c.faults == old(c.faults) ==> r == Ok
  {
    hide LegalRun, KeysUnique, ProbesPlain, PoolRefs, MonitorRefs, Quiet;
    leak := {};
    var g;
    r, g := MakeGroup(c, cfg, run, port, l, listener, ranges);
    if r != Ok {
      return;
    }
    r := AttachIPGroup(c, cfg, run, port, l, g);
    if r != Ok {
      leak := {g};
    } else {
      assert Bound(c.now, g);
    }
  }

  method ReconcileIPGroup(c: Cloud, cfg: Config, ghost run: Run, port: Port, l: Id, listener: Listener)
    returns (r: Reply, ghost leak: set<Id>)
    requires AccessReady(c, cfg, run, port, l, listener)
    requires Quiet(c, run)
    modifies c
    ensures Ongoing(c, cfg, run) && c.faults >= old(c.faults)
    ensures r == Ok ==> Quiet(c, run)
    ensures OnlyAccess(old(c.now), c.now, l)
    ensures r == Ok ==> AccessSettled(cfg, port, TreeOf(c.now, l).value) && NoForeignGroup(cfg, old(c.now), port, l)
    ensures r == Ok ==> AccessMeant(cfg, port, c.now, l)
    ensures Orphans(cfg.name, c.now) <= Orphans(cfg.name, old(c.now)) + leak && |leak| <= 1
    ensures leak <= NewGroups(cfg, old(c.now), c.now, port)
    ensures r == Ok || c.faults == old(c.faults) ==> leak == {}
    ensures c.faults == old(c.faults) && NoForeignGroup(cfg, old(c.now), port, l) ==> r == Ok
  {
    hide AccessMeant, Quiet;
    forall s: State | l in s.listeners
      ensures AccessSettled(cfg, port, TreeOf(s, l).value) <==> AccessMeant(cfg, port, s, l)
    {
      AccessIsMeant(cfg, port, s, l);
    }
    leak := {};
    var ranges := Ranges.NormalizeRanges(cfg.service.sourceRanges);
    if |ranges| == 0 {
      r := DisableIPGroup(c, cfg, run, port, l, listener);
      return;
    }
    if listener.group.Some? {
      var g := listener.group.value;
      var group;
      r, group := c.GetGroup(g);
      if r != Ok && r != NotFound {
        return;
      }
      if r == Ok {
        if group.value.name != ResourceName(cfg.name, port.key) {
          return Other, {};
        }
        r := RefreshIPGroup(c, cfg, run, port, l, listener, g, group.value, ranges);
        return;
      }
    }
    r, leak := CreateIPGroup(c, cfg, run, port, l, listener, ranges);
  }

  /** Called after the listener is gone, when the group is no longer bound. */
  method DeleteIPGroup(c: Cloud, cfg: Config, ghost run: Run, ghost l: Id, groupId: Option<Id>) returns (r: Reply)
    requires Ongoing(c, cfg, run) && run.verb != Updating && l !in c.now.listeners
    requires groupId.Some? ==> Binds(run.start, l, groupId.value)
    requires groupId.Some? && groupId.value in c.now.groups && Own(cfg.name, c.now.groups[groupId.value].name)
             ==> !Bound(c.now, groupId.value)
    requires Quiet(c, run)
    modifies c
    ensures Ongoing(c, cfg, run) && c.faults >= old(c.faults)
    ensures r == Ok ==> Quiet(c, run)
    ensures c.now.listeners == old(c.now).listeners && Frame(old(c.now), c.now, l)
    ensures Orphans(cfg.name, c.now) <= Orphans(cfg.name, old(c.now))
    ensures r == Ok && groupId.Some? ==> groupId.value !in Orphans(cfg.name, c.now)
    ensures c.faults == old(c.faults) ==> r == Ok
  {
    hide LegalRun, KeysUnique, ProbesPlain, PoolRefs, MonitorRefs, Quiet;
    if groupId.None? {
      return Ok;
    }
    var g := groupId.value;
    var group;
    r, group := c.GetGroup(g);
    if r == NotFound {
      return Ok;
    }
    if r != Ok {
      return;
    }
    if !Own(cfg.name, group.value.name) {
      return Ok;
    }
    var id;
    ghost var log0 := c.log;
    QuietIs(c, run);
    r, id := RetryOnConflict(c, cfg, run, Removing(l), DeleteGroup(g));
    GroupsStayQuiet(c, run, Removing(l), DeleteGroup(g), log0, r);
  }
}

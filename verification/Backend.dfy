/** The in-memory cloud API: handlers that update the resource maps in place, with injected faults. */
module Backend {
  import opened Basics
  import opened CloudState
  import opened Plan

  /** A listener together with its identifier, as a list call returns it. */
  datatype Item = Item(id: Id, listener: Listener)

  datatype MemberItem = MemberItem(id: Id, member: Member)

  /** No identifier beyond `n` is in use. */
  ghost predicate FreshBeyond(s: State, n: Id) {
    forall id :: id > n ==> Fresh(s, id)
  }

  predicate BalancerOp(op: Op) { op.CreateBalancer? || op.DeleteBalancer? }
  predicate ListenerOp(op: Op) { op.CreateListener? || op.SetIdle? || op.SetGroup? || op.DeleteListener? }
  predicate PoolOp(op: Op) { op.CreatePool? || op.UpdatePool? || op.DeletePool? }
  predicate MonitorOp(op: Op) { op.CreateMonitor? || op.UpdateMonitor? || op.DeleteMonitor? }

  predicate Creates(op: Op) {
    op.CreateBalancer? || op.CreateListener? || op.CreatePool? || op.CreateMember? || op.CreateMonitor?
        || op.CreateGroup?
  }

  /** How many identifiers a request uses up: a load balancer with a new EIP takes two. */
  function Taken(op: Op): nat {
    if op.CreateBalancer? && op.newEip then 2 else if Creates(op) then 1 else 0
  }

  /** The identifiers beyond those used up stay unused. */
  lemma FreshAfter(s: State, op: Op, n: Id)
    requires FreshBeyond(s, n) && Verdict(s, op) == Ok
    ensures FreshBeyond(Apply(s, op, n + 1), n + Taken(op))
  {
    var t := Apply(s, op, n + 1);
    forall k | k > n + Taken(op) ensures Fresh(t, k) {
      FreshOne(s, op, n + 1, k);
    }
  }

  lemma FreshOne(s: State, op: Op, id: Id, k: Id)
    requires Fresh(s, k) && Verdict(s, op) == Ok && (Creates(op) ==> k >= id + Taken(op))
    ensures Fresh(Apply(s, op, id), k)
  {
  }

  class Cloud {
    /** How the API spells the identifiers that annotations may mention. */
    const known: map<string, Id>

    var balancers: map<Id, Balancer>
    var listeners: map<Id, Listener>
    var pools: map<Id, Pool>
    var members: map<Id, map<Id, Member>>
    var monitors: map<Id, Monitor>
    var groups: map<Id, Group>
    var eips: set<Id>
    var nextId: Id

    /** The maps as one value, and the requests made so far. */
    ghost var now: State
    ghost var log: seq<Call>
    /** How many spurious failures there were, except busy answers that a repetition may get past; six busy answers to
        one request in a row count once. */
    ghost var faults: nat
    /** How long the log was when the load balancer was last seen active. */
    ghost var awaited: nat

    constructor (known: map<string, Id>, s: State, nextId: Id)
      requires FreshBeyond(s, nextId)
      ensures Valid() && now == s && log == [] && faults == 0 && awaited == 0 && this.known == known
    {
      this.known := known;
      balancers, listeners, pools, members := s.balancers, s.listeners, s.pools, s.members;
      monitors, groups, eips, this.nextId := s.monitors, s.groups, s.eips, nextId;
      now, log, faults, awaited := s, [], 0, 0;
    }

    ghost predicate Valid()
      reads this`now, this`balancers, this`listeners, this`pools, this`members, this`monitors, this`groups,
            this`eips, this`nextId
    {
      && now == State(balancers, listeners, pools, members, monitors, groups, eips)
      && FreshBeyond(now, nextId)
    }

    method HandleLoadBalancers(op: Op) returns (r: Reply)
      requires Valid() && BalancerOp(op)
      modifies this`balancers, this`eips, this`nextId, this`now
      ensures Valid() && r == Verdict(old(now), op)
      ensures now == if r == Ok then Apply(old(now), op, old(nextId) + 1) else old(now)
    {
      if Verdict(now, op) == Ok { FreshAfter(now, op, nextId); }
      match op {
        case CreateBalancer(name, subnet, eipIds, newEip) =>
          nextId := nextId + 1;
          var lb, bound := nextId, eipIds;
          if newEip {
            nextId := nextId + 1;
            bound := eipIds + [nextId];
            eips := eips + {nextId};
          }
          balancers := balancers[lb := Balancer(name, subnet, bound)];
        case DeleteBalancer(lb) =>
          if lb !in balancers {
            return NotFound;
          }
          balancers := balancers - {lb};
      }
      now := State(balancers, listeners, pools, members, monitors, groups, eips);
      return Ok;
    }

    method HandleListeners(op: Op) returns (r: Reply)
      requires Valid() && ListenerOp(op)
      modifies this`listeners, this`nextId, this`now
      ensures Valid() && r == Verdict(old(now), op)
      ensures now == if r == Ok then Apply(old(now), op, old(nextId) + 1) else old(now)
    {
      if Verdict(now, op) == Ok { FreshAfter(now, op, nextId); }
      match op {
        case CreateListener(lb, name, key, idle) =>
          nextId := nextId + 1;
          listeners := listeners[nextId := Listener(lb, name, key, idle, None, None, None, "")];
        case SetIdle(l, idle) =>
          if l !in listeners {
            return NotFound;
          }
          listeners := listeners[l := listeners[l].(idle := NonZero(idle, listeners[l].idle))];
        case SetGroup(l, g, enable, kind) =>
          if l !in listeners || g !in groups {
            return NotFound;
          }
          listeners := listeners[l := listeners[l].(group := Some(g), enabled := Some(enable),
                                                    kind := NonEmpty(kind, listeners[l].kind))];
        case DeleteListener(l) =>
          if l !in listeners {
            return NotFound;
          }
          if listeners[l].pool.Some? {
            return Conflict;
          }
          listeners := listeners - {l};
      }
      now := State(balancers, listeners, pools, members, monitors, groups, eips);
      return Ok;
    }

    method HandlePools(op: Op) returns (r: Reply)
      requires Valid() && PoolOp(op)
      modifies this`pools, this`members, this`listeners, this`nextId, this`now
      ensures Valid() && r == Verdict(old(now), op)
      ensures now == if r == Ok then Apply(old(now), op, old(nextId) + 1) else old(now)
    {
      if Verdict(now, op) == Ok { FreshAfter(now, op, nextId); }
      match op {
        case CreatePool(l, name, algorithm, persistence) =>
          nextId := nextId + 1;
          if l in listeners {
            listeners := listeners[l := listeners[l].(pool := Some(nextId))];
          }
          pools := pools[nextId := Pool(l, name, algorithm, persistence, None)];
          members := members[nextId := map[]];
        case UpdatePool(q, algorithm, persistence) =>
          if q !in pools {
            return NotFound;
          }
          var old_ := pools[q];
          pools := pools[q := old_.(algorithm := NonEmpty(algorithm, old_.algorithm),
                                    persistence := if persistence.Some? then persistence else old_.persistence)];
        case DeletePool(q) =>
          if q !in pools {
            return NotFound;
          }
          if pools[q].monitor.Some? || (q in members && members[q] != map[]) {
            return Conflict;
          }
          var l := pools[q].listener;
          if l in listeners && listeners[l].pool == Some(q) {
            listeners := listeners[l := listeners[l].(pool := None)];
          }
          pools := pools - {q};
          members := members - {q};
      }
      now := State(balancers, listeners, pools, members, monitors, groups, eips);
      return Ok;
    }

    method HandleMembers(op: Op) returns (r: Reply)
      requires Valid() && MemberOp(op)
      modifies this`members, this`nextId, this`now
      ensures Valid() && r == Verdict(old(now), op)
      ensures now == if r == Ok then Apply(old(now), op, old(nextId) + 1) else old(now)
    {
      if op.pool !in members {
        return NotFound;
      }
      var pool: map<Id, Member> := members[op.pool];
      if Verdict(now, op) == Ok { FreshAfter(now, op, nextId); }
      match op {
        case CreateMember(_, m) =>
          nextId := nextId + 1;
          pool := pool[nextId := m];
        case DeleteMember(_, m) =>
          if m !in pool {
            return NotFound;
          }
          pool := pool - {m};
      }
      members := members[op.pool := pool];
      now := State(balancers, listeners, pools, members, monitors, groups, eips);
      return Ok;
    }

    method HandleMonitors(op: Op) returns (r: Reply)
      requires Valid() && MonitorOp(op)
      modifies this`monitors, this`pools, this`nextId, this`now
      ensures Valid() && r == Verdict(old(now), op)
      ensures now == if r == Ok then Apply(old(now), op, old(nextId) + 1) else old(now)
    {
      if Verdict(now, op) == Ok { FreshAfter(now, op, nextId); }
      match op {
        case CreateMonitor(q, name, probe) =>
          nextId := nextId + 1;
          if q in pools {
            pools := pools[q := pools[q].(monitor := Some(nextId))];
          }
          monitors := monitors[nextId := Monitor(q, name, probe)];
        case UpdateMonitor(m, probe) =>
          if m !in monitors {
            return NotFound;
          }
          monitors := monitors[m := monitors[m].(probe := Tuned(monitors[m].probe, probe))];
        case DeleteMonitor(m) =>
          if m !in monitors {
            return NotFound;
          }
          var q := monitors[m].pool;
          if q in pools {
            pools := pools[q := pools[q].(monitor := None)];
          }
          monitors := monitors - {m};
      }
      now := State(balancers, listeners, pools, members, monitors, groups, eips);
      return Ok;
    }

    method HandleEips(op: Op) returns (r: Reply)
      requires Valid() && op.DeleteEip?
      modifies this`eips, this`now
      ensures Valid() && r == Verdict(old(now), op)
      ensures now == if r == Ok then Apply(old(now), op, old(nextId) + 1) else old(now)
    {
      if op.eip !in eips {
        return NotFound;
      }
      FreshAfter(now, op, nextId);
      eips := eips - {op.eip};
      now := State(balancers, listeners, pools, members, monitors, groups, eips);
      return Ok;
    }

    method HandleIPGroups(op: Op) returns (r: Reply)
      requires Valid() && GroupOp(op)
      modifies this`groups, this`nextId, this`now
      ensures Valid() && r == Verdict(old(now), op)
      ensures now == if r == Ok then Apply(old(now), op, old(nextId) + 1) else old(now)
    {
      if Verdict(now, op) == Ok { FreshAfter(now, op, nextId); }
      match op {
        case CreateGroup(name, ips) =>
          nextId := nextId + 1;
          groups := groups[nextId := Group(name, ips)];
        case UpdateGroup(g, ips) =>
          if g !in groups {
            return NotFound;
          }
          groups := groups[g := groups[g].(ips := ips)];
        case DeleteGroup(g) =>
          if g !in groups {
            return NotFound;
          }
          if exists l :: l in listeners && listeners[l].group == Some(g) {
            return Conflict;
          }
          groups := groups - {g};
      }
      now := State(balancers, listeners, pools, members, monitors, groups, eips);
      return Ok;
    }

    /** Dispatch on the resource the request is about. */
    method Handle(op: Op) returns (r: Reply)
      requires Valid()
      modifies this`balancers, this`listeners, this`pools, this`members, this`monitors, this`groups, this`eips,
               this`nextId, this`now
      ensures Valid() && r == Verdict(old(now), op)
      ensures now == if r == Ok then Apply(old(now), op, old(nextId) + 1) else old(now)
    {
      if BalancerOp(op) {
        r := HandleLoadBalancers(op);
      } else if ListenerOp(op) {
        r := HandleListeners(op);
      } else if PoolOp(op) {
        r := HandlePools(op);
      } else if MemberOp(op) {
        r := HandleMembers(op);
      } else if MonitorOp(op) {
        r := HandleMonitors(op);
      } else if GroupOp(op) {
        r := HandleIPGroups(op);
      } else {
        r := HandleEips(op);
      }
    }

    /** One request over the wire: it may fail with a conflict, a bad request or another error without
        any effect; otherwise the backend answers. `id` is the identifier a create request was given. */
    method Send(ghost why: Purpose, op: Op) returns (r: Reply, id: Id)
      requires Valid()
      modifies this
      ensures Valid() && faults >= old(faults)
      ensures log == old(log) + [Call(why, op, id, r, old(now), now)] && awaited == old(awaited)
      ensures Happened(log[|old(log)|]) && Fresh(old(now), id)
      ensures r == Ok ==> Verdict(old(now), op) == Ok && now == Apply(old(now), op, id)
      ensures r != Ok ==> now == old(now)
      ensures faults == old(faults) ==> r == Verdict(old(now), op) || r in Transient(op)
      ensures r == NotFound ==> Verdict(old(now), op) == NotFound
    {
      ghost var before := now;
      id := nextId + 1;
      assert Fresh(now, id);
      if * {
        r :| r in {Conflict, BadRequest, Other};
        faults := faults + if r in Transient(op) then 0 else 1;
      } else {
        r := Handle(op);
      }
      log := log + [Call(why, op, id, r, before, now)];
    }

    /** The sixth busy answer in a row. */
    ghost method GiveUp()
      modifies this`faults
      ensures faults == old(faults) + 1
    {
      faults := faults + 1;
    }

    // ----- reads: they change nothing but may fail -----

    method GetBalancer(lb: Id) returns (r: Reply, b: Option<Balancer>)
      requires Valid()
      modifies this`faults
      ensures faults >= old(faults)
      ensures r == Ok <==> b.Some?
      ensures b.Some? ==> lb in now.balancers && b.value == now.balancers[lb]
      ensures r == NotFound ==> lb !in now.balancers
      ensures faults == old(faults) ==> r == if lb in now.balancers then Ok else NotFound
    {
      if * {
        faults := faults + 1;
        return Other, None;
      }
      if lb !in balancers {
        return NotFound, None;
      }
      return Ok, Some(balancers[lb]);
    }

    /** The load balancers of a name, each once, in an arbitrary order. */
    method ListBalancers(name: string) returns (r: Reply, ids: seq<Id>)
      requires Valid()
      modifies this`faults
      ensures faults >= old(faults)
      ensures r == Ok || r == Other
      ensures r == Ok ==> forall lb :: lb in ids <==> lb in now.balancers && now.balancers[lb].name == name
      ensures faults == old(faults) ==> r == Ok
    {
      ids := [];
      if * {
        faults := faults + 1;
        return Other, ids;
      }
      var left := balancers.Keys;
      while left != {}
        invariant left <= now.balancers.Keys
        invariant forall lb :: lb in ids <==> lb in now.balancers && lb !in left && now.balancers[lb].name == name
        decreases left
      {
        var lb :| lb in left;
        left := left - {lb};
        if balancers[lb].name == name {
          ids := ids + [lb];
        }
      }
      r := Ok;
    }

    method GetListener(l: Id) returns (r: Reply, listener: Option<Listener>)
      requires Valid()
      modifies this`faults
      ensures faults >= old(faults)
      ensures r == Ok <==> listener.Some?
      ensures listener.Some? ==> l in now.listeners && listener.value == now.listeners[l]
      ensures r == NotFound ==> l !in now.listeners
      ensures faults == old(faults) ==> r == if l in now.listeners then Ok else NotFound
    {
      if * {
        faults := faults + 1;
        return Other, None;
      }
      if l !in listeners {
        return NotFound, None;
      }
      return Ok, Some(listeners[l]);
    }

    method GetPool(q: Id) returns (r: Reply, pool: Option<Pool>)
      requires Valid()
      modifies this`faults
      ensures faults >= old(faults)
      ensures r == Ok <==> pool.Some?
      ensures pool.Some? ==> q in now.pools && pool.value == now.pools[q]
      ensures r == NotFound ==> q !in now.pools
      ensures faults == old(faults) ==> r == if q in now.pools then Ok else NotFound
    {
      if * {
        faults := faults + 1;
        return Other, None;
      }
      if q !in pools {
        return NotFound, None;
      }
      return Ok, Some(pools[q]);
    }

    method GetMonitor(m: Id) returns (r: Reply, monitor: Option<Monitor>)
      requires Valid()
      modifies this`faults
      ensures faults >= old(faults)
      ensures r == Ok <==> monitor.Some?
      ensures monitor.Some? ==> m in now.monitors && monitor.value == now.monitors[m]
      ensures faults == old(faults) ==> r == if m in now.monitors then Ok else NotFound
    {
      if * {
        faults := faults + 1;
        return Other, None;
      }
      if m !in monitors {
        return NotFound, None;
      }
      return Ok, Some(monitors[m]);
    }

    method GetGroup(g: Id) returns (r: Reply, group: Option<Group>)
      requires Valid()
      modifies this`faults
      ensures faults >= old(faults)
      ensures r == Ok <==> group.Some?
      ensures group.Some? ==> g in now.groups && group.value == now.groups[g]
      ensures r == NotFound ==> g !in now.groups
      ensures faults == old(faults) ==> r == if g in now.groups then Ok else NotFound
    {
      if * {
        faults := faults + 1;
        return Other, None;
      }
      if g !in groups {
        return NotFound, None;
      }
      return Ok, Some(groups[g]);
    }

    /** All listeners of a load balancer, each once, in an arbitrary order. */
    method ListListeners(lb: Id) returns (r: Reply, items: seq<Item>)
      requires Valid()
      modifies this`faults
      ensures faults >= old(faults)
      ensures r == Ok || r == Other
      ensures r == Ok ==> Lists(items, now, lb)
      ensures faults == old(faults) ==> r == Ok
    {
      items := [];
      if * {
        faults := faults + 1;
        return Other, items;
      }
      var left := listeners.Keys;
      while left != {}
        invariant left <= now.listeners.Keys
        invariant forall i :: 0 <= i < |items| ==>
                    && items[i].id in now.listeners && items[i].id !in left
                    && items[i].listener == now.listeners[items[i].id] && items[i].listener.lb == lb
        invariant forall i, j :: 0 <= i < j < |items| ==> items[i].id != items[j].id
        invariant forall l :: l in now.listeners && now.listeners[l].lb == lb && l !in left ==>
                    Item(l, now.listeners[l]) in items
        decreases left
      {
        var l :| l in left;
        left := left - {l};
        if listeners[l].lb == lb {
          ghost var before := items;
          items := items + [Item(l, listeners[l])];
          assert items[|before|] == Item(l, now.listeners[l]);
          assert forall x :: x in before ==> x in items;
        }
      }
      r := Ok;
    }

    /** All members of a pool, each once, in an arbitrary order. */
    method ListMembers(q: Id) returns (r: Reply, items: seq<MemberItem>)
      requires Valid()
      modifies this`faults
      ensures faults >= old(faults)
      ensures r == NotFound ==> q !in now.members
      ensures r == Ok ==> q in now.members && ListsMembers(items, now.members[q])
      ensures faults == old(faults) && q in now.members ==> r == Ok
    {
      items := [];
      if * {
        faults := faults + 1;
        return Other, items;
      }
      if q !in members {
        return NotFound, items;
      }
      var left := members[q].Keys;
      while left != {}
        invariant left <= now.members[q].Keys
        invariant forall i :: 0 <= i < |items| ==>
                    && items[i].id in now.members[q] && items[i].id !in left
                    && items[i].member == now.members[q][items[i].id]
        invariant forall i, j :: 0 <= i < j < |items| ==> items[i].id != items[j].id
        invariant forall m :: m in now.members[q] && m !in left ==> MemberItem(m, now.members[q][m]) in items
        decreases left
      {
        var m :| m in left;
        left := left - {m};
        ghost var before := items;
        items := items + [MemberItem(m, members[q][m])];
        assert items[|before|] == MemberItem(m, now.members[q][m]);
        assert forall x :: x in before ==> x in items;
      }
      r := Ok;
    }

    /** The wait for the load balancer to become active again: it may fail, though the change was made. */
    method WaitForActive(lb: Id) returns (r: Reply)
      requires Valid()
      modifies this`faults, this`awaited
      ensures faults >= old(faults)
      ensures awaited == if r == Ok then |log| else old(awaited)
      ensures r == NotFound ==> lb !in now.balancers
      ensures faults == old(faults) && lb in now.balancers ==> r == Ok
    {
      if * {
        faults := faults + 1;
        return Other;
      }
      if lb !in balancers {
        return NotFound;
      }
      awaited := |log|;
      return Ok;
    }
  }

  predicate Lists(items: seq<Item>, s: State, lb: Id) {
    && (forall i :: 0 <= i < |items| ==>
          items[i].id in s.listeners && items[i].listener == s.listeners[items[i].id] && items[i].listener.lb == lb)
    && (forall i, j :: 0 <= i < j < |items| ==> items[i].id != items[j].id)
    && (forall l :: l in s.listeners && s.listeners[l].lb == lb ==> Item(l, s.listeners[l]) in items)
  }

  predicate ListsMembers(items: seq<MemberItem>, ms: map<Id, Member>) {
    && (forall i :: 0 <= i < |items| ==> items[i].id in ms && items[i].member == ms[items[i].id])
    && (forall i, j :: 0 <= i < j < |items| ==> items[i].id != items[j].id)
    && (forall m :: m in ms ==> MemberItem(m, ms[m]) in items)
  }
}

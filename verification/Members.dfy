/** Pool members follow the node set: every missing member is added before any stale one is removed. */
module Members {
  import opened Basics
  import opened CloudState
  import opened Service
  import opened Plan
  import opened Backend
  import opened Calls
  import opened Meaning

  /** Between `s` and `t` only the members of pool `q` of listener `l` have changed. */
  ghost predicate OnlyMembers(s: State, t: State, l: Id, q: Id) {
    && q in s.members && q in t.members && t == s.(members := s.members[q := t.members[q]])
    && Frame(s, t, l)
  }

  lemma OnlyMembersStart(s: State, l: Id, q: Id)
    requires q in s.members
    ensures OnlyMembers(s, s, l, q)
  {
  }

  lemma OnlyMembersChain(s: State, t: State, u: State, l: Id, q: Id)
    requires OnlyMembers(s, t, l, q) && OnlyMembers(t, u, l, q)
    ensures OnlyMembers(s, u, l, q)
  {
  }

  function KeyOfAny(ms: map<Id, Member>, ids: set<Id>): set<MemberKey>
    requires ids <= ms.Keys
  {
    set id | id in ids :: ms[id].key
  }

  predicate OnePerKey(ms: map<Id, Member>, ids: set<Id>) {
    forall a, b :: a in ids && b in ids && a != b && a in ms && b in ms ==> ms[a].key != ms[b].key
  }

  /** The effect of one complete pass: each missing wanted key added once, one member of each stale key removed. */
  ghost predicate Synced(ms: map<Id, Member>, wanted: set<MemberKey>, added: map<Id, Member>, gone: set<Id>,
                         after: map<Id, Member>)
  {
    && added.Keys !! ms.Keys && UniqueMembers(added) && KeysOf(added) == wanted - KeysOf(ms)
    && gone <= ms.Keys && OnePerKey(ms, gone) && KeyOfAny(ms, gone) == KeysOf(ms) - wanted
    && after == (ms + added) - gone
  }

  method NodeAddressOf(node: Node) returns (address: Option<string>)
    ensures address == AddressOf(node)
    ensures address.Some? ==> Picks(node, address.value)
    ensures address.None? <==> forall i :: 0 <= i < |node.addresses| ==>
                                 node.addresses[i].kind == OtherAddress || node.addresses[i].address == ""
  {
    hide Picks;
    forall a ensures AddressOf(node) == Some(a) <==> Picks(node, a) { AddressIsPicked(node, a); }
    AddressIsPicked(node, "");
    var external := "";
    for i := 0 to |node.addresses|
      invariant FirstOf(InternalIP, node.addresses) == FirstOf(InternalIP, node.addresses[i..])
      invariant FirstOf(ExternalIP, node.addresses) ==
                if external != "" then external else FirstOf(ExternalIP, node.addresses[i..])
    {
      var a := node.addresses[i];
      assert node.addresses[i..][0] == a && node.addresses[i..][1..] == node.addresses[i + 1..];
      match a.kind {
        case InternalIP =>
          if a.address != "" {
            return Some(a.address);
          }
        case ExternalIP =>
          if external == "" {
            external := a.address;
          }
        case OtherAddress =>
      }
    }
    return if external != "" then Some(external) else None;
  }

  method WantedByAddress(nodes: seq<Node>, nodePort: int) returns (wanted: map<MemberKey, Node>)
    ensures wanted == WantedNodes(nodes, nodePort)
  {
    wanted := map[];
    for i := 0 to |nodes|
      invariant wanted == WantedNodes(nodes[..i], nodePort)
    {
      assert nodes[..i + 1][..i] == nodes[..i];
      var address := NodeAddressOf(nodes[i]);
      if address.Some? {
        wanted := wanted[MemberKey(address.value, nodePort) := nodes[i]];
      }
    }
    assert nodes[..|nodes|] == nodes;
  }

  /** The identifier recorded for each member key; with duplicates one of them is recorded. */
  predicate Indexes(have: map<MemberKey, Id>, ms: map<Id, Member>) {
    && have.Keys == KeysOf(ms)
    && forall k :: k in have ==> have[k] in ms && ms[have[k]].key == k
  }

  method HaveByAddress(items: seq<MemberItem>, ghost ms: map<Id, Member>) returns (have: map<MemberKey, Id>)
    requires ListsMembers(items, ms)
    ensures Indexes(have, ms)
  {
    have := map[];
    for i := 0 to |items|
      invariant forall k :: k in have ==> have[k] in ms && ms[have[k]].key == k
      invariant forall j :: 0 <= j < i ==> items[j].member.key in have
    {
      have := have[items[i].member.key := items[i].id];
    }
    forall k | k in KeysOf(ms) ensures k in have {
      var id :| id in ms && ms[id].key == k;
      var j :| 0 <= j < |items| && items[j] == MemberItem(id, ms[id]);
    }
  }

  ghost predicate PoolOpen(c: Cloud, cfg: Config, run: Run, port: Port, l: Id, q: Id)
    reads c
  {
    && Ongoing(c, cfg, run) && run.verb != Deleting && port in cfg.Ports()
    && At(c.now, cfg.lb, port.key, l) && HasPool(c.now, l, q)
  }

  /** Members created so far, one for each of `keys`. */
  ghost predicate Added(ms: map<Id, Member>, added: map<Id, Member>, keys: set<MemberKey>) {
    added.Keys !! ms.Keys && UniqueMembers(added) && KeysOf(added) == keys
  }

  lemma KeysOfOneMore(added: map<Id, Member>, id: Id, m: Member)
    requires id !in added
    ensures KeysOf(added[id := m]) == KeysOf(added) + {m.key}
  {
    var more := added[id := m];
    assert more[id].key == m.key;
    forall k | k in KeysOf(added) ensures k in KeysOf(more) {
      var x :| x in added && added[x].key == k;
      assert more[x].key == k;
    }
  }

  lemma AddedOne(ms: map<Id, Member>, added: map<Id, Member>, keys: set<MemberKey>, id: Id, m: Member)
    requires Added(ms, added, keys)
    requires id !in ms && id !in added && m.key !in keys
    ensures Added(ms, added[id := m], keys + {m.key})
    ensures (ms + added)[id := m] == ms + added[id := m]
  {
    KeysOfOneMore(added, id, m);
    assert added[id := m].Keys == added.Keys + {id};
  }

  /** One wanted member that the pool lacks is created. */
  method AddMember(c: Cloud, cfg: Config, ghost run: Run, ghost port: Port, ghost l: Id, q: Id, key: MemberKey,
                   node: Node)
    returns (r: Reply, ghost id: Id, ghost done: bool)
    requires PoolOpen(c, cfg, run, port, l, q)
    requires key in WantedKeys(cfg, port) && node == WantedNodes(cfg.nodes, port.nodePort)[key]
    requires key !in KeysOf(c.now.members[q])
    requires Quiet(c, run)
    modifies c
    ensures PoolOpen(c, cfg, run, port, l, q) && c.faults >= old(c.faults)
    ensures r == Ok ==> Quiet(c, run)
    ensures OnlyMembers(old(c.now), c.now, l, q)
    ensures c.now.members[q] == if done then old(c.now).members[q][id := WantedMember(cfg, port, key)]
            else old(c.now).members[q]
    ensures done ==> id !in old(c.now).members[q]
    ensures r == Ok ==> done && Done(c.log) == Done(old(c.log)) + 1
    ensures Orphans(cfg.name, c.now) <= Orphans(cfg.name, old(c.now))
    ensures c.faults == old(c.faults) ==> r == Ok
  {
    hide LegalRun, WellFormed, Sound, Quiet;
    var i;
    r, i := Mutate(c, cfg, run, cfg.lb, ForPort(port, l),
                   CreateMember(q, Member(key, Cut(node.name, MAX_NAME), cfg.subnet)));
    id := i;
    done := c.now != old(c.now) || r == Ok;
  }

  /** One stale member is deleted, once every wanted member is present. */
  method RemoveMember(c: Cloud, cfg: Config, ghost run: Run, ghost port: Port, ghost l: Id, q: Id, id: Id)
    returns (r: Reply)
    requires PoolOpen(c, cfg, run, port, l, q)
    requires MayDeleteMember(cfg, c.now, port, l, q, id)
    requires Quiet(c, run)
    modifies c
    ensures PoolOpen(c, cfg, run, port, l, q) && c.faults >= old(c.faults)
    ensures r == Ok ==> Quiet(c, run)
    ensures OnlyMembers(old(c.now), c.now, l, q)
    ensures c.now == old(c.now) || c.now.members[q] == old(c.now).members[q] - {id}
    ensures r == Ok ==> c.now.members[q] == old(c.now).members[q] - {id} && Done(c.log) == Done(old(c.log)) + 1
    ensures Orphans(cfg.name, c.now) <= Orphans(cfg.name, old(c.now))
    ensures c.faults == old(c.faults) ==> r == Ok
  {
    hide Quiet, LegalRun, WellFormed, Sound, Retried, WantedKeys, KeysOf;
    var i;
    r, i := Mutate(c, cfg, run, cfg.lb, ForPort(port, l), DeleteMember(q, id));
    if r == NotFound {
      r := Ok;
    }
  }

  lemma KeysOfSum(ms: map<Id, Member>, added: map<Id, Member>)
    requires added.Keys !! ms.Keys
    ensures KeysOf(ms + added) == KeysOf(ms) + KeysOf(added)
  {
  }

  /** Each of the members has address, port and name of a node and the subnet of the load balancer. */
  ghost predicate AllMeant(cfg: Config, port: Port, added: map<Id, Member>) {
    forall x :: x in added ==> MemberMeant(cfg.nodes, port.nodePort, cfg.subnet, added[x])
  }

  /** From `s` to `t` one new member for each of `keys` was added, and nothing else changed. */
  ghost predicate AddedTo(cfg: Config, port: Port, l: Id, q: Id, s: State, t: State, added: map<Id, Member>,
                          keys: set<MemberKey>)
  {
    && OnlyMembers(s, t, l, q) && t.members[q] == s.members[q] + added
    && Added(s.members[q], added, keys) && AllMeant(cfg, port, added)
    && Orphans(cfg.name, t) <= Orphans(cfg.name, s)
  }

  /** How far the first loop has come: `added` holds one new member for each of `keys`. */
  ghost predicate Adding(c: Cloud, cfg: Config, run: Run, port: Port, l: Id, q: Id, s: State,
                         added: map<Id, Member>, keys: set<MemberKey>)
    reads c
  {
    PoolOpen(c, cfg, run, port, l, q) && AddedTo(cfg, port, l, q, s, c.now, added, keys)
  }

  lemma AddingStarts(c: Cloud, cfg: Config, run: Run, port: Port, l: Id, q: Id)
    requires PoolOpen(c, cfg, run, port, l, q)
    ensures Adding(c, cfg, run, port, l, q, c.now, map[], {})
  {
  }

  lemma MeantOneMore(cfg: Config, port: Port, added: map<Id, Member>, id: Id, key: MemberKey)
    requires AllMeant(cfg, port, added) && key in WantedKeys(cfg, port)
    ensures AllMeant(cfg, port, added[id := WantedMember(cfg, port, key)])
  {
    hide MemberMeant, WantedMember;
    MemberIsMeant(cfg, port, key);
  }

  /** Between `t` and `u` the member for `key` was added as `id`. */
  lemma AddedToStep(cfg: Config, port: Port, l: Id, q: Id, s: State, t: State, u: State, added: map<Id, Member>,
                    keys: set<MemberKey>, id: Id, key: MemberKey)
    requires AddedTo(cfg, port, l, q, s, t, added, keys) && OnlyMembers(t, u, l, q)
    requires key in WantedKeys(cfg, port) && key !in keys && id !in t.members[q]
    requires u.members[q] == t.members[q][id := WantedMember(cfg, port, key)]
    requires Orphans(cfg.name, u) <= Orphans(cfg.name, t)
    ensures AddedTo(cfg, port, l, q, s, u, added[id := WantedMember(cfg, port, key)], keys + {key})
    ensures |added[id := WantedMember(cfg, port, key)]| == |added| + 1
  {
    hide AllMeant, Frame, Orphans, WantedNodes, OnlyMembers, Added;
    OnlyMembersChain(s, t, u, l, q);
    AddedOne(s.members[q], added, keys, id, WantedMember(cfg, port, key));
    MeantOneMore(cfg, port, added, id, key);
  }

  lemma AddedToKeys(cfg: Config, port: Port, l: Id, q: Id, s: State, t: State, added: map<Id, Member>,
                    keys: set<MemberKey>, key: MemberKey)
    requires AddedTo(cfg, port, l, q, s, t, added, keys) && key !in KeysOf(s.members[q]) && key !in keys
    ensures q in t.members && key !in KeysOf(t.members[q])
  {
    hide AllMeant, Frame, Orphans;
    KeysOfSum(s.members[q], added);
  }

  /** Between `t` and `u` nothing happened to the members. */
  lemma AddedToSame(cfg: Config, port: Port, l: Id, q: Id, s: State, t: State, u: State, added: map<Id, Member>,
                    keys: set<MemberKey>)
    requires AddedTo(cfg, port, l, q, s, t, added, keys) && OnlyMembers(t, u, l, q) && u.members[q] == t.members[q]
    requires Orphans(cfg.name, u) <= Orphans(cfg.name, t)
    ensures AddedTo(cfg, port, l, q, s, u, added, keys)
  {
    hide AllMeant, Frame, Orphans, Added;
  }

  method AddNext(c: Cloud, cfg: Config, ghost run: Run, ghost port: Port, ghost l: Id, q: Id, ghost s: State,
                 key: MemberKey, node: Node, ghost added: map<Id, Member>, ghost keys: set<MemberKey>)
    returns (r: Reply, ghost more: map<Id, Member>, ghost done: bool)
    requires Adding(c, cfg, run, port, l, q, s, added, keys)
    requires key in WantedKeys(cfg, port) && node == WantedNodes(cfg.nodes, port.nodePort)[key]
    requires key !in KeysOf(s.members[q]) && key !in keys
    requires Quiet(c, run)
    modifies c
    ensures Adding(c, cfg, run, port, l, q, s, more, if done then keys + {key} else keys) && c.faults >= old(c.faults)
    ensures r == Ok ==> Quiet(c, run)
    ensures r == Ok ==> done && |more| == |added| + 1 && Done(c.log) == Done(old(c.log)) + 1
    ensures c.faults == old(c.faults) ==> r == Ok
  {
    hide Ongoing, AddedTo, WantedMember, WantedNodes, OnlyMembers, Orphans, Done, Quiet;
    ghost var t := c.now;
    AddedToKeys(cfg, port, l, q, s, t, added, keys, key);
    ghost var id;
    r, id, done := AddMember(c, cfg, run, port, l, q, key, node);
    more := added;
    if done {
      AddedToStep(cfg, port, l, q, s, t, c.now, added, keys, id, key);
      more := added[id := WantedMember(cfg, port, key)];
    } else {
      AddedToSame(cfg, port, l, q, s, t, c.now, added, keys);
    }
  }

  /** First loop: the wanted map is walked in an arbitrary order. */
  method AddMissing(c: Cloud, cfg: Config, ghost run: Run, ghost port: Port, ghost l: Id, q: Id,
                    wanted: map<MemberKey, Node>, have: map<MemberKey, Id>)
    returns (r: Reply, ghost added: map<Id, Member>, ghost keys: set<MemberKey>)
    requires PoolOpen(c, cfg, run, port, l, q)
    requires wanted == WantedNodes(cfg.nodes, port.nodePort) && Indexes(have, c.now.members[q])
    requires Quiet(c, run)
    modifies c
    ensures Adding(c, cfg, run, port, l, q, old(c.now), added, keys) && c.faults >= old(c.faults)
    ensures r == Ok ==> Quiet(c, run)
    ensures r == Ok ==> keys == wanted.Keys - have.Keys && Done(c.log) == Done(old(c.log)) + |added|
    ensures c.faults == old(c.faults) ==> r == Ok
  {
    hide Ongoing, Adding, PoolOpen, Quiet;
    AddingStarts(c, cfg, run, port, l, q);
    ghost var s := c.now;
    added, keys := map[], {};
    var todo := wanted.Keys;
    r := Ok;
    while todo != {}
      invariant r == Ok
      invariant Quiet(c, run)
      invariant todo <= wanted.Keys && keys !! todo
      invariant wanted.Keys - have.Keys - todo <= keys <= wanted.Keys - have.Keys
      invariant Adding(c, cfg, run, port, l, q, s, added, keys) && c.faults >= old(c.faults)
      invariant Done(c.log) == Done(old(c.log)) + |added|
      decreases todo
    {
      var key :| key in todo;
      todo := todo - {key};
      if key in have {
        continue;
      }
      ghost var done;
      r, added, done := AddNext(c, cfg, run, port, l, q, s, key, wanted[key], added, keys);
      if done {
        keys := keys + {key};
      }
      if r != Ok {
        return;
      }
    }
  }

  lemma KeysOfRest(ms: map<Id, Member>, gone: set<Id>, keys: set<MemberKey>)
    requires gone <= ms.Keys && keys <= KeysOf(ms)
    requires forall id :: id in gone ==> ms[id].key !in keys
    ensures keys <= KeysOf(ms - gone)
  {
    forall k | k in keys ensures k in KeysOf(ms - gone) {
      var x :| x in ms && ms[x].key == k;
      assert (ms - gone)[x].key == k;
    }
  }

  /** The recorded members of `keys`. */
  function Recorded(have: map<MemberKey, Id>, keys: set<MemberKey>): set<Id>
    requires keys <= have.Keys
  {
    set k | k in keys :: have[k]
  }

  /** How far the second loop has come: one member of each of the stale `keys` is gone. */
  ghost predicate Purging(c: Cloud, cfg: Config, run: Run, port: Port, l: Id, q: Id, s: State,
                          have: map<MemberKey, Id>, keys: set<MemberKey>)
    reads c
  {
    && PoolOpen(c, cfg, run, port, l, q)
    && OnlyMembers(s, c.now, l, q)
    && keys <= have.Keys && keys !! WantedKeys(cfg, port)
    && c.now.members[q] == s.members[q] - Recorded(have, keys)
    && Orphans(cfg.name, c.now) <= Orphans(cfg.name, s)
  }

  /** The members as the second loop finds them: every wanted key is there, and `have` records stale ones. */
  ghost predicate Complete(cfg: Config, port: Port, ms: map<Id, Member>, have: map<MemberKey, Id>) {
    && WantedKeys(cfg, port) != {} && WantedKeys(cfg, port) <= KeysOf(ms)
    && forall k :: k in have ==> have[k] in ms && ms[have[k]].key == k
  }

  lemma PurgingStarts(c: Cloud, cfg: Config, run: Run, port: Port, l: Id, q: Id, have: map<MemberKey, Id>)
    requires PoolOpen(c, cfg, run, port, l, q)
    ensures Purging(c, cfg, run, port, l, q, c.now, have, {})
  {
  }

  method PurgeNext(c: Cloud, cfg: Config, ghost run: Run, ghost port: Port, ghost l: Id, q: Id, ghost s: State,
                   have: map<MemberKey, Id>, key: MemberKey, ghost keys: set<MemberKey>)
    returns (r: Reply)
    requires Purging(c, cfg, run, port, l, q, s, have, keys) && Complete(cfg, port, s.members[q], have)
    requires key in have && key !in keys && key !in WantedKeys(cfg, port)
    requires Quiet(c, run)
    modifies c
    ensures r == Ok ==> Purging(c, cfg, run, port, l, q, s, have, keys + {key}) && Done(c.log) == Done(old(c.log)) + 1
    ensures r == Ok ==> Quiet(c, run)
    ensures r != Ok ==> exists done :: Purging(c, cfg, run, port, l, q, s, have, done)
    ensures c.faults >= old(c.faults)
    ensures c.faults == old(c.faults) ==> r == Ok
  {
    hide Ongoing, Quiet;
    ghost var ms, gone := s.members[q], Recorded(have, keys);
    KeysOfRest(ms, gone, WantedKeys(cfg, port));
    assert have[key] !in gone;
    r := RemoveMember(c, cfg, run, port, l, q, have[key]);
    ghost var more := Recorded(have, keys + {key});
    assert more == gone + {have[key]};
    assert ms - gone - {have[key]} == ms - more;
    if c.now == old(c.now) && r != Ok {
      assert Purging(c, cfg, run, port, l, q, s, have, keys);
    } else {
      assert Purging(c, cfg, run, port, l, q, s, have, keys + {key});
    }
  }

  /** Second loop: the map of present members is walked in an arbitrary order. */
  method PurgeStale(c: Cloud, cfg: Config, ghost run: Run, ghost port: Port, ghost l: Id, q: Id,
                    wanted: map<MemberKey, Node>, have: map<MemberKey, Id>)
    returns (r: Reply, ghost keys: set<MemberKey>)
    requires PoolOpen(c, cfg, run, port, l, q)
    requires wanted == WantedNodes(cfg.nodes, port.nodePort) && Complete(cfg, port, c.now.members[q], have)
    requires Quiet(c, run)
    modifies c
    ensures Purging(c, cfg, run, port, l, q, old(c.now), have, keys) && c.faults >= old(c.faults)
    ensures r == Ok ==> Quiet(c, run)
    ensures r == Ok ==> keys == have.Keys - wanted.Keys && Done(c.log) == Done(old(c.log)) + |keys|
    ensures c.faults == old(c.faults) ==> r == Ok
  {
    hide Ongoing, Purging, PoolOpen, Complete, Quiet;
    PurgingStarts(c, cfg, run, port, l, q, have);
    ghost var s := c.now;
    keys := {};
    var left := have.Keys;
    r := Ok;
    while left != {}
      invariant r == Ok
      invariant Quiet(c, run)
      invariant left <= have.Keys && keys !! left
      invariant have.Keys - wanted.Keys - left <= keys <= have.Keys - wanted.Keys
      invariant Purging(c, cfg, run, port, l, q, s, have, keys) && c.faults >= old(c.faults)
      invariant Done(c.log) == Done(old(c.log)) + |keys|
      decreases left
    {
      var key :| key in left;
      left := left - {key};
      if key in wanted {
        continue;
      }
      r := PurgeNext(c, cfg, run, port, l, q, s, have, key, keys);
      if r != Ok {
        keys :| Purging(c, cfg, run, port, l, q, s, have, keys);
        return;
      }
      keys := keys + {key};
    }
  }

  lemma {:induction false} UniqueKeyCount(ms: map<Id, Member>)
    requires UniqueMembers(ms)
    ensures |KeysOf(ms)| == |ms|
    decreases |ms|
  {
    if ms != map[] {
      var id :| id in ms;
      var rest := ms - {id};
      assert |rest| == |ms| - 1;
      UniqueKeyCount(rest);
      assert rest[id := ms[id]] == ms;
      KeysOfOneMore(rest, id, ms[id]);
    }
  }

  /** The two loops together make one complete pass. */
  lemma PassIsSynced(ms: map<Id, Member>, wanted: set<MemberKey>, have: map<MemberKey, Id>, added: map<Id, Member>,
                     gone: set<Id>, after: map<Id, Member>)
    requires Indexes(have, ms) && Added(ms, added, wanted - have.Keys)
    requires gone == Recorded(have, have.Keys - wanted)
    requires after == (ms + added) - gone
    ensures Synced(ms, wanted, added, gone, after)
  {
  }

  /** The number of requests a complete pass needs. */
  function PassCost(ms: map<Id, Member>, wanted: set<MemberKey>): nat {
    |wanted - KeysOf(ms)| + |KeysOf(ms) - wanted|
  }

  method ListMembersOf(c: Cloud, cfg: Config, ghost run: Run, ghost port: Port, ghost l: Id, q: Id)
    returns (r: Reply, items: seq<MemberItem>)
    requires PoolOpen(c, cfg, run, port, l, q)
    modifies c`faults
    ensures PoolOpen(c, cfg, run, port, l, q) && c.faults >= old(c.faults)
    ensures r == Ok ==> ListsMembers(items, c.now.members[q])
    ensures c.faults == old(c.faults) ==> r == Ok
  {
    r, items := c.ListMembers(q);
  }

  /** Between the loops: the present and the added members together cover every wanted key. */
  lemma AddedMakesComplete(cfg: Config, port: Port, ms: map<Id, Member>, have: map<MemberKey, Id>,
                           added: map<Id, Member>)
    requires Added(ms, added, WantedKeys(cfg, port) - have.Keys)
    requires Indexes(have, ms) && WantedKeys(cfg, port) != {}
    ensures Complete(cfg, port, ms + added, have)
    ensures |added| == |WantedKeys(cfg, port) - have.Keys|
  {
    KeysOfSum(ms, added);
    UniqueKeyCount(added);
  }

  /** Additions first, removals second. */
  method SyncMembers(c: Cloud, cfg: Config, ghost run: Run, ghost port: Port, ghost l: Id, q: Id,
                     wanted: map<MemberKey, Node>, have: map<MemberKey, Id>)
    returns (r: Reply, ghost added: map<Id, Member>, ghost gone: set<Id>)
    requires PoolOpen(c, cfg, run, port, l, q)
    requires wanted == WantedNodes(cfg.nodes, port.nodePort) && wanted != map[] && Indexes(have, c.now.members[q])
    requires Quiet(c, run)
    modifies c
    ensures PoolOpen(c, cfg, run, port, l, q) && c.faults >= old(c.faults)
    ensures r == Ok ==> Quiet(c, run)
    ensures OnlyMembers(old(c.now), c.now, l, q)
    ensures r == Ok ==> Synced(old(c.now).members[q], WantedKeys(cfg, port), added, gone, c.now.members[q])
    ensures r == Ok ==> AllMeant(cfg, port, added)
    ensures r == Ok ==> Done(c.log) == Done(old(c.log)) + PassCost(old(c.now).members[q], WantedKeys(cfg, port))
    ensures Orphans(cfg.name, c.now) <= Orphans(cfg.name, old(c.now))
    ensures c.faults == old(c.faults) ==> r == Ok
  {
    hide Ongoing, Complete, KeysOf, UniqueMembers, OnlyMembers, AllMeant, Quiet;
    ghost var s, ms, keys := c.now, c.now.members[q], {};
    gone := {};
    r, added, keys := AddMissing(c, cfg, run, port, l, q, wanted, have);
    if r != Ok {
      return;
    }
    AddedMakesComplete(cfg, port, ms, have, added);
    ghost var t := c.now;
    r, keys := PurgeStale(c, cfg, run, port, l, q, wanted, have);
    OnlyMembersChain(s, t, c.now, l, q);
    gone := Recorded(have, keys);
    if r == Ok {
      PassIsSynced(ms, wanted.Keys, have, added, gone, c.now.members[q]);
    }
  }

  method ReconcileMembers(c: Cloud, cfg: Config, ghost run: Run, port: Port, ghost l: Id, q: Id)
    returns (r: Reply, ghost added: map<Id, Member>, ghost gone: set<Id>)
    requires PoolOpen(c, cfg, run, port, l, q)
    requires Quiet(c, run)
    modifies c
    ensures PoolOpen(c, cfg, run, port, l, q) && c.faults >= old(c.faults)
    ensures r == Ok ==> Quiet(c, run)
    ensures OnlyMembers(old(c.now), c.now, l, q)
    ensures r == Ok ==> port.nodePort != 0 && WantedKeys(cfg, port) != {}
    ensures r == Ok ==> Synced(old(c.now).members[q], WantedKeys(cfg, port), added, gone, c.now.members[q])
    ensures r == Ok ==> AllMeant(cfg, port, added)
    ensures r == Ok ==> Done(c.log) == Done(old(c.log)) + PassCost(old(c.now).members[q], WantedKeys(cfg, port))
    ensures Orphans(cfg.name, c.now) <= Orphans(cfg.name, old(c.now))
    ensures c.faults == old(c.faults) && port.nodePort != 0 && WantedKeys(cfg, port) != {} ==> r == Ok
  {
    hide Ongoing, Synced, OnlyMembers, PassCost, Frame, ListsMembers, Indexes, AllMeant, Quiet;
    OnlyMembersStart(c.now, l, q);
    added, gone := map[], {};
    if port.nodePort == 0 {
      return Other, added, gone;
    }
    var existing;
    r, existing := ListMembersOf(c, cfg, run, port, l, q);
    if r != Ok {
      return;
    }
    var wanted := WantedByAddress(cfg.nodes, port.nodePort);
    if wanted == map[] {
      return Other, added, gone;
    }
    var have := HaveByAddress(existing, c.now.members[q]);
    r, added, gone := SyncMembers(c, cfg, run, port, l, q, wanted, have);
  }

  lemma GoneIsStale(ms: map<Id, Member>, wanted: set<MemberKey>, added: map<Id, Member>, gone: set<Id>,
                    after: map<Id, Member>, x: Id)
    requires Synced(ms, wanted, added, gone, after) && x in gone
    ensures ms[x].key !in wanted
  {
  }

  lemma StaleIsGone(ms: map<Id, Member>, wanted: set<MemberKey>, added: map<Id, Member>, gone: set<Id>,
                    after: map<Id, Member>, x: Id)
    requires Synced(ms, wanted, added, gone, after) && UniqueMembers(ms) && x in ms && ms[x].key !in wanted
    ensures x in gone
  {
    assert ms[x].key in KeyOfAny(ms, gone);
    var y :| y in gone && ms[y].key == ms[x].key;
  }

  lemma AddedIsWanted(ms: map<Id, Member>, wanted: set<MemberKey>, added: map<Id, Member>, gone: set<Id>,
                      after: map<Id, Member>, x: Id)
    requires Synced(ms, wanted, added, gone, after) && x in added
    ensures added[x].key in wanted
  {
    assert added[x].key in KeysOf(added);
  }

  /** Without duplicates a complete pass leaves exactly the wanted keys. */
  lemma SyncedIsExact(ms: map<Id, Member>, wanted: set<MemberKey>, added: map<Id, Member>, gone: set<Id>,
                      after: map<Id, Member>)
    requires Synced(ms, wanted, added, gone, after) && UniqueMembers(ms)
    ensures KeysOf(after) == wanted
  {
    forall x | x in gone ensures ms[x].key !in wanted { GoneIsStale(ms, wanted, added, gone, after, x); }
    forall x | x in ms && ms[x].key !in wanted ensures x in gone { StaleIsGone(ms, wanted, added, gone, after, x); }
    forall x | x in added ensures added[x].key in wanted { AddedIsWanted(ms, wanted, added, gone, after, x); }
    assert forall x :: x in after ==> after[x].key in wanted;
    forall k | k in wanted ensures k in KeysOf(after) {
      var x;
      if k in KeysOf(ms) {
        x :| x in ms && ms[x].key == k;
      } else {
        assert k in KeysOf(added);
        x :| x in added && added[x].key == k;
      }
      assert after[x].key == k;
    }
  }
}

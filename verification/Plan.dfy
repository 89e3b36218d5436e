/** Which requests the provider may issue in which state, and what a whole run of requests is. */
module Plan {
  import opened Basics
  import opened CloudState
  import opened Service
  import Ranges

  /** The entry point a run belongs to. */
  datatype Verb = Ensuring | Updating | Deleting

  /** On whose behalf a request is made: a Service port with its listener, the removal of a listener,
      or the load balancer as a whole. */
  datatype Purpose = ForPort(port: Port, listener: Id) | Removing(listener: Id) | WholeBalancer

  predicate At(s: State, lb: Id, key: Key, l: Id) {
    l in s.listeners && s.listeners[l].lb == lb && s.listeners[l].key == key
  }

  predicate NoneAt(s: State, lb: Id, key: Key) {
    forall l :: l in s.listeners ==> !At(s, lb, key, l)
  }

  predicate HasPool(s: State, l: Id, q: Id) {
    l in s.listeners && s.listeners[l].pool == Some(q) && q in s.pools && q in s.members
  }

  predicate HasGroup(s: State, l: Id, g: Id) {
    l in s.listeners && s.listeners[l].group == Some(g) && g in s.groups
  }

  /** The listener names the group, which may have vanished. */
  predicate Binds(s: State, l: Id, g: Id) {
    l in s.listeners && s.listeners[l].group == Some(g)
  }

  // ----- keeping one port in order -----

  predicate MayAttach(cfg: Config, s: State, p: Port, l: Id, g: Id, enable: bool, kind: string) {
    && l in s.listeners && g in s.groups && s.groups[g].name == ResourceName(cfg.name, p.key)
    && BoundOnlyTo(s, g, l)
    && (Get(s.groups, s.listeners[l].group).Some? ==> s.listeners[l].group == Some(g))
    && if enable then
         && kind == "white" && cfg.Whitelist() != []
         && Ranges.SameLengthCover(s.groups[g].ips, cfg.Whitelist())
         && (s.listeners[l].group != Some(g) ==> s.groups[g].ips == cfg.Whitelist())
         && !(s.listeners[l].group == Some(g) && s.listeners[l].enabled == Some(true))
       else
         kind == "" && cfg.Whitelist() == [] && s.listeners[l].group == Some(g) && s.listeners[l].enabled == Some(true)
  }

  predicate MayUpdateGroup(cfg: Config, s: State, p: Port, l: Id, g: Id, ips: seq<string>) {
    && HasGroup(s, l, g) && s.groups[g].name == ResourceName(cfg.name, p.key)
    && cfg.Whitelist() != [] && ips == cfg.Whitelist() && !Ranges.SameLengthCover(s.groups[g].ips, ips)
  }

  predicate MayCreateGroup(cfg: Config, s: State, p: Port, l: Id, name: string, ips: seq<string>) {
    && l in s.listeners && Get(s.groups, s.listeners[l].group).None?
    && name == ResourceName(cfg.name, p.key) && ips == cfg.Whitelist() && ips != []
  }

  predicate MayCreatePool(cfg: Config, s: State, p: Port, l: Id, name: string, algorithm: string,
                          persistence: Option<Persistence>) {
    && l in s.listeners && s.listeners[l].pool.None?
    && name == ResourceName(cfg.name, p.key)
    && algorithm == cfg.settings.algorithm && persistence == PersistenceFor(cfg)
    && AccessSettled(cfg, p, TreeOf(s, l).value)
  }

  predicate MayUpdatePool(cfg: Config, s: State, l: Id, q: Id, algorithm: string, persistence: Option<Persistence>) {
    && HasPool(s, l, q) && !PoolTuned(cfg, s.pools[q])
    && algorithm == cfg.settings.algorithm && persistence == PersistenceFor(cfg)
  }

  predicate MayCreateMember(cfg: Config, s: State, p: Port, l: Id, q: Id, m: Member) {
    && HasPool(s, l, q) && m.key in WantedKeys(cfg, p) && m == WantedMember(cfg, p, m.key)
    && m.key !in KeysOf(s.members[q])
  }

  predicate MayDeleteMember(cfg: Config, s: State, p: Port, l: Id, q: Id, id: Id) {
    && HasPool(s, l, q) && id in s.members[q] && s.members[q][id].key !in WantedKeys(cfg, p)
    && WantedKeys(cfg, p) != {} && WantedKeys(cfg, p) <= KeysOf(s.members[q])
  }

  predicate MayCreateMonitor(cfg: Config, s: State, p: Port, l: Id, q: Id, name: string, probe: Probe) {
    && HasPool(s, l, q) && s.pools[q].monitor.None? && cfg.settings.probing
    && name == ResourceName(cfg.name, p.key) && probe == ProbeFor(cfg, p)
  }

  predicate HasMonitor(s: State, l: Id, m: Id) {
    && l in s.listeners && s.listeners[l].pool.Some?
    && var q := s.listeners[l].pool.value;
       HasPool(s, l, q) && s.pools[q].monitor == Some(m) && m in s.monitors
  }

  /** The part of a monitor that an update cannot change. */
  predicate SameShape(a: Probe, b: Probe) { a.kind == b.kind && a.port == b.port }

  predicate MayUpdateMonitor(cfg: Config, s: State, p: Port, l: Id, m: Id, probe: Probe) {
    && HasMonitor(s, l, m) && cfg.settings.probing && probe == ProbeFor(cfg, p)
    && SameShape(s.monitors[m].probe, probe) && s.monitors[m].probe != probe
  }

  predicate MayDropMonitor(cfg: Config, s: State, p: Port, l: Id, m: Id) {
    HasMonitor(s, l, m) && (!cfg.settings.probing || !SameShape(s.monitors[m].probe, ProbeFor(cfg, p)))
  }

  predicate MayCreateListener(cfg: Config, s: State, p: Port, lb: Id, name: string, key: Key, idle: int) {
    && lb == cfg.lb && key == p.key && name == ResourceName(cfg.name, p.key) && idle == cfg.settings.idle
    && NoneAt(s, lb, key)
  }

  /** The requests that bring port `p`, served by listener `l`, closer to what the Service wants. */
  predicate Upkeep(cfg: Config, s: State, p: Port, l: Id, op: Op) {
    match op
    case CreateListener(lb, name, key, idle) => MayCreateListener(cfg, s, p, lb, name, key, idle)
    case SetIdle(x, idle) => At(s, cfg.lb, p.key, l) && x == l && idle == cfg.settings.idle && idle > 0
    case SetGroup(x, g, enable, kind) => At(s, cfg.lb, p.key, l) && x == l && MayAttach(cfg, s, p, l, g, enable, kind)
    case CreateGroup(name, ips) => At(s, cfg.lb, p.key, l) && MayCreateGroup(cfg, s, p, l, name, ips)
    case UpdateGroup(g, ips) => At(s, cfg.lb, p.key, l) && MayUpdateGroup(cfg, s, p, l, g, ips)
    case CreatePool(x, name, algorithm, persistence) =>
      At(s, cfg.lb, p.key, l) && x == l && MayCreatePool(cfg, s, p, l, name, algorithm, persistence)
    case UpdatePool(q, algorithm, persistence) =>
      At(s, cfg.lb, p.key, l) && MayUpdatePool(cfg, s, l, q, algorithm, persistence)
    case CreateMember(q, m) => At(s, cfg.lb, p.key, l) && MayCreateMember(cfg, s, p, l, q, m)
    case DeleteMember(q, id) => At(s, cfg.lb, p.key, l) && MayDeleteMember(cfg, s, p, l, q, id)
    case CreateMonitor(q, name, probe) => At(s, cfg.lb, p.key, l) && MayCreateMonitor(cfg, s, p, l, q, name, probe)
    case UpdateMonitor(m, probe) => At(s, cfg.lb, p.key, l) && MayUpdateMonitor(cfg, s, p, l, m, probe)
    case DeleteMonitor(m) => At(s, cfg.lb, p.key, l) && MayDropMonitor(cfg, s, p, l, m)
    case _ => false
  }

  // ----- taking one listener down -----

  /** The order of teardown: monitor, members, pool, listener, and then the Service's own IP group. */
  predicate Removal(base: string, s: State, l: Id, op: Op) {
    match op
    case DeleteMonitor(m) => HasMonitor(s, l, m)
    case DeleteMember(q, id) => HasPool(s, l, q) && s.pools[q].monitor.None? && id in s.members[q]
    case DeletePool(q) => HasPool(s, l, q) && s.pools[q].monitor.None? && s.members[q] == map[]
    case DeleteListener(x) => x == l && l in s.listeners && s.listeners[l].pool.None?
    case DeleteGroup(g) => l !in s.listeners && g in s.groups && Own(base, s.groups[g].name) && !Bound(s, g)
    case _ => false
  }

  predicate Shared(cfg: Config) { cfg.settings.balancerId != "" }

  /** Whether a listener on the load balancer has to go: in `Ensuring`, our own on a key no longer wanted;
      in `Deleting`, every listener, or only our own when the load balancer is shared. */
  predicate Condemned(cfg: Config, verb: Verb, listener: Listener) {
    match verb
    case Ensuring => Own(cfg.name, listener.name) && listener.key !in cfg.Wanted()
    case Updating => false
    case Deleting => Shared(cfg) ==> Own(cfg.name, listener.name)
  }

  predicate Doomed(cfg: Config, verb: Verb, s: State, l: Id) {
    l in s.listeners && s.listeners[l].lb == cfg.lb && Condemned(cfg, verb, s.listeners[l])
  }

  predicate MemberOp(op: Op) { op.CreateMember? || op.DeleteMember? }

  predicate GroupOp(op: Op) { op.CreateGroup? || op.UpdateGroup? || op.DeleteGroup? }

  predicate Justified(cfg: Config, verb: Verb, s: State, why: Purpose, op: Op) {
    match why
    case ForPort(p, l) =>
      && p in cfg.Ports() && verb != Deleting && (verb == Updating ==> MemberOp(op))
      && Upkeep(cfg, s, p, l, op)
    case Removing(l) =>
      verb != Updating && (op.DeleteGroup? || Doomed(cfg, verb, s, l)) && Removal(cfg.name, s, l, op)
    case WholeBalancer => false
  }

  // ----- runs -----

  /** One request as it happened: what was asked, the answer, and the cloud before and after. */
  datatype Call = Call(why: Purpose, op: Op, id: Id, reply: Reply, pre: State, post: State)
  {
    /** It took effect exactly if the answer says so. */
    const done: bool := reply == Ok
  }

  /** The answers after which the provider repeats a request: the load balancer, or what the EIP is bound to, is still
      busy. The creation of a load balancer or an IP group is not repeated. */
  function Transient(op: Op): set<Reply> {
    match op
    case CreateBalancer(_, _, _, _) => {}
    case CreateGroup(_, _) => {}
    case DeleteEip(_) => {Conflict, BadRequest}
    case _ => {Conflict}
  }

  /** The calls of one retry loop: the same request up to six times, repeated only after a `busy` answer; `r` is the
      last answer, or an error after six busy ones. */
  predicate Retried(why: Purpose, op: Op, busy: set<Reply>, calls: seq<Call>, r: Reply) {
    && 1 <= |calls| <= 6
    && (forall i :: 0 <= i < |calls| ==> calls[i].why == why && calls[i].op == op)
    && (forall i :: 0 <= i < |calls| - 1 ==> calls[i].reply in busy)
    && var last := calls[|calls| - 1].reply;
       if last in busy then |calls| == 6 && r == Other else r == last
  }

  /** How many of the calls were answered with one of `replies`. */
  function Answered(calls: seq<Call>, replies: set<Reply>): nat {
    if calls == [] then 0
    else Answered(calls[..|calls| - 1], replies) + if calls[|calls| - 1].reply in replies then 1 else 0
  }

  /** A request that is answered with nothing worse than busy, and fewer than six times so, succeeds in the end; one
      that gives up on busy answers has had exactly six. */
  lemma RetriesSucceed(why: Purpose, op: Op, busy: set<Reply>, calls: seq<Call>, r: Reply)
    requires Retried(why, op, busy, calls, r) && Ok !in busy
    ensures Answered(calls, busy) < 6 && (forall i :: 0 <= i < |calls| ==> calls[i].reply in busy + {Ok}) ==> r == Ok
    ensures calls[|calls| - 1].reply in busy ==> Answered(calls, busy) == 6
    ensures r == Ok <==> calls[|calls| - 1].reply == Ok
  {
    if calls[|calls| - 1].reply in busy {
      AllAnswered(calls, busy);
    }
  }

  lemma {:induction false} AllAnswered(calls: seq<Call>, replies: set<Reply>)
    requires forall i :: 0 <= i < |calls| ==> calls[i].reply in replies
    ensures Answered(calls, replies) == |calls|
    decreases |calls|
  {
    if calls != [] {
      AllAnswered(calls[..|calls| - 1], replies);
    }
  }

  predicate Happened(c: Call) {
    if c.done then Verdict(c.pre, c.op) == Ok && Fresh(c.pre, c.id) && c.post == Apply(c.pre, c.op, c.id)
    else c.post == c.pre
  }

  predicate LegalCall(cfg: Config, verb: Verb, c: Call) {
    Happened(c) && Justified(cfg, verb, c.pre, c.why, c.op)
  }

  /** Consecutive calls from state `s` to state `t`, with nothing in between. */
  predicate Linked(calls: seq<Call>, s: State, t: State) {
    if calls == [] then s == t
    else
      var n := |calls| - 1;
      calls[n].post == t && Linked(calls[..n], s, calls[n].pre)
  }

  lemma {:induction false} LinkedChain(before: seq<Call>, after: seq<Call>, s: State, t: State, u: State)
    requires Linked(before, s, t) && Linked(after, t, u)
    ensures Linked(before + after, s, u)
    decreases |after|
  {
    if after == [] {
      assert before + after == before;
    } else {
      var n := |after| - 1;
      LinkedChain(before, after[..n], s, t, after[n].pre);
      assert (before + after)[..|before| + n] == before + after[..n];
    }
  }

  lemma LogSplit(a: seq<Call>, b: seq<Call>, c: seq<Call>)
    requires a <= b <= c
    ensures c[|a|..] == b[|a|..] + c[|b|..]
  {
  }

  /** How many of the calls took effect. */
  function Done(calls: seq<Call>): nat {
    if calls == [] then 0
    else Done(calls[..|calls| - 1]) + if calls[|calls| - 1].done then 1 else 0
  }

  /** A run deletes an IP group only if it was bound, when the run began, to a listener the run removed. */
  predicate Freed(start: State, why: Purpose, op: Op) {
    op.DeleteGroup? ==> why.Removing? && Binds(start, why.listener, op.group)
  }

  /** A legal run of one entry point: the calls made from `start` up to the present state. */
  predicate LegalRun(cfg: Config, verb: Verb, start: State, calls: seq<Call>, now: State) {
    && Linked(calls, start, now)
    && forall i :: 0 <= i < |calls| ==> LegalCall(cfg, verb, calls[i]) && Freed(start, calls[i].why, calls[i].op)
  }

  lemma LegalRunExtends(cfg: Config, verb: Verb, start: State, calls: seq<Call>, now: State, c: Call)
    requires LegalRun(cfg, verb, start, calls, now)
    requires LegalCall(cfg, verb, c) && Freed(start, c.why, c.op) && c.pre == now
    ensures LegalRun(cfg, verb, start, calls + [c], c.post)
  {
  }

  lemma DoneExtends(calls: seq<Call>, c: Call)
    ensures Done(calls + [c]) == Done(calls) + if c.done then 1 else 0
  {
  }

  /** The Service's IP groups that no listener binds. */
  function Orphans(base: string, s: State): set<Id> {
    set g | g in s.groups && Own(base, s.groups[g].name) && !Bound(s, g)
  }

  /** The Service's IP groups that are unbound in `t` and were not in `s`. */
  function Leaked(base: string, s: State, t: State): set<Id> { Orphans(base, t) - Orphans(base, s) }

  lemma LeakedWithin(base: string, s: State, t: State, leak: set<Id>)
    requires Orphans(base, t) <= Orphans(base, s) + leak
    ensures Leaked(base, s, t) <= leak && |Leaked(base, s, t)| <= |leak|
  {
    var leaked := Leaked(base, s, t);
    assert leak == leaked + (leak - leaked);
  }

  // ----- the wanted state as a whole -----

  ghost predicate PortSettled(cfg: Config, s: State, p: Port) {
    exists l :: At(s, cfg.lb, p.key, l) && Settled(cfg, p, TreeOf(s, l).value)
  }

  /** No listener of the Service is left on a key the Service does not have. */
  predicate NoStale(cfg: Config, s: State) {
    forall l :: l in s.listeners && s.listeners[l].lb == cfg.lb && Own(cfg.name, s.listeners[l].name) ==>
      s.listeners[l].key in cfg.Wanted()
  }

  ghost predicate Converged(cfg: Config, s: State) {
    && (forall p :: p in cfg.Ports() ==> PortSettled(cfg, s, p))
    && NoStale(cfg, s)
  }
}

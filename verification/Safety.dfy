/** Invariants of every state that a Service's requests can reach, whatever its spec and whichever requests fail. */
module Safety {
  import opened Basics
  import opened CloudState
  import opened Service
  import opened Plan
  import opened Steps
  import opened Interleave
  import Monitors

  lemma LegalPrefix(s: State, acts: seq<Act>)
    requires Legal(s, acts) && NewIds(s, acts) && acts != []
    ensures Legal(s, acts[..|acts| - 1]) && NewIds(s, acts[..|acts| - 1])
    ensures Allowed(Play(s, acts[..|acts| - 1]), acts[|acts| - 1])
            && NewId(Play(s, acts[..|acts| - 1]), acts[|acts| - 1])
    ensures Verdict(Play(s, acts[..|acts| - 1]), acts[|acts| - 1].op) == Ok
    ensures Play(s, acts) == After(Play(s, acts[..|acts| - 1]), acts[|acts| - 1])
  {
  }

  // ----- whitelist before backends -----

  /** The requests come from one Service whose normalized source ranges stay `ranges`. */
  predicate Restricted(acts: seq<Act>, ranges: seq<string>) {
    forall i :: 0 <= i < |acts| ==> Sound(acts[i].cfg) && acts[i].cfg.Whitelist() == ranges
  }

  /** A pool hangs only off a listener with an enabled white list, and a bound group holds exactly the ranges. */
  predicate SafeListener(s: State, listener: Listener, ranges: seq<string>) {
    && (listener.group.Some? ==> listener.group.value in s.groups && s.groups[listener.group.value].ips == ranges)
    && (listener.pool.Some? ==> listener.group.Some? && listener.enabled == Some(true) && listener.kind == "white")
  }

  /** Every listener made since `start` is safe. */
  predicate Sheltered(start: State, s: State, ranges: seq<string>) {
    forall l :: l in s.listeners && l !in start.listeners ==> SafeListener(s, s.listeners[l], ranges)
  }

  lemma ShelteredAccess(start: State, cfg: Config, s: State, p: Port, l: Id, op: Op, id: Id)
    requires Sheltered(start, s, cfg.Whitelist()) && cfg.Whitelist() != [] && (op.SetGroup? || GroupOp(op))
    requires Upkeep(cfg, s, p, l, op) && Verdict(s, op) == Ok && Fresh(s, id)
    ensures Sheltered(start, Apply(s, op, id), cfg.Whitelist())
  {
  }

  lemma ShelteredPool(start: State, cfg: Config, s: State, p: Port, l: Id, op: Op, id: Id)
    requires Sheltered(start, s, cfg.Whitelist()) && cfg.Whitelist() != [] && op.CreatePool?
    requires Upkeep(cfg, s, p, l, op) && Verdict(s, op) == Ok && Fresh(s, id)
    ensures Sheltered(start, Apply(s, op, id), cfg.Whitelist())
  {
  }

  lemma ShelteredOther(start: State, s: State, op: Op, id: Id, ranges: seq<string>)
    requires Sheltered(start, s, ranges) && Verdict(s, op) == Ok && Fresh(s, id)
    requires !op.SetGroup? && !GroupOp(op) && !op.CreatePool?
    ensures Sheltered(start, Apply(s, op, id), ranges)
  {
    hide Apply, Verdict, Fresh, GroupOp;
    var t := Apply(s, op, id);
    GroupsSame(s, op, id);
    if op.CreateListener? {
      ListenerMade(s, op, id);
    }
    forall l | l in t.listeners && l !in start.listeners && (op.CreateListener? ==> l != id)
      ensures SafeListener(t, t.listeners[l], ranges)
    {
      BindingKept(s, op, id, l);
      NoPoolGained(s, op, id, l);
    }
  }

  lemma GroupsSame(s: State, op: Op, id: Id)
    requires Verdict(s, op) == Ok && !GroupOp(op)
    ensures Apply(s, op, id).groups == s.groups
  {
  }

  lemma NoPoolGained(s: State, op: Op, id: Id, l: Id)
    requires Verdict(s, op) == Ok && !op.CreatePool? && l in s.listeners && l in Apply(s, op, id).listeners
    requires op.CreateListener? ==> l != id
    ensures Apply(s, op, id).listeners[l].pool.Some? ==> s.listeners[l].pool.Some?
  {
  }

  lemma ShelteredUpkeep(start: State, cfg: Config, s: State, p: Port, l: Id, op: Op, id: Id)
    requires Sheltered(start, s, cfg.Whitelist()) && cfg.Whitelist() != []
    requires Upkeep(cfg, s, p, l, op) && Verdict(s, op) == Ok && Fresh(s, id)
    ensures Sheltered(start, Apply(s, op, id), cfg.Whitelist())
  {
    hide Upkeep, Apply, Verdict, Sheltered;
    if op.SetGroup? || GroupOp(op) {
      ShelteredAccess(start, cfg, s, p, l, op, id);
    } else if op.CreatePool? {
      ShelteredPool(start, cfg, s, p, l, op, id);
    } else {
      ShelteredOther(start, s, op, id, cfg.Whitelist());
    }
  }

  lemma ShelteredRemoval(start: State, base: string, s: State, l: Id, op: Op, id: Id, ranges: seq<string>)
    requires Sheltered(start, s, ranges) && Removal(base, s, l, op) && Verdict(s, op) == Ok && Fresh(s, id)
    ensures Sheltered(start, Apply(s, op, id), ranges)
  {
  }

  lemma ShelteredStep(start: State, s: State, a: Act, ranges: seq<string>)
    requires Sheltered(start, s, ranges) && Sound(a.cfg) && a.cfg.Whitelist() == ranges && ranges != []
    requires Allowed(s, a) && NewId(s, a) && Verdict(s, a.op) == Ok
    ensures Sheltered(start, After(s, a), ranges)
  {
    hide Upkeep, Removal, Apply, Verdict, Sheltered;
    if a.done {
      if a.why.ForPort? {
        ShelteredUpkeep(start, a.cfg, s, a.why.port, a.why.listener, a.op, a.id);
      } else {
        ShelteredRemoval(start, a.cfg.name, s, a.why.listener, a.op, a.id, ranges);
      }
    }
  }

  /** Whitelist before backends: a listener made for a Service with source ranges never has a pool, let alone a member,
      without an enabled white list of exactly those ranges, in any reachable state and whatever fails. */
  lemma {:induction false} WhitelistBeforeBackends(start: State, acts: seq<Act>, ranges: seq<string>)
    requires ranges != [] && Restricted(acts, ranges) && Legal(start, acts) && NewIds(start, acts)
    ensures Sheltered(start, Play(start, acts), ranges)
    decreases |acts|
  {
    hide Sheltered, Legal, NewIds, Play, After, Allowed;
    if acts == [] {
      NothingYet(start, ranges);
    } else {
      var n := |acts| - 1;
      LegalPrefix(start, acts);
      WhitelistBeforeBackends(start, acts[..n], ranges);
      ShelteredStep(start, Play(start, acts[..n]), acts[n], ranges);
    }
  }

  lemma NothingYet(start: State, ranges: seq<string>)
    ensures Play(start, []) == start && Sheltered(start, start, ranges)
  {
  }

  // ----- the shape of monitors -----

  /** What every monitor made by the provider looks like. */
  predicate ProperProbe(p: Probe) {
    && p.kind in {"TCP", "UDP_CONNECT", "HTTP", "HTTPS"}
    && (!IsHttp(p.kind) ==> p.port == 0 && p.path == "" && p.verb == "")
    && (IsHttp(p.kind) ==> "/" <= p.path && p.verb != "")
    && (p.port != 0 ==> p.kind == "HTTP" && p.path == "/healthz" && p.verb == "GET")
  }

  ghost predicate ProbesProper(base: string, s: State) {
    forall m :: m in s.monitors && Own(base, s.monitors[m].name) ==> ProperProbe(s.monitors[m].probe)
  }

  /** What the annotation checks guarantee about the probe path. */
  predicate RootedPath(cfg: Config) { cfg.settings.probePath == "" || "/" <= cfg.settings.probePath }

  lemma ProbeForIsProper(cfg: Config, p: Port)
    requires RootedPath(cfg)
    ensures ProperProbe(ProbeFor(cfg, p))
  {
  }

  lemma ProperStep(base: string, s: State, a: Act)
    requires ProbesProper(base, s) && Sound(a.cfg) && RootedPath(a.cfg)
    requires Allowed(s, a) && NewId(s, a) && Verdict(s, a.op) == Ok
    ensures ProbesProper(base, After(s, a))
  {
    hide ProbeFor, Tuned, Upkeep, Removal, Verdict;
    if !a.op.CreateMonitor? && !a.op.UpdateMonitor? {
      hide Apply;
      OtherOpsLeaveMonitors(s, a.op, a.id);
    } else if a.why.ForPort? {
      MonitorRequest(a.cfg, s, a.why.port, a.why.listener, a.op);
      ProbeForIsProper(a.cfg, a.why.port);
      if a.op.UpdateMonitor? && Own(base, s.monitors[a.op.monitor].name) {
        Monitors.TunedReaches(a.cfg, a.why.port, s.monitors[a.op.monitor].probe);
      }
    } else {
      RemovesOnly(a.cfg.name, s, a.why.listener, a.op);
    }
  }

  /** In every reachable state each monitor the provider made has the shape its type calls for, although an update can
      change neither type nor port and cannot clear a field. */
  lemma {:induction false} MonitorsStayProper(base: string, start: State, acts: seq<Act>)
    requires ProbesProper(base, start) && Legal(start, acts) && NewIds(start, acts)
    requires forall i :: 0 <= i < |acts| ==> Sound(acts[i].cfg) && RootedPath(acts[i].cfg)
    ensures ProbesProper(base, Play(start, acts))
    decreases |acts|
  {
    hide ProbesProper, Legal, NewIds, After, Allowed;
    if acts != [] {
      var n := |acts| - 1;
      LegalPrefix(start, acts);
      MonitorsStayProper(base, start, acts[..n]);
      ProperStep(base, Play(start, acts[..n]), acts[n]);
    }
  }

  // ----- IP groups of others -----

  lemma OwnGroupRequest(cfg: Config, s: State, p: Port, l: Id, op: Op)
    requires Sound(cfg) && Upkeep(cfg, s, p, l, op)
    ensures op.UpdateGroup? ==> op.group in s.groups && Own(cfg.name, s.groups[op.group].name)
    ensures !op.DeleteGroup?
  {
  }

  lemma GroupsLeftAlone(s: State, op: Op, id: Id, g: Id)
    requires Verdict(s, op) == Ok && Fresh(s, id) && g in s.groups
    requires (op.UpdateGroup? || op.DeleteGroup?) ==> op.group != g
    ensures g in Apply(s, op, id).groups && Apply(s, op, id).groups[g] == s.groups[g]
  {
  }

  lemma ForeignGroupStep(s: State, a: Act, g: Id)
    requires Sound(a.cfg) && Allowed(s, a) && NewId(s, a) && Verdict(s, a.op) == Ok
    requires g in s.groups && !Own(a.cfg.name, s.groups[g].name)
    ensures g in After(s, a).groups && After(s, a).groups[g] == s.groups[g]
  {
    hide Upkeep, Removal, Verdict, Apply, Own;
    if a.why.ForPort? {
      OwnGroupRequest(a.cfg, s, a.why.port, a.why.listener, a.op);
    } else {
      RemovesOnly(a.cfg.name, s, a.why.listener, a.op);
    }
    if a.done {
      GroupsLeftAlone(s, a.op, a.id, g);
    }
  }

  /** An IP group without the Service's prefix is never changed or deleted, even on an adopted listener. */
  lemma {:induction false} ForeignGroupsStay(base: string, start: State, acts: seq<Act>, g: Id)
    requires Legal(start, acts) && NewIds(start, acts)
    requires forall i :: 0 <= i < |acts| ==> Sound(acts[i].cfg) && acts[i].cfg.name == base
    requires g in start.groups && !Own(base, start.groups[g].name)
    ensures g in Play(start, acts).groups && Play(start, acts).groups[g] == start.groups[g]
    decreases |acts|
  {
    hide Legal, NewIds, After, Allowed, Own;
    if acts != [] {
      var n := |acts| - 1;
      LegalPrefix(start, acts);
      ForeignGroupsStay(base, start, acts[..n], g);
      ForeignGroupStep(Play(start, acts[..n]), acts[n], g);
    }
  }
}

/** The health monitor of a pool: created, tuned in place, recreated or removed. */
module Monitors {
  import opened Basics
  import opened CloudState
  import opened Service
  import opened Plan
  import opened Backend
  import opened Calls
  import opened Meaning

  /** Between `s` and `t` only the monitor of pool `q` of listener `l` has changed. */
  ghost predicate OnlyMonitor(s: State, t: State, l: Id, q: Id) {
    && t.balancers == s.balancers && t.eips == s.eips && t.groups == s.groups
    && t.members == s.members && t.listeners == s.listeners
    && q in s.pools && q in t.pools && t.pools[q] == s.pools[q].(monitor := t.pools[q].monitor)
    && Frame(s, t, l)
  }

  ghost predicate MonitorReady(c: Cloud, cfg: Config, run: Run, port: Port, l: Id, q: Id)
    reads c
  {
    && Ongoing(c, cfg, run) && run.verb == Ensuring && port in cfg.Ports()
    && At(c.now, cfg.lb, port.key, l) && HasPool(c.now, l, q)
  }

  method CreateMonitorFor(c: Cloud, cfg: Config, ghost run: Run, port: Port, ghost l: Id, q: Id) returns (r: Reply)
    requires MonitorReady(c, cfg, run, port, l, q) && c.now.pools[q].monitor.None? && cfg.settings.probing
    requires Quiet(c, run)
    modifies c
    ensures Ongoing(c, cfg, run) && c.faults >= old(c.faults)
    ensures r == Ok ==> Quiet(c, run)
    ensures OnlyMonitor(old(c.now), c.now, l, q)
    ensures r == Ok ==> MonitorSettled(cfg, port, TreeOf(c.now, l).value.monitor)
    ensures Orphans(cfg.name, c.now) <= Orphans(cfg.name, old(c.now))
    ensures c.faults == old(c.faults) ==> r == Ok
  {
    hide LegalRun, KeysUnique, PoolRefs, GroupsTidy, ProbeFor, ResourceName, Retried, Quiet;
    var id;
    r, id := Mutate(c, cfg, run, cfg.lb, ForPort(port, l),
                    CreateMonitor(q, ResourceName(cfg.name, port.key), ProbeFor(cfg, port)));
  }

  method DropMonitor(c: Cloud, cfg: Config, ghost run: Run, ghost port: Port, ghost l: Id, q: Id, m: Id)
    returns (r: Reply)
    requires MonitorReady(c, cfg, run, port, l, q) && HasMonitor(c.now, l, m) && MayDropMonitor(cfg, c.now, port, l, m)
    requires Quiet(c, run)
    modifies c
    ensures Ongoing(c, cfg, run) && c.faults >= old(c.faults)
    ensures r == Ok ==> Quiet(c, run)
    ensures OnlyMonitor(old(c.now), c.now, l, q)
    ensures r == Ok ==> c.now.pools[q].monitor == None
    ensures Orphans(cfg.name, c.now) <= Orphans(cfg.name, old(c.now))
    ensures c.faults == old(c.faults) ==> r == Ok
  {
    hide Quiet;
    var id;
    r, id := Mutate(c, cfg, run, cfg.lb, ForPort(port, l), DeleteMonitor(m));
    if r == NotFound {
      r := Ok;
    }
  }

  /** An update in place reaches the wanted probe, although it cannot clear fields. */
  lemma TunedReaches(cfg: Config, p: Port, probe: Probe)
    requires Sound(cfg) && PlainProbe(probe) && SameShape(probe, ProbeFor(cfg, p))
    ensures Tuned(probe, ProbeFor(cfg, p)) == ProbeFor(cfg, p)
  {
  }

  method TuneMonitor(c: Cloud, cfg: Config, ghost run: Run, port: Port, ghost l: Id, ghost q: Id, m: Id)
    returns (r: Reply)
    requires MonitorReady(c, cfg, run, port, l, q) && HasMonitor(c.now, l, m)
    requires MayUpdateMonitor(cfg, c.now, port, l, m, ProbeFor(cfg, port))
    requires Quiet(c, run)
    modifies c
    ensures Ongoing(c, cfg, run) && c.faults >= old(c.faults)
    ensures r == Ok ==> Quiet(c, run)
    ensures OnlyMonitor(old(c.now), c.now, l, q)
    ensures r == Ok ==> MonitorSettled(cfg, port, TreeOf(c.now, l).value.monitor)
    ensures Orphans(cfg.name, c.now) <= Orphans(cfg.name, old(c.now))
    ensures c.faults == old(c.faults) ==> r == Ok
  {
    hide LegalRun, KeysUnique, PoolRefs, GroupsTidy, ProbeFor, Tuned, Quiet;
    TunedReaches(cfg, port, c.now.monitors[m].probe);
    var id;
    r, id := Mutate(c, cfg, run, cfg.lb, ForPort(port, l), UpdateMonitor(m, ProbeFor(cfg, port)));
  }

  /** A monitor of the wanted type and port is updated in place, any other is recreated. */
  method RetuneMonitor(c: Cloud, cfg: Config, ghost run: Run, port: Port, ghost l: Id, q: Id, m: Id, monitor: Monitor)
    returns (r: Reply)
    requires MonitorReady(c, cfg, run, port, l, q) && HasMonitor(c.now, l, m) && monitor == c.now.monitors[m]
    requires cfg.settings.probing
    requires Quiet(c, run)
    modifies c
    ensures Ongoing(c, cfg, run) && c.faults >= old(c.faults)
    ensures r == Ok ==> Quiet(c, run)
    ensures OnlyMonitor(old(c.now), c.now, l, q)
    ensures r == Ok ==> MonitorSettled(cfg, port, TreeOf(c.now, l).value.monitor)
    ensures Orphans(cfg.name, c.now) <= Orphans(cfg.name, old(c.now))
    ensures c.faults == old(c.faults) ==> r == Ok
  {
    hide LegalRun, KeysUnique, PoolRefs, GroupsTidy, Quiet;
    var wanted := ProbeFor(cfg, port);
    if monitor.probe.kind != wanted.kind || monitor.probe.port != wanted.port {
      r := DropMonitor(c, cfg, run, port, l, q, m);
      if r == Ok {
        r := CreateMonitorFor(c, cfg, run, port, l, q);
      }
      return;
    }
    if monitor.probe == wanted {
      return Ok;
    }
    r := TuneMonitor(c, cfg, run, port, l, q, m);
  }

  method ReconcileMonitor(c: Cloud, cfg: Config, ghost run: Run, port: Port, ghost l: Id, q: Id, pool: Pool)
    returns (r: Reply)
    requires MonitorReady(c, cfg, run, port, l, q) && pool.monitor == c.now.pools[q].monitor
    requires Quiet(c, run)
    modifies c
    ensures Ongoing(c, cfg, run) && c.faults >= old(c.faults)
    ensures r == Ok ==> Quiet(c, run)
    ensures OnlyMonitor(old(c.now), c.now, l, q)
    ensures r == Ok ==> MonitorSettled(cfg, port, TreeOf(c.now, l).value.monitor)
    ensures r == Ok ==> MonitorMeant(cfg, port, TreeOf(c.now, l).value.monitor)
    ensures Orphans(cfg.name, c.now) <= Orphans(cfg.name, old(c.now))
    ensures c.faults == old(c.faults) ==> r == Ok
  {
    hide MonitorMeant, Quiet;
    forall m ensures MonitorSettled(cfg, port, m) <==> MonitorMeant(cfg, port, m) { MonitorIsMeant(cfg, port, m); }
    if !cfg.settings.probing {
      if pool.monitor.None? {
        return Ok;
      }
      r := DropMonitor(c, cfg, run, port, l, q, pool.monitor.value);
      return;
    }
    if pool.monitor.None? {
      r := CreateMonitorFor(c, cfg, run, port, l, q);
      return;
    }
    var monitor;
    r, monitor := c.GetMonitor(pool.monitor.value);
    if r != Ok {
      return;
    }
    r := RetuneMonitor(c, cfg, run, port, l, q, pool.monitor.value, monitor.value);
  }
}

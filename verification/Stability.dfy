/** What a run leaves alone: settled ports, live members, and the listeners of others. */
module Stability {
  import opened Basics
  import opened CloudState
  import opened Service
  import opened Plan
  import opened Steps

  // ----- bystanders -----

  /** A listener the Service neither owns nor could adopt, and that does not go with an unshared load balancer. */
  predicate Bystander(cfg: Config, verb: Verb, s: State, l: Id) {
    && l in s.listeners && !Own(cfg.name, s.listeners[l].name)
    && (s.listeners[l].lb != cfg.lb
        || (s.listeners[l].key !in cfg.Wanted() && (verb == Deleting ==> Shared(cfg))))
  }

  lemma NotForBystander(cfg: Config, verb: Verb, s: State, why: Purpose, op: Op, id: Id, l: Id)
    requires WellFormed(cfg.name, s) && Sound(cfg) && Bystander(cfg, verb, s, l)
    requires Justified(cfg, verb, s, why, op) && Verdict(s, op) == Ok && Fresh(s, id)
    ensures TreeOf(Apply(s, op, id), l) == TreeOf(s, l)
  {
    hide PoolRefs, MonitorRefs, KeysUnique, ProbesPlain, GroupsTidy, TreeOf;
    assert why.ForPort? ==> why.port.key in cfg.Wanted();
    JustifiedIsWithin(cfg, verb, s, why, op, id);
    StepFrame(s, op, id, if op.CreateListener? then id else why.listener);
  }

  /** No run of an entry point changes a bystander, its pool, members, monitor or IP group. */
  lemma {:induction false} BystandersStay(cfg: Config, verb: Verb, start: State, calls: seq<Call>, now: State, l: Id)
    requires WellFormed(cfg.name, start) && Sound(cfg)
    requires LegalRun(cfg, verb, start, calls, now) && Bystander(cfg, verb, start, l)
    ensures WellFormed(cfg.name, now) && Bystander(cfg, verb, now, l) && TreeOf(now, l) == TreeOf(start, l)
    decreases |calls|
  {
    hide WellFormed, Justified;
    if calls != [] {
      var n := |calls| - 1;
      var c := calls[n];
      BystandersStay(cfg, verb, start, calls[..n], c.pre, l);
      assert LegalCall(cfg, verb, c);
      if c.done {
        NotForBystander(cfg, verb, c.pre, c.why, c.op, c.id, l);
        JustifiedKeepsWellFormed(cfg, verb, c.pre, c.why, c.op, c.id);
      }
    }
  }

  // ----- quiescence -----

  ghost predicate AllFurnished(cfg: Config, s: State) {
    forall p :: p in cfg.Ports() ==> exists l :: At(s, cfg.lb, p.key, l) && Furnished(cfg, p, TreeOf(s, l).value)
  }

  lemma OnlyOneAt(s: State, lb: Id, key: Key, l: Id, k: Id)
    requires KeysUnique(s) && At(s, lb, key, l) && At(s, lb, key, k)
    ensures l == k
  {
  }

  lemma FurnishedAllows(cfg: Config, s: State, p: Port, l: Id, op: Op)
    requires Sound(cfg) && At(s, cfg.lb, p.key, l) && Furnished(cfg, p, TreeOf(s, l).value) && Upkeep(cfg, s, p, l, op)
    ensures op.SetIdle? || MemberOp(op)
    ensures op.SetIdle? ==> forall id :: Apply(s, op, id) == s
  {
  }

  /** With every port furnished and nothing stale, only members and the unconditional idle timeout are left to do. */
  lemma OnlyMembersLeft(cfg: Config, verb: Verb, start: State, s: State, why: Purpose, op: Op)
    requires Sound(cfg) && KeysUnique(s) && AllFurnished(cfg, s) && NoStale(cfg, s)
    requires verb != Deleting && Justified(cfg, verb, s, why, op) && Freed(start, why, op)
    requires s.listeners == start.listeners
    ensures why.ForPort? && At(s, cfg.lb, why.port.key, why.listener)
            && Furnished(cfg, why.port, TreeOf(s, why.listener).value)
    ensures op.SetIdle? || MemberOp(op)
    ensures op.SetIdle? ==> forall id :: Apply(s, op, id) == s
  {
    hide Furnished;
    if why.ForPort? {
      var p := why.port;
      var l :| At(s, cfg.lb, p.key, l) && Furnished(cfg, p, TreeOf(s, l).value);
      assert !NoneAt(s, cfg.lb, p.key);
      if !op.CreateListener? {
        OnlyOneAt(s, cfg.lb, p.key, l, why.listener);
        FurnishedAllows(cfg, s, p, l, op);
      }
    }
  }

  lemma ConvergedIsFurnished(cfg: Config, s: State)
    requires Converged(cfg, s)
    ensures AllFurnished(cfg, s) && NoStale(cfg, s)
  {
  }

  lemma SettledAllows(cfg: Config, s: State, p: Port, l: Id, op: Op)
    requires Sound(cfg) && At(s, cfg.lb, p.key, l) && Settled(cfg, p, TreeOf(s, l).value) && Upkeep(cfg, s, p, l, op)
    ensures op.SetIdle? && forall id :: Apply(s, op, id) == s
  {
  }

  /** A reconciliation that starts in the wanted state changes nothing: all it asks for is the idle timeout. */
  lemma {:induction false} Quiescence(cfg: Config, start: State, calls: seq<Call>, now: State)
    requires Sound(cfg) && KeysUnique(start) && Converged(cfg, start)
    requires LegalRun(cfg, Ensuring, start, calls, now)
    ensures now == start && forall i :: 0 <= i < |calls| ==> calls[i].op.SetIdle?
    decreases |calls|
  {
    hide Converged, Justified, KeysUnique;
    if calls != [] {
      var n := |calls| - 1;
      var c := calls[n];
      Quiescence(cfg, start, calls[..n], c.pre);
      forall i | 0 <= i < n ensures calls[i].op.SetIdle? {
        assert calls[..n][i] == calls[i];
      }
      assert LegalCall(cfg, Ensuring, c);
      NothingToDo(cfg, start, c.why, c.op);
    }
  }

  lemma NothingToDo(cfg: Config, s: State, why: Purpose, op: Op)
    requires Sound(cfg) && KeysUnique(s) && Converged(cfg, s) && Justified(cfg, Ensuring, s, why, op)
             && Freed(s, why, op)
    ensures op.SetIdle? && forall id :: Apply(s, op, id) == s
  {
    hide KeysUnique, Furnished, Settled;
    ConvergedIsFurnished(cfg, s);
    OnlyMembersLeft(cfg, Ensuring, s, s, why, op);
    assert PortSettled(cfg, s, why.port);
    var k :| At(s, cfg.lb, why.port.key, k) && Settled(cfg, why.port, TreeOf(s, k).value);
    OnlyOneAt(s, cfg.lb, why.port.key, why.listener, k);
    SettledAllows(cfg, s, why.port, why.listener, op);
  }

  // ----- adoption -----

  /** Listener `l` serves one of the Service's ports exactly as wanted. */
  ghost predicate InOrder(cfg: Config, s: State, l: Id) {
    exists p :: p in cfg.Ports() && At(s, cfg.lb, p.key, l) && Settled(cfg, p, TreeOf(s, l).value)
  }

  lemma InOrderStays(cfg: Config, s: State, why: Purpose, op: Op, id: Id, l: Id)
    requires WellFormed(cfg.name, s) && Sound(cfg) && InOrder(cfg, s, l)
    requires Justified(cfg, Ensuring, s, why, op) && Verdict(s, op) == Ok && Fresh(s, id)
    ensures TreeOf(Apply(s, op, id), l) == TreeOf(s, l)
  {
    hide PoolRefs, MonitorRefs, ProbesPlain, GroupsTidy, Settled;
    var p :| p in cfg.Ports() && At(s, cfg.lb, p.key, l) && Settled(cfg, p, TreeOf(s, l).value);
    assert p.key in cfg.Wanted();
    JustifiedIsWithin(cfg, Ensuring, s, why, op, id);
    if why.ForPort? && !op.CreateListener? && why.listener == l {
      assert why.port == p;
      SettledAllows(cfg, s, p, l, op);
    } else {
      StepFrame(s, op, id, if op.CreateListener? then id else why.listener);
    }
  }

  lemma {:induction false} OrderIsKept(cfg: Config, start: State, calls: seq<Call>, now: State, l: Id)
    requires WellFormed(cfg.name, start) && Sound(cfg)
    requires LegalRun(cfg, Ensuring, start, calls, now) && InOrder(cfg, start, l)
    ensures WellFormed(cfg.name, now) && InOrder(cfg, now, l) && TreeOf(now, l) == TreeOf(start, l)
    decreases |calls|
  {
    hide WellFormed, Justified, Settled;
    if calls != [] {
      var n := |calls| - 1;
      var c := calls[n];
      OrderIsKept(cfg, start, calls[..n], c.pre, l);
      assert LegalCall(cfg, Ensuring, c);
      if c.done {
        InOrderStays(cfg, c.pre, c.why, c.op, c.id, l);
        JustifiedKeepsWellFormed(cfg, Ensuring, c.pre, c.why, c.op, c.id);
      }
      InOrderHere(cfg, c.pre, now, l);
    }
  }

  lemma InOrderHere(cfg: Config, s: State, t: State, l: Id)
    requires InOrder(cfg, s, l) && TreeOf(t, l) == TreeOf(s, l)
    ensures InOrder(cfg, t, l)
  {
  }

  lemma ConvergedPutsInOrder(cfg: Config, s: State, p: Port, l: Id)
    requires KeysUnique(s) && Converged(cfg, s) && p in cfg.Ports() && At(s, cfg.lb, p.key, l)
    ensures InOrder(cfg, s, l)
  {
  }

  /** Lookup is by key only, so a listener of another owner on a wanted key is adopted: a successful reconciliation
      leaves it as it was exactly when it is on no wanted key, or happened to be what the Service wants. */
  lemma UntouchedIff(cfg: Config, start: State, calls: seq<Call>, now: State, l: Id)
    requires WellFormed(cfg.name, start) && Sound(cfg) && LegalRun(cfg, Ensuring, start, calls, now)
             && Converged(cfg, now)
    requires l in start.listeners && !Own(cfg.name, start.listeners[l].name)
    ensures TreeOf(now, l) == TreeOf(start, l) <==> Bystander(cfg, Ensuring, start, l) || InOrder(cfg, start, l)
  {
    hide Converged, Settled, LegalRun, GroupsTidy, ProbesPlain, References;
    if Bystander(cfg, Ensuring, start, l) {
      BystandersStay(cfg, Ensuring, start, calls, now, l);
    } else if InOrder(cfg, start, l) {
      OrderIsKept(cfg, start, calls, now, l);
    } else if TreeOf(now, l) == TreeOf(start, l) {
      RunKeepsWellFormed(cfg, Ensuring, start, calls, now);
      var p :| p in cfg.service.ports && p.key == start.listeners[l].key;
      ConvergedPutsInOrder(cfg, now, p, l);
      InOrderHere(cfg, now, start, l);
    }
  }

  lemma {:induction false} RunKeepsWellFormed(cfg: Config, verb: Verb, start: State, calls: seq<Call>, now: State)
    requires WellFormed(cfg.name, start) && LegalRun(cfg, verb, start, calls, now)
    ensures WellFormed(cfg.name, now)
    decreases |calls|
  {
    hide WellFormed, Justified;
    if calls != [] {
      var n := |calls| - 1;
      RunKeepsWellFormed(cfg, verb, start, calls[..n], calls[n].pre);
      assert LegalCall(cfg, verb, calls[n]);
      if calls[n].done {
        JustifiedKeepsWellFormed(cfg, verb, calls[n].pre, calls[n].why, calls[n].op, calls[n].id);
      }
    }
  }
}

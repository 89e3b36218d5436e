/** How the controller talks to the API: retries on conflict, and waits for the load balancer. */
module Calls {
  import opened Basics
  import opened CloudState
  import opened Service
  import opened Plan
  import opened Steps
  import opened Backend

  /** A run of one entry point, from the state and the request log as they were when it began. */
  datatype Run = Run(verb: Verb, start: State, before: seq<Call>)

  /** The run so far, for the Service and load balancer of `cfg`: every request was justified, and the cloud is still
      well-formed. */
  ghost predicate Ongoing(c: Cloud, cfg: Config, run: Run)
    reads c`now, c`log, c`balancers, c`listeners, c`pools, c`members, c`monitors, c`groups, c`eips, c`nextId
  {
    && c.Valid() && Sound(cfg) && cfg.lb in c.now.balancers
    && WellFormed(cfg.name, c.now)
    && run.before <= c.log
    && LegalRun(cfg, run.verb, run.start, c.log[|run.before|..], c.now)
  }

  /** `t` is `s` after the accepted request `op`. */
  predicate Effect(s: State, op: Op, id: Id, t: State) {
    Verdict(s, op) == Ok && Fresh(s, id) && t == Apply(s, op, id)
  }

  /** The listener whose tree a justified request may change. */
  function Subject(why: Purpose, op: Op, id: Id): Id {
    if op.CreateListener? then id else if why.WholeBalancer? then 0 else why.listener
  }

  ghost predicate MayCall(cfg: Config, run: Run, s: State, why: Purpose, op: Op) {
    Justified(cfg, run.verb, s, why, op) && Freed(run.start, why, op)
  }

  /** What one effective request leaves behind, whoever issued it. */
  ghost predicate Tame(cfg: Config, s: State, why: Purpose, op: Op, id: Id, t: State) {
    && Frame(s, t, Subject(why, op, id))
    && Orphans(cfg.name, t) <= Orphans(cfg.name, s) + Shed(s, op, id)
  }

  lemma EffectIsTame(cfg: Config, run: Run, s: State, why: Purpose, op: Op, id: Id, t: State)
    requires WellFormed(cfg.name, s) && Sound(cfg) && MayCall(cfg, run, s, why, op) && Effect(s, op, id, t)
    ensures WellFormed(cfg.name, t) && Tame(cfg, s, why, op, id, t)
  {
    JustifiedKeepsWellFormed(cfg, run.verb, s, why, op, id);
    JustifiedIsWithin(cfg, run.verb, s, why, op, id);
    StepFrame(s, op, id, Subject(why, op, id));
    OrphansStep(cfg, run.verb, s, why, op, id);
  }

  /** One attempt of a justified request. */
  method Attempt(c: Cloud, ghost cfg: Config, ghost run: Run, ghost why: Purpose, op: Op) returns (r: Reply, id: Id)
    requires Ongoing(c, cfg, run) && MayCall(cfg, run, c.now, why, op)
    modifies c
    ensures Ongoing(c, cfg, run) && c.faults >= old(c.faults) && Fresh(old(c.now), id)
    ensures r == Ok ==> Effect(old(c.now), op, id, c.now) && Tame(cfg, old(c.now), why, op, id, c.now)
    ensures r != Ok ==> c.now == old(c.now)
    ensures Done(c.log) == Done(old(c.log)) + if r == Ok then 1 else 0
    ensures c.faults == old(c.faults) ==> r == Ok || r in Transient(op)
    ensures |c.log| == |old(c.log)| + 1 && c.log[..|old(c.log)|] == old(c.log) && c.awaited == old(c.awaited)
    ensures c.log[|old(c.log)|].why == why && c.log[|old(c.log)|].op == op && c.log[|old(c.log)|].reply == r
    ensures r != NotFound
  {
    ghost var s, log0 := c.now, c.log;
    JustifiedIsAccepted(cfg, run.verb, s, why, op);
    r, id := c.Send(why, op);
    ghost var call := Call(why, op, id, r, s, c.now);
    assert c.log[|run.before|..] == log0[|run.before|..] + [call];
    assert c.log[|log0|] == call;
    LegalRunExtends(cfg, run.verb, run.start, log0[|run.before|..], s, call);
    DoneExtends(log0, call);
    if r == Ok {
      EffectIsTame(cfg, run, s, why, op, id, c.now);
    }
  }

  /** The attempts so far, the last one answered with `r`. */
  predicate Trying(why: Purpose, op: Op, calls: seq<Call>, r: Reply) {
    && 1 <= |calls| <= 6
    && (forall i :: 0 <= i < |calls| ==> calls[i].why == why && calls[i].op == op)
    && (forall i :: 0 <= i < |calls| - 1 ==> calls[i].reply in Transient(op))
    && calls[|calls| - 1].reply == r
  }

  lemma TryAgain(why: Purpose, op: Op, log0: seq<Call>, log1: seq<Call>, call: Call)
    requires log0 <= log1 && |log1| < |log0| + 6 && call.why == why && call.op == op
    requires log1 == log0 || exists r :: Trying(why, op, log1[|log0|..], r) && r in Transient(op)
    ensures Trying(why, op, (log1 + [call])[|log0|..], call.reply)
  {
  }

  lemma TriedEnough(why: Purpose, op: Op, calls: seq<Call>, r: Reply)
    requires Trying(why, op, calls, r) && (r in Transient(op) ==> |calls| == 6)
    ensures Retried(why, op, Transient(op), calls, if r in Transient(op) then Other else r)
  {
  }

  /** The next attempt of a retry loop that began at `log0`. */
  method AttemptNext(c: Cloud, ghost cfg: Config, ghost run: Run, ghost why: Purpose, op: Op, ghost log0: seq<Call>)
    returns (r: Reply, id: Id)
    requires Ongoing(c, cfg, run) && MayCall(cfg, run, c.now, why, op) && log0 <= c.log && |c.log| < |log0| + 6
    requires c.log == log0 || exists answer :: Trying(why, op, c.log[|log0|..], answer) && answer in Transient(op)
    requires Done(c.log) == Done(log0)
    modifies c
    ensures Ongoing(c, cfg, run) && c.faults >= old(c.faults) && Fresh(old(c.now), id)
    ensures r == Ok ==> Effect(old(c.now), op, id, c.now) && Tame(cfg, old(c.now), why, op, id, c.now)
    ensures r != Ok ==> c.now == old(c.now)
    ensures Done(c.log) == Done(log0) + if r == Ok then 1 else 0
    ensures log0 <= c.log && |c.log| == |old(c.log)| + 1 && Trying(why, op, c.log[|log0|..], r)
    ensures c.awaited == old(c.awaited)
    ensures c.faults == old(c.faults) ==> r == Ok || r in Transient(op)
    ensures r != NotFound
  {
    hide Ongoing, Tame, Effect, MayCall, Fresh, Transient, Trying, Done;
    ghost var log1 := c.log;
    r, id := Attempt(c, cfg, run, why, op);
    TryAgain(why, op, log0, log1, c.log[|log1|]);
    assert c.log == log1 + [c.log[|log1|]];
  }

  /** Up to six attempts while the backend answers 409; running out of attempts is an error. */
  method RetryOnConflict(c: Cloud, ghost cfg: Config, ghost run: Run, ghost why: Purpose, op: Op)
    returns (r: Reply, id: Id)
    requires Ongoing(c, cfg, run) && MayCall(cfg, run, c.now, why, op) && Transient(op) == {Conflict}
    modifies c
    ensures Ongoing(c, cfg, run) && c.faults >= old(c.faults) && Fresh(old(c.now), id)
    ensures old(c.log) <= c.log && Retried(why, op, {Conflict}, c.log[|old(c.log)|..], r)
    ensures c.awaited == old(c.awaited)
    ensures r == Ok ==> Effect(old(c.now), op, id, c.now) && Tame(cfg, old(c.now), why, op, id, c.now)
    ensures r != Ok ==> c.now == old(c.now)
    ensures Done(c.log) == Done(old(c.log)) + if r == Ok then 1 else 0
    ensures c.faults == old(c.faults) ==> r == Ok
    ensures r != NotFound && r != Conflict
  {
    hide Ongoing, Tame, Effect, MayCall, Fresh, Transient, Trying, Retried, Done;
    ghost var log0 := c.log;
    r, id := AttemptNext(c, cfg, run, why, op, log0);
    var steps := 1;
    while r == Conflict && steps < 6
      invariant log0 <= c.log && Trying(why, op, c.log[|log0|..], r) && |c.log| == |log0| + steps
      invariant Ongoing(c, cfg, run) && c.faults >= old(c.faults) && Fresh(old(c.now), id)
      invariant r == Ok ==> Effect(old(c.now), op, id, c.now) && Tame(cfg, old(c.now), why, op, id, c.now)
      invariant r != Ok ==> c.now == old(c.now)
      invariant Done(c.log) == Done(old(c.log)) + if r == Ok then 1 else 0
      invariant c.faults == old(c.faults) ==> r == Ok || r == Conflict
      invariant r != NotFound && c.awaited == old(c.awaited)
      decreases 6 - steps
    {
      r, id := AttemptNext(c, cfg, run, why, op, log0);
      steps := steps + 1;
    }
    TriedEnough(why, op, c.log[|log0|..], r);
    if r == Conflict {
      c.GiveUp();
      r := Other;
    }
  }

  lemma OngoingIsValid(c: Cloud, cfg: Config, run: Run)
    requires Ongoing(c, cfg, run)
    ensures c.Valid() && cfg.lb in c.now.balancers
  {
  }

  /** From entry `from` on, whatever took effect since the load balancer was last seen active is about IP groups. */
  ghost predicate QuietLog(log: seq<Call>, from: nat, awaited: nat) {
    forall i :: from <= i < |log| && awaited <= i && log[i].done ==> GroupOp(log[i].op)
  }

  /** No change that the run made to the load balancer is still unawaited. */
  ghost predicate Quiet(c: Cloud, run: Run)
    reads c`log, c`awaited
  {
    QuietLog(c.log, |run.before|, c.awaited)
  }

  lemma QuietIs(c: Cloud, run: Run)
    ensures Quiet(c, run) <==> QuietLog(c.log, |run.before|, c.awaited)
  {
  }

  lemma NewRunIsQuiet(c: Cloud, run: Run)
    requires run.before == c.log
    ensures Quiet(c, run)
  {
  }

  /** Requests on IP groups are not awaited, and need not be. */
  lemma GroupsStayQuiet(c: Cloud, run: Run, why: Purpose, op: Op, log0: seq<Call>, r: Reply)
    requires QuietLog(log0, |run.before|, c.awaited) && GroupOp(op) && log0 <= c.log
    requires Retried(why, op, {Conflict}, c.log[|log0|..], r)
    ensures Quiet(c, run)
  {
    forall i | |log0| <= i < |c.log| ensures GroupOp(c.log[i].op) {
      assert c.log[|log0|..][i - |log0|] == c.log[i];
    }
  }

  lemma GroupStaysQuiet(c: Cloud, run: Run, log0: seq<Call>)
    requires QuietLog(log0, |run.before|, c.awaited) && log0 <= c.log && |c.log| == |log0| + 1
    requires GroupOp(c.log[|log0|].op)
    ensures Quiet(c, run)
  {
  }

  /** A retried request followed by the wait for the load balancer, which nothing else may still be pending on: an error
      may come after the effect. */
  method Mutate(c: Cloud, ghost cfg: Config, ghost run: Run, lb: Id, ghost why: Purpose, op: Op)
    returns (r: Reply, id: Id)
    requires Ongoing(c, cfg, run) && lb == cfg.lb && MayCall(cfg, run, c.now, why, op) && Transient(op) == {Conflict}
    requires Quiet(c, run)
    modifies c
    ensures Ongoing(c, cfg, run) && c.faults >= old(c.faults) && Fresh(old(c.now), id)
    ensures r == Ok ==> Effect(old(c.now), op, id, c.now) && Tame(cfg, old(c.now), why, op, id, c.now)
    ensures c.now == old(c.now) || (Effect(old(c.now), op, id, c.now) && Tame(cfg, old(c.now), why, op, id, c.now))
    ensures r == Ok ==> Done(c.log) == Done(old(c.log)) + 1
    ensures old(c.log) <= c.log
    ensures exists answer ::
              Retried(why, op, {Conflict}, c.log[|old(c.log)|..], answer) && (answer != Ok ==> r == answer)
    ensures r == Ok ==> c.awaited == |c.log| && Quiet(c, run)
    ensures c.faults == old(c.faults) ==> r == Ok
    ensures r != NotFound
  {
    hide Ongoing, Tame, Effect, MayCall, Transient, Retried;
    r, id := RetryOnConflict(c, cfg, run, why, op);
    OngoingIsValid(c, cfg, run);
    if r == Ok {
      r := c.WaitForActive(lb);
    }
  }
}

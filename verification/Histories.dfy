/** The requests the controller really makes, as a history: every run is one, and so is a whole life of runs. */
module Histories {
  import opened Basics
  import opened CloudState
  import opened Service
  import opened Plan
  import opened Steps
  import opened Interleave
  import opened Life
  import opened Safety
  import opened Stability
  import Isolation
  import Solo

  function ActOf(cfg: Config, verb: Verb, c: Call): Act {
    Act(cfg, verb, c.why, c.op, c.id, c.done)
  }

  /** The requests of one run. */
  function ActsOf(cfg: Config, verb: Verb, calls: seq<Call>): seq<Act> {
    seq(|calls|, i requires 0 <= i < |calls| => ActOf(cfg, verb, calls[i]))
  }

  lemma CallIsAct(cfg: Config, verb: Verb, c: Call)
    requires WellFormed(cfg.name, c.pre) && LegalCall(cfg, verb, c)
    ensures Allowed(c.pre, ActOf(cfg, verb, c)) && NewId(c.pre, ActOf(cfg, verb, c))
    ensures Verdict(c.pre, c.op) == Ok && After(c.pre, ActOf(cfg, verb, c)) == c.post
  {
    JustifiedIsAccepted(cfg, verb, c.pre, c.why, c.op);
  }

  lemma HistoryOneMore(s: State, before: seq<Act>, a: Act)
    ensures Play(s, before + [a]) == After(Play(s, before), a)
    ensures Legal(s, before + [a]) <==>
            Legal(s, before) && Allowed(Play(s, before), a) && Verdict(Play(s, before), a.op) == Ok
    ensures NewIds(s, before + [a]) <==> NewIds(s, before) && NewId(Play(s, before), a)
  {
    assert (before + [a])[..|before|] == before;
  }

  /** Every run of an entry point is a legal history that leads to the same state. */
  lemma {:induction false} RunIsHistory(cfg: Config, verb: Verb, start: State, calls: seq<Call>, now: State)
    requires WellFormed(cfg.name, start) && LegalRun(cfg, verb, start, calls, now)
    ensures Legal(start, ActsOf(cfg, verb, calls)) && NewIds(start, ActsOf(cfg, verb, calls))
    ensures Play(start, ActsOf(cfg, verb, calls)) == now
    decreases |calls|
  {
    hide WellFormed, LegalCall, Allowed, NewId, After;
    if calls != [] {
      var n := |calls| - 1;
      RunIsHistory(cfg, verb, start, calls[..n], calls[n].pre);
      RunKeepsWellFormed(cfg, verb, start, calls[..n], calls[n].pre);
      CallIsAct(cfg, verb, calls[n]);
      HistoryOneMore(start, ActsOf(cfg, verb, calls[..n]), ActOf(cfg, verb, calls[n]));
      assert ActsOf(cfg, verb, calls) == ActsOf(cfg, verb, calls[..n]) + [ActOf(cfg, verb, calls[n])];
    }
  }

  lemma {:induction false} HistoriesChain(s: State, before: seq<Act>, after: seq<Act>)
    ensures Play(s, before + after) == Play(Play(s, before), after)
    ensures Legal(s, before + after) <==> Legal(s, before) && Legal(Play(s, before), after)
    ensures NewIds(s, before + after) <==> NewIds(s, before) && NewIds(Play(s, before), after)
    decreases |after|
  {
    hide Allowed, NewId, After;
    if after == [] {
      assert before + after == before;
    } else {
      var n := |after| - 1;
      HistoriesChain(s, before, after[..n]);
      HistoryOneMore(s, before + after[..n], after[n]);
      HistoryOneMore(Play(s, before), after[..n], after[n]);
      assert before + after == before + after[..n] + [after[n]];
      assert after == after[..n] + [after[n]];
    }
  }

  // ----- lives -----

  /** The requests on listeners of one phase. */
  function ActsIn(ph: Phase): seq<Act> { if ph.Phase? then ActsOf(ph.cfg, ph.verb, ph.calls) else [] }

  /** The requests on listeners of a whole life. */
  function ActsOfLife(life: seq<Phase>): seq<Act> {
    if life == [] then [] else ActsOfLife(life[..|life| - 1]) + ActsIn(life[|life| - 1])
  }

  lemma UpkeepHangs(cfg: Config, s: State, p: Port, l: Id, op: Op)
    ensures Upkeep(cfg, Hanging(s), p, l, op) <==> Upkeep(cfg, s, p, l, op)
  {
  }

  lemma RemovalHangs(base: string, s: State, l: Id, op: Op)
    ensures Removal(base, Hanging(s), l, op) <==> Removal(base, s, l, op)
  {
    assert op.DeleteGroup? ==> (Bound(Hanging(s), op.group) <==> Bound(s, op.group));
  }

  lemma JustifiedHangs(cfg: Config, verb: Verb, s: State, why: Purpose, op: Op)
    ensures Justified(cfg, verb, Hanging(s), why, op) <==> Justified(cfg, verb, s, why, op)
  {
    hide Upkeep, Removal;
    match why {
      case ForPort(p, l) => UpkeepHangs(cfg, s, p, l, op);
      case Removing(l) => RemovalHangs(cfg.name, s, l, op);
      case WholeBalancer =>
    }
  }

  lemma ApplyHangs(s: State, op: Op, id: Id)
    requires !op.CreateBalancer? && !op.DeleteBalancer? && !op.DeleteEip?
    ensures Verdict(Hanging(s), op) == Verdict(s, op)
    ensures Verdict(s, op) == Ok ==> Apply(Hanging(s), op, id) == Hanging(Apply(s, op, id))
  {
    assert op.DeleteGroup? ==> (Bound(Hanging(s), op.group) <==> Bound(s, op.group));
  }

  lemma FreshHangs(s: State, id: Id)
    requires Fresh(s, id)
    ensures Fresh(Hanging(s), id)
  {
    assert Bound(Hanging(s), id) <==> Bound(s, id);
  }

  lemma WellFormedHangs(base: string, s: State)
    ensures WellFormed(base, Hanging(s)) <==> WellFormed(base, s)
  {
  }

  function HangingCall(c: Call): Call { c.(pre := Hanging(c.pre), post := Hanging(c.post)) }

  function HangingCalls(calls: seq<Call>): seq<Call> {
    seq(|calls|, i requires 0 <= i < |calls| => HangingCall(calls[i]))
  }

  lemma JustifiedOp(cfg: Config, verb: Verb, s: State, why: Purpose, op: Op)
    requires Justified(cfg, verb, s, why, op)
    ensures !op.CreateBalancer? && !op.DeleteBalancer? && !op.DeleteEip?
  {
  }

  lemma CallHangs(cfg: Config, verb: Verb, c: Call)
    requires LegalCall(cfg, verb, c)
    ensures LegalCall(cfg, verb, HangingCall(c))
  {
    hide Justified, Hanging, Verdict, Apply, Fresh;
    JustifiedOp(cfg, verb, c.pre, c.why, c.op);
    JustifiedHangs(cfg, verb, c.pre, c.why, c.op);
    ApplyHangs(c.pre, c.op, c.id);
    if c.done { FreshHangs(c.pre, c.id); }
  }

  /** What hangs off the load balancers goes through the same run, whatever load balancers there are. */
  lemma {:induction false} RunHangs(cfg: Config, verb: Verb, start: State, calls: seq<Call>, now: State)
    requires LegalRun(cfg, verb, start, calls, now)
    ensures LegalRun(cfg, verb, Hanging(start), HangingCalls(calls), Hanging(now))
    ensures ActsOf(cfg, verb, HangingCalls(calls)) == ActsOf(cfg, verb, calls)
    decreases |calls|
  {
    hide LegalCall;
    if calls != [] {
      var n := |calls| - 1;
      RunHangs(cfg, verb, start, calls[..n], calls[n].pre);
      CallHangs(cfg, verb, calls[n]);
      assert HangingCalls(calls)[..n] == HangingCalls(calls[..n]);
      forall i | 0 <= i <= n
        ensures LegalCall(cfg, verb, HangingCalls(calls)[i])
        ensures Freed(Hanging(start), HangingCalls(calls)[i].why, HangingCalls(calls)[i].op)
      {
        if i < n { assert HangingCalls(calls)[i] == HangingCalls(calls[..n])[i]; }
      }
    }
  }

  /** A whole life is one legal history of what hangs off the load balancers, while those come and go. */
  lemma {:induction false} LifeIsHistory(life: seq<Phase>, base: string, s: State, t: State)
    requires Consecutive(life, s, t) && (forall i :: 0 <= i < |life| ==> Traced(life[i], base))
    requires WellFormed(base, s)
    ensures Legal(Hanging(s), ActsOfLife(life)) && NewIds(Hanging(s), ActsOfLife(life))
    ensures Play(Hanging(s), ActsOfLife(life)) == Hanging(t) && WellFormed(base, t)
    decreases |life|
  {
    hide WellFormed, Traced, Hanging, ActsIn, Legal, NewIds, Play;
    if life == [] {
      EmptyHistory(Hanging(s));
    } else {
      var n := |life| - 1;
      LifeIsHistory(life[..n], base, s, life[n].start);
      PhaseIsHistory(life[n], base);
      HistoriesChain(Hanging(s), ActsOfLife(life[..n]), ActsIn(life[n]));
    }
  }

  lemma EmptyHistory(s: State)
    ensures Legal(s, []) && NewIds(s, []) && Play(s, []) == s
  {
  }

  lemma PhaseIsHistory(ph: Phase, base: string)
    requires Traced(ph, base) && WellFormed(base, ph.start)
    ensures Legal(Hanging(ph.start), ActsIn(ph)) && NewIds(Hanging(ph.start), ActsIn(ph))
    ensures Play(Hanging(ph.start), ActsIn(ph)) == Hanging(ph.end) && WellFormed(base, ph.end)
  {
    hide WellFormed, LegalRun, Hanging;
    WellFormedHangs(base, ph.start);
    WellFormedHangs(base, ph.end);
    if ph.Phase? {
      RunHangs(ph.cfg, ph.verb, ph.start, ph.calls, ph.end);
      RunIsHistory(ph.cfg, ph.verb, Hanging(ph.start), HangingCalls(ph.calls), Hanging(ph.end));
      RunKeepsWellFormed(ph.cfg, ph.verb, ph.start, ph.calls, ph.end);
    }
  }

  /** As long as the load balancers stay, a life is a legal history of the whole cloud. */
  lemma {:induction false} SteadyLifeIsHistory(life: seq<Phase>, base: string, s: State, t: State)
    requires Consecutive(life, s, t) && (forall i :: 0 <= i < |life| ==> life[i].Phase? && Traced(life[i], base))
    requires WellFormed(base, s)
    ensures Legal(s, ActsOfLife(life)) && NewIds(s, ActsOfLife(life)) && Play(s, ActsOfLife(life)) == t
    ensures WellFormed(base, t)
    decreases |life|
  {
    hide WellFormed, LegalRun;
    if life != [] {
      var n := |life| - 1;
      var ph := life[n];
      SteadyLifeIsHistory(life[..n], base, s, ph.start);
      RunIsHistory(ph.cfg, ph.verb, ph.start, ph.calls, ph.end);
      RunKeepsWellFormed(ph.cfg, ph.verb, ph.start, ph.calls, ph.end);
      HistoriesChain(s, ActsOfLife(life[..n]), ActsOf(ph.cfg, ph.verb, ph.calls));
    }
  }

  /** The Service made its requests in this life, alone on its own slice of the cloud. */
  ghost predicate LivesAlone(x: Party, s: State, acts: seq<Act>, life: seq<Phase>, end: State) {
    && WellFormed(x.name, Solo.Mine(x.name, s))
    && Consecutive(life, Solo.Mine(x.name, s), end)
    && (forall i :: 0 <= i < |life| ==> Lawful(life[i], x.name, Guest(x.lb, x.keys)))
    && Of(x.name, acts) == ActsOfLife(life)
  }

  /** Services whose calls run alone can have their requests interleaved in any order: every request stays justified and
      accepted, and every Service ends with exactly the view it has when its calls run alone. */
  lemma LivesInterleave(parties: set<Party>, s: State, acts: seq<Act>, lives: map<Party, seq<Phase>>,
                        ends: map<Party, State>)
    requires Neighbours(parties) && AllDomains(parties, s) && AllPlay(parties, acts) && NewIds(s, acts)
    requires forall x :: x in parties ==> x in lives && x in ends && LivesAlone(x, s, acts, lives[x], ends[x])
    ensures Legal(s, acts)
    ensures forall x :: x in parties ==> Solo.Mine(x.name, Play(s, acts)) == ends[x]
  {
    hide WellFormed, Lawful, Neighbours, AllDomains, AllPlay, NewIds, Isolation.Slice;
    forall x | x in parties
      ensures Legal(Solo.Mine(x.name, s), Of(x.name, acts))
      ensures Play(Solo.Mine(x.name, s), Of(x.name, acts)) == ends[x]
    {
      var life := lives[x];
      forall i | 0 <= i < |life| ensures life[i].Phase? && Traced(life[i], x.name) {
        GuestRunsOnly(life[i], x.name, x.lb, x.keys);
      }
      SteadyLifeIsHistory(life, x.name, Solo.Mine(x.name, s), ends[x]);
    }
    Interleaving(parties, s, acts);
  }

  lemma GuestRunsOnly(ph: Phase, base: string, lb: Id, keys: set<Key>)
    requires Lawful(ph, base, Guest(lb, keys))
    ensures ph.Phase? && Traced(ph, base)
  {
  }

  /** The configuration of every request of a life is the configuration of one of its runs. */
  lemma {:induction false} ActsHavePhases(life: seq<Phase>, k: nat) returns (i: nat)
    requires k < |ActsOfLife(life)|
    ensures i < |life| && life[i].Phase? && ActsOfLife(life)[k].cfg == life[i].cfg
    decreases |life|
  {
    var n := |life| - 1;
    if k < |ActsOfLife(life[..n])| {
      i := ActsHavePhases(life[..n], k);
    } else {
      i := n;
    }
  }

  // ----- the invariants, for the requests the controller makes -----

  /** Whitelist before backends, in every state of every run. */
  lemma RunIsSheltered(cfg: Config, verb: Verb, start: State, calls: seq<Call>, now: State)
    requires WellFormed(cfg.name, start) && Sound(cfg) && cfg.Whitelist() != []
             && LegalRun(cfg, verb, start, calls, now)
    ensures Sheltered(start, now, cfg.Whitelist())
  {
    hide WellFormed, LegalRun, Sheltered, Sound;
    RunIsHistory(cfg, verb, start, calls, now);
    WhitelistBeforeBackends(start, ActsOf(cfg, verb, calls), cfg.Whitelist());
  }

  /** Monitors keep the shape of their type in every state of every run. */
  lemma RunKeepsMonitorsProper(cfg: Config, verb: Verb, start: State, calls: seq<Call>, now: State)
    requires WellFormed(cfg.name, start) && Sound(cfg) && RootedPath(cfg) && LegalRun(cfg, verb, start, calls, now)
    requires ProbesProper(cfg.name, start)
    ensures ProbesProper(cfg.name, now)
  {
    hide WellFormed, LegalRun, ProbesProper, Sound, RootedPath;
    RunIsHistory(cfg, verb, start, calls, now);
    MonitorsStayProper(cfg.name, start, ActsOf(cfg, verb, calls));
  }

  /** The Service of every run has these source ranges. */
  predicate SameRanges(life: seq<Phase>, ranges: seq<string>) {
    forall i :: 0 <= i < |life| && life[i].Phase? ==> life[i].cfg.Whitelist() == ranges
  }

  /** Every phase is a run of the Service `base`, for an order that is sound, or an errand. */
  ghost predicate TracedLife(life: seq<Phase>, base: string) {
    forall i :: 0 <= i < |life| ==> Traced(life[i], base) && (life[i].Phase? ==> Sound(life[i].cfg))
  }

  lemma ShelteredHangs(s: State, t: State, ranges: seq<string>)
    ensures Sheltered(Hanging(s), Hanging(t), ranges) <==> Sheltered(s, t, ranges)
  {
  }

  lemma ProbesHang(base: string, s: State)
    ensures ProbesProper(base, Hanging(s)) <==> ProbesProper(base, s)
  {
  }

  /** Whitelist before backends, over a whole life with fixed source ranges. */
  lemma LifeIsSheltered(life: seq<Phase>, base: string, s: State, t: State, ranges: seq<string>)
    requires Consecutive(life, s, t) && TracedLife(life, base) && WellFormed(base, s)
    requires ranges != [] && SameRanges(life, ranges)
    ensures Sheltered(s, t, ranges)
  {
    hide WellFormed, Traced, Sheltered, Hanging, Sound;
    var acts := ActsOfLife(life);
    LifeIsHistory(life, base, s, t);
    forall k | 0 <= k < |acts| ensures Sound(acts[k].cfg) && acts[k].cfg.Whitelist() == ranges {
      var i := ActsHavePhases(life, k);
    }
    WhitelistBeforeBackends(Hanging(s), acts, ranges);
    ShelteredHangs(s, t, ranges);
  }

  /** Monitors keep the shape of their type over a whole life. */
  lemma LifeKeepsMonitorsProper(life: seq<Phase>, base: string, s: State, t: State)
    requires Consecutive(life, s, t) && TracedLife(life, base) && WellFormed(base, s)
    requires forall i :: 0 <= i < |life| && life[i].Phase? ==> RootedPath(life[i].cfg)
    requires ProbesProper(base, s)
    ensures ProbesProper(base, t)
  {
    hide WellFormed, Traced, ProbesProper, RootedPath, Hanging, Sound;
    var acts := ActsOfLife(life);
    LifeIsHistory(life, base, s, t);
    forall k | 0 <= k < |acts| ensures Sound(acts[k].cfg) && RootedPath(acts[k].cfg) {
      var i := ActsHavePhases(life, k);
    }
    ProbesHang(base, s);
    ProbesHang(base, t);
    MonitorsStayProper(base, Hanging(s), acts);
  }

  /** IP groups of others are never changed by a run, adopted listeners or not. */
  lemma RunKeepsForeignGroups(cfg: Config, verb: Verb, start: State, calls: seq<Call>, now: State, g: Id)
    requires WellFormed(cfg.name, start) && Sound(cfg) && LegalRun(cfg, verb, start, calls, now)
    requires g in start.groups && !Own(cfg.name, start.groups[g].name)
    ensures g in now.groups && now.groups[g] == start.groups[g]
  {
    hide WellFormed, LegalRun, Sound;
    RunIsHistory(cfg, verb, start, calls, now);
    ForeignGroupsStay(cfg.name, start, ActsOf(cfg, verb, calls), g);
  }
}

/** Duplicate members: what one complete pass, and repeated passes, do to how often a key occurs. */
module Multiplicity {
  import opened CloudState
  import opened Members
  import opened Service

  function IdsOf(ms: map<Id, Member>, k: MemberKey): set<Id> {
    set id | id in ms && ms[id].key == k
  }

  /** How many members of the pool have key `k`. */
  function Mult(ms: map<Id, Member>, k: MemberKey): nat { |IdsOf(ms, k)| }

  function AtLeastOne(m: nat): nat { if m == 0 then 1 else m }

  function Less(m: nat, n: nat): nat { if m <= n then 0 else m - n }

  lemma NoneIffZero(ms: map<Id, Member>, k: MemberKey)
    ensures Mult(ms, k) == 0 <==> k !in KeysOf(ms)
  {
    if k in KeysOf(ms) {
      var id :| id in ms && ms[id].key == k;
      assert id in IdsOf(ms, k);
    }
  }

  lemma WantedPass(ms: map<Id, Member>, wanted: set<MemberKey>, added: map<Id, Member>, gone: set<Id>,
                   after: map<Id, Member>, k: MemberKey)
    requires Synced(ms, wanted, added, gone, after) && k in wanted
    ensures Mult(after, k) == AtLeastOne(Mult(ms, k))
  {
    NoneIffZero(ms, k);
    forall x | x in gone ensures ms[x].key != k { GoneIsStale(ms, wanted, added, gone, after, x); }
    if k in KeysOf(ms) {
      forall x | x in added ensures added[x].key != k { assert added[x].key in KeysOf(added); }
      assert IdsOf(after, k) == IdsOf(ms, k);
    } else {
      assert k in KeysOf(added);
      var x :| x in added && added[x].key == k;
      assert forall y :: y in ms ==> ms[y].key != k by {
        forall y | y in ms ensures ms[y].key in KeysOf(ms) { }
      }
      assert IdsOf(after, k) == {x};
    }
  }

  lemma StalePass(ms: map<Id, Member>, wanted: set<MemberKey>, added: map<Id, Member>, gone: set<Id>,
                  after: map<Id, Member>, k: MemberKey)
    requires Synced(ms, wanted, added, gone, after) && k !in wanted
    ensures Mult(after, k) == Less(Mult(ms, k), 1)
  {
    NoneIffZero(ms, k);
    forall x | x in added ensures added[x].key != k { AddedIsWanted(ms, wanted, added, gone, after, x); }
    if k in KeysOf(ms) {
      assert k in KeyOfAny(ms, gone);
      var x :| x in gone && ms[x].key == k;
      assert forall y :: y in gone && y != x ==> ms[y].key != k;
      assert IdsOf(after, k) == IdsOf(ms, k) - {x};
    } else {
      assert forall y :: y in ms ==> ms[y].key != k by {
        forall y | y in ms ensures ms[y].key in KeysOf(ms) { }
      }
      assert IdsOf(after, k) == {};
    }
  }

  /** One complete pass leads from `before` to `after`. */
  ghost predicate Pass(wanted: set<MemberKey>, before: map<Id, Member>, after: map<Id, Member>) {
    exists added, gone :: Synced(before, wanted, added, gone, after)
  }

  lemma PassEffect(wanted: set<MemberKey>, before: map<Id, Member>, after: map<Id, Member>, k: MemberKey)
    requires Pass(wanted, before, after)
    ensures Mult(after, k) == if k in wanted then AtLeastOne(Mult(before, k)) else Less(Mult(before, k), 1)
  {
    hide Synced, Mult;
    var added, gone :| Synced(before, wanted, added, gone, after);
    if k in wanted {
      WantedPass(before, wanted, added, gone, after, k);
    } else {
      StalePass(before, wanted, added, gone, after, k);
    }
  }

  /** The members between complete passes with the same wanted keys, one pass after the other. */
  ghost predicate Passes(wanted: set<MemberKey>, stages: seq<map<Id, Member>>) {
    && stages != []
    && forall i, j :: 0 <= i < j < |stages| && j == i + 1 ==> Pass(wanted, stages[i], stages[j])
  }

  /** Without assuming unique keys: after `n` complete passes a wanted key occurs as often as before, but at least once
      when `n > 0`, and a stale key `n` times less. */
  lemma {:induction false} RepeatedPasses(wanted: set<MemberKey>, stages: seq<map<Id, Member>>, k: MemberKey)
    requires Passes(wanted, stages)
    ensures var n, first, last := |stages| - 1, Mult(stages[0], k), Mult(stages[|stages| - 1], k);
            last == if k !in wanted then Less(first, n) else if n == 0 then first else AtLeastOne(first)
    decreases |stages|
  {
    hide Pass, Mult;
    var n := |stages| - 1;
    if n > 0 {
      RepeatedPasses(wanted, stages[..n], k);
      PassEffect(wanted, stages[n - 1], stages[n], k);
    }
  }

  /** As many passes as the largest multiplicity of a stale key are exactly enough to clear all stale members. */
  lemma CleanIffEnoughPasses(wanted: set<MemberKey>, stages: seq<map<Id, Member>>)
    requires Passes(wanted, stages) && |stages| > 1
    ensures KeysOf(stages[|stages| - 1]) == wanted <==>
            forall k :: k in KeysOf(stages[0]) && k !in wanted ==> Mult(stages[0], k) < |stages|
  {
    var first, last := stages[0], stages[|stages| - 1];
    forall k ensures k in KeysOf(last) <==> k in wanted || Mult(first, k) >= |stages| {
      RepeatedPasses(wanted, stages, k);
      NoneIffZero(last, k);
    }
    forall k ensures k !in KeysOf(first) ==> Mult(first, k) == 0 {
      NoneIffZero(first, k);
    }
    if forall k :: k in KeysOf(first) && k !in wanted ==> Mult(first, k) < |stages| {
      assert forall k :: k in KeysOf(last) <==> k in wanted;
    }
  }
}

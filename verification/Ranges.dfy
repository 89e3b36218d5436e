/** Source ranges: trimming, and the equality test that decides whether an IP group is updated. */
module Ranges {
  import opened Basics

  /** Unicode white space. */
  predicate IsSpace(c: char) {
    var n := c as int;
    || c == ' ' || 0x9 <= n <= 0xD || n == 0x85 || n == 0xA0 || n == 0x1680 || 0x2000 <= n <= 0x200A || n == 0x2028
    || n == 0x2029 || n == 0x202F || n == 0x205F || n == 0x3000
  }

  function TrimLeft(s: string): string {
    if s != "" && IsSpace(s[0]) then TrimLeft(s[1..]) else s
  }

  function TrimRight(s: string): string {
    if s != "" && IsSpace(s[|s| - 1]) then TrimRight(s[..|s| - 1]) else s
  }

  function TrimSpace(s: string): string { TrimRight(TrimLeft(s)) }

  /** The ranges that remain once blanks are dropped, in order. */
  function Normalized(ranges: seq<string>): seq<string> {
    if ranges == [] then []
    else
      var r := TrimSpace(ranges[|ranges| - 1]);
      Normalized(ranges[..|ranges| - 1]) + if r == "" then [] else [r]
  }

  method NormalizeRanges(ranges: seq<string>) returns (out: seq<string>)
    ensures out == Normalized(ranges)
  {
    out := [];
    for i := 0 to |ranges|
      invariant out == Normalized(ranges[..i])
    {
      var r := TrimSpace(ranges[i]);
      assert ranges[..i + 1][..i] == ranges[..i];
      if r != "" {
        out := out + [r];
      }
    }
    assert ranges[..|ranges|] == ranges;
  }

  predicate Blank(s: string) { forall c :: c in s ==> IsSpace(c) }

  /** Not empty and without blanks at its ends. */
  predicate Trimmed(s: string) { s != "" && !IsSpace(s[0]) && !IsSpace(s[|s| - 1]) }

  lemma {:induction false} TrimLeftCuts(s: string) returns (a: string)
    ensures Blank(a) && s == a + TrimLeft(s) && (TrimLeft(s) != "" ==> !IsSpace(TrimLeft(s)[0]))
    decreases |s|
  {
    a := "";
    if s != "" && IsSpace(s[0]) {
      a := TrimLeftCuts(s[1..]);
      a := [s[0]] + a;
      assert s == [s[0]] + s[1..];
    }
  }

  lemma {:induction false} TrimRightCuts(s: string) returns (b: string)
    ensures Blank(b) && s == TrimRight(s) + b && (TrimRight(s) != "" ==> !IsSpace(TrimRight(s)[|TrimRight(s)| - 1]))
    decreases |s|
  {
    b := "";
    if s != "" && IsSpace(s[|s| - 1]) {
      b := TrimRightCuts(s[..|s| - 1]);
      b := b + [s[|s| - 1]];
    }
  }

  /** Trimming cuts blanks off both ends and leaves nothing more to cut. */
  lemma TrimSpaceCuts(s: string) returns (a: string, b: string)
    ensures Blank(a) && Blank(b) && s == a + TrimSpace(s) + b
    ensures TrimSpace(s) == "" || Trimmed(TrimSpace(s))
  {
    a := TrimLeftCuts(s);
    b := TrimRightCuts(TrimLeft(s));
    assert TrimSpace(s) != "" ==> TrimSpace(s)[0] == TrimLeft(s)[0];
  }

  /** White space by code point. */
  predicate White(c: char) {
    c as int in {9, 10, 11, 12, 13, 32, 133, 160, 5760, 8192, 8193, 8194, 8195, 8196, 8197, 8198, 8199, 8200, 8201,
                 8202, 8232, 8233, 8239, 8287, 12288}
  }

  lemma {:induction false} TrimLeftSkips(a: string, r: string)
    requires (forall c :: c in a ==> White(c)) && (r != "" ==> !White(r[0]))
    ensures TrimLeft(a + r) == r
    decreases |a|
  {
    if a == "" {
      assert a + r == r;
    } else {
      assert a[0] in a && (a + r)[1..] == a[1..] + r;
      TrimLeftSkips(a[1..], r);
    }
  }

  lemma {:induction false} TrimRightSkips(r: string, b: string)
    requires (forall c :: c in b ==> White(c)) && (r != "" ==> !White(r[|r| - 1]))
    ensures TrimRight(r + b) == r
    decreases |b|
  {
    if b == "" {
      assert r + b == r;
    } else {
      var n := |b| - 1;
      assert b[n] in b && (r + b)[..|r| + n] == r + b[..n];
      TrimRightSkips(r, b[..n]);
    }
  }

  /** Exactly the white space around a text is trimmed away. */
  lemma TrimSpaceSkips(a: string, r: string, b: string)
    requires forall c :: c in a + b ==> White(c)
    requires r != "" ==> !White(r[0]) && !White(r[|r| - 1])
    ensures TrimSpace(a + r + b) == r
  {
    forall c | c in a ensures White(c) { assert c in a + b; }
    forall c | c in b ensures White(c) { assert c in a + b; }
    if r == "" {
      TrimLeftSkips(a + b, "");
      assert a + r + b == a + b + "";
    } else {
      assert a + r + b == a + (r + b);
      TrimLeftSkips(a, r + b);
      TrimRightSkips(r, b);
    }
  }

  /** The positions `at` of the entries that are not blank, in order. */
  ghost predicate Filled(ranges: seq<string>, at: seq<nat>) {
    && (forall j, k :: 0 <= j < k < |at| ==> at[j] < at[k])
    && (forall k :: 0 <= k < |at| ==> at[k] < |ranges|)
    && (forall i :: 0 <= i < |ranges| ==> (i in at <==> TrimSpace(ranges[i]) != ""))
  }

  lemma FilledBlank(before: seq<string>, last: string, at: seq<nat>)
    requires Filled(before, at) && TrimSpace(last) == ""
    ensures Filled(before + [last], at)
  {
    hide TrimSpace;
  }

  lemma FilledEntry(before: seq<string>, last: string, at: seq<nat>)
    requires Filled(before, at) && TrimSpace(last) != ""
    ensures Filled(before + [last], at + [|before|])
  {
    hide TrimSpace;
    var ranges, more := before + [last], at + [|before|];
    assert more[|at|] == |before|;
    forall i | 0 <= i < |before| ensures i in more <==> TrimSpace(ranges[i]) != "" {
      assert ranges[i] == before[i];
    }
  }

  /** Normalizing keeps exactly the entries that are not blank, in order and with repetitions, each trimmed. */
  lemma {:induction false} NormalizedInOrder(ranges: seq<string>) returns (at: seq<nat>)
    ensures Filled(ranges, at) && |Normalized(ranges)| == |at|
    ensures forall k :: 0 <= k < |at| ==>
            Normalized(ranges)[k] == TrimSpace(ranges[at[k]]) && Trimmed(Normalized(ranges)[k])
    decreases |ranges|
  {
    hide Trimmed, TrimSpace, Filled;
    at := [];
    if ranges == [] {
      assert Filled(ranges, at) by { NothingFilled(); }
    } else {
      var n := |ranges| - 1;
      var before, last := ranges[..n], ranges[n];
      at := NormalizedInOrder(before);
      var a, b := TrimSpaceCuts(last);
      assert ranges == before + [last];
      InBefore(before, at);
      if TrimSpace(last) == "" {
        FilledBlank(before, last, at);
      } else {
        FilledEntry(before, last, at);
        at := at + [n];
      }
    }
  }

  lemma NothingFilled()
    ensures Filled([], [])
  {
  }

  lemma InBefore(before: seq<string>, at: seq<nat>)
    requires Filled(before, at)
    ensures forall k :: 0 <= k < |at| ==> at[k] < |before|
  {
  }

  /** Entries that are trimmed already stay as they are, in order. */
  lemma {:induction false} TrimmedStays(ranges: seq<string>)
    requires forall r :: r in ranges ==> Trimmed(r)
    ensures Normalized(ranges) == ranges
    decreases |ranges|
  {
    if ranges != [] {
      var n := |ranges| - 1;
      TrimmedStays(ranges[..n]);
      assert Trimmed(ranges[n]);
      assert ranges == ranges[..n] + [ranges[n]];
    }
  }

  /** What the update decision tests: equal lengths, and every wanted range present. */
  predicate SameLengthCover(current: seq<string>, ranges: seq<string>) {
    |current| == |ranges| && forall r :: r in ranges ==> r in current
  }

  method IpListEqual(current: seq<string>, ranges: seq<string>) returns (equal: bool)
    ensures equal <==> SameLengthCover(current, ranges)
  {
    if |current| != |ranges| {
      return false;
    }
    var have: map<string, bool> := map[];
    for i := 0 to |current|
      invariant forall ip :: ip in have <==> ip in current[..i]
      invariant forall ip :: ip in have ==> have[ip]
    {
      have := have[current[i] := true];
    }
    assert current[..|current|] == current;
    for i := 0 to |ranges|
      invariant forall r :: r in ranges[..i] ==> r in current
    {
      if !(ranges[i] in have && have[ranges[i]]) {
        return false;
      }
    }
    assert ranges[..|ranges|] == ranges;
    return true;
  }

  function Without<T(==)>(s: seq<T>, i: nat): seq<T>
    requires i < |s|
  {
    s[..i] + s[i + 1..]
  }

  /** Pigeonhole: a cover of distinct ranges by a list of the same length is a permutation of them. */
  lemma {:induction false} CoverOfDistinct(current: seq<string>, ranges: seq<string>)
    requires Distinct(ranges)
    requires |current| <= |ranges|
    requires forall r :: r in ranges ==> r in current
    ensures multiset(current) == multiset(ranges)
    decreases |ranges|
  {
    if ranges == [] {
    } else {
      var r, rest := ranges[0], ranges[1..];
      assert ranges == [r] + rest;
      assert r in ranges;
      var i :| 0 <= i < |current| && current[i] == r;
      var left := Without(current, i);
      assert current == current[..i] + [r] + current[i + 1..];
      forall x | x in rest ensures x in left {
        var k :| 0 <= k < |rest| && rest[k] == x;
        assert ranges[k + 1] == x && x != r;
        assert x in ranges;
        var j :| 0 <= j < |current| && current[j] == x;
        if j < i { assert current[..i][j] == x; } else { assert current[i + 1..][j - i - 1] == x; }
      }
      CoverOfDistinct(left, rest);
      assert multiset(current) == multiset(left) + multiset{r};
    }
  }

  /** On distinct ranges the test accepts exactly the permutations of them. */
  lemma EqualIffPermutation(current: seq<string>, ranges: seq<string>)
    requires Distinct(ranges)
    ensures SameLengthCover(current, ranges) <==> multiset(current) == multiset(ranges)
  {
    if SameLengthCover(current, ranges) {
      CoverOfDistinct(current, ranges);
    }
    if multiset(current) == multiset(ranges) {
      assert |current| == |multiset(current)| == |multiset(ranges)| == |ranges|;
      forall r | r in ranges ensures r in current {
        assert r in multiset(ranges);
      }
    }
  }

  function Longest(s: seq<string>): (n: nat)
    ensures forall x :: x in s ==> |x| <= n
  {
    if s == [] then 0
    else
      var n := Longest(s[1..]);
      assert forall x :: x in s ==> x == s[0] || x in s[1..];
      if |s[0]| > n then |s[0]| else n
  }

  /** A duplicate hides one foreign address: some list is accepted that holds another address. */
  lemma DuplicateAdmitsForeign(ranges: seq<string>, i: nat, j: nat) returns (current: seq<string>)
    requires i < j < |ranges| && ranges[i] == ranges[j]
    ensures SameLengthCover(current, ranges)
    ensures exists ip :: ip in current && ip !in ranges
  {
    var foreign := seq(Longest(ranges) + 1, _ => 'x');
    current := ranges[j := foreign];
    assert foreign !in ranges;
    assert current[j] == foreign;
    forall r | r in ranges ensures r in current {
      var k :| 0 <= k < |ranges| && ranges[k] == r;
      assert current[if k == j then i else k] == r;
    }
  }

  /** The update decision is right for every current list exactly when the ranges are distinct. */
  lemma DecisionRightIffDistinct(ranges: seq<string>)
    ensures Distinct(ranges) <==>
            forall current :: SameLengthCover(current, ranges) ==> multiset(current) == multiset(ranges)
  {
    if Distinct(ranges) {
      forall current | SameLengthCover(current, ranges) ensures multiset(current) == multiset(ranges) {
        EqualIffPermutation(current, ranges);
      }
    } else {
      var i, j :| 0 <= i < j < |ranges| && ranges[i] == ranges[j];
      var current := DuplicateAdmitsForeign(ranges, i, j);
      var ip :| ip in current && ip !in ranges;
      assert ip in multiset(current) && ip !in multiset(ranges);
    }
  }
}

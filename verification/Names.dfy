/** Names and keys as strings: who owns what, and why pairs may stand for the printed keys. */
module Names {
  import opened Basics
  import opened CloudState
  import opened Service
  import opened Isolation

  // ----- printed numbers -----

  predicate IsDigit(c: char) { '0' <= c <= '9' }

  function Value(digits: string): nat {
    if digits == [] then 0
    else
      var last := digits[|digits| - 1];
      10 * Value(digits[..|digits| - 1]) + if IsDigit(last) then (last - '0') as nat else 0
  }

  lemma {:induction false} DigitsRead(n: nat)
    ensures Value(Digits(n)) == n && forall c :: c in Digits(n) ==> IsDigit(c)
    decreases n
  {
    var d := '0' + (n % 10) as char;
    var s := Digits(n);
    assert s[|s| - 1] == d;
    if n >= 10 {
      DigitsRead(n / 10);
      assert s[..|s| - 1] == Digits(n / 10);
    } else {
      assert s[..|s| - 1] == [];
    }
  }

  lemma DecimalChars(n: int)
    ensures forall c :: c in Decimal(n) ==> IsDigit(c) || c == '-'
  {
    DigitsRead(if n < 0 then -n else n);
  }

  lemma DecimalSign(n: int)
    ensures |Decimal(n)| > 0 && (Decimal(n)[0] == '-' <==> n < 0)
  {
    DigitsRead(if n < 0 then -n else n);
    assert Digits(if n < 0 then -n else n)[0] in Digits(if n < 0 then -n else n);
  }

  lemma DecimalInjective(m: int, n: int)
    requires Decimal(m) == Decimal(n)
    ensures m == n
  {
    DecimalSign(m);
    DecimalSign(n);
    DigitsRead(if m < 0 then -m else m);
    DigitsRead(if n < 0 then -n else n);
    if m < 0 {
      assert Decimal(m)[1..] == Digits(-m) && Decimal(n)[1..] == Digits(-n);
    }
  }

  // ----- keys -----

  lemma SeparatorInTail(a: string, x: string, b: string, y: string, sep: char)
    requires a + [sep] + x == b + [sep] + y && |a| < |b|
    ensures sep in x
  {
    assert (b + [sep] + y)[|b|] == sep;
    assert (a + [sep] + x)[|b|] == x[|b| - |a| - 1];
  }

  /** A text whose last part, behind the separator, cannot contain it. */
  lemma LastSeparator(a: string, x: string, b: string, y: string, sep: char)
    requires a + [sep] + x == b + [sep] + y && sep !in x && sep !in y
    ensures a == b && x == y
  {
    if |a| < |b| {
      SeparatorInTail(a, x, b, y, sep);
    } else if |b| < |a| {
      SeparatorInTail(b, y, a, x, sep);
    } else {
      var s := a + [sep] + x;
      assert a == s[..|a|] && b == s[..|a|];
      assert x == s[|a| + 1..] && y == s[|a| + 1..];
    }
  }

  /** "%s/%d" of a listener's or Service port's protocol and port. */
  function PrintedKey(k: Key): string { k.proto + "/" + Decimal(k.port) }

  /** "%s:%d" of a member's address and port. */
  function PrintedMemberKey(k: MemberKey): string { k.address + ":" + Decimal(k.port) }

  lemma ListenerKeyInjective(a: Key, b: Key)
    ensures PrintedKey(a) == PrintedKey(b) <==> a == b
  {
    if PrintedKey(a) == PrintedKey(b) {
      DecimalChars(a.port);
      DecimalChars(b.port);
      LastSeparator(a.proto, Decimal(a.port), b.proto, Decimal(b.port), '/');
      DecimalInjective(a.port, b.port);
    }
  }

  /** Also for addresses with colons of their own, as in IPv6. */
  lemma MemberKeyInjective(a: MemberKey, b: MemberKey)
    ensures PrintedMemberKey(a) == PrintedMemberKey(b) <==> a == b
  {
    if PrintedMemberKey(a) == PrintedMemberKey(b) {
      DecimalChars(a.port);
      DecimalChars(b.port);
      LastSeparator(a.address, Decimal(a.port), b.address, Decimal(b.port), ':');
      DecimalInjective(a.port, b.port);
    }
  }

  // ----- base names -----

  /** The name of a Service's load balancer before it is cut. */
  function FullName(cluster: string, namespace: string, name: string): string {
    "kube_service" + "_" + cluster + "_" + namespace + "_" + name
  }

  function LoadBalancerName(cluster: string, namespace: string, name: string): string {
    Cut(FullName(cluster, namespace, name), MAX_NAME)
  }

  /** The name is "kube_service", cluster, namespace and Service name with underscores between them, as far as it fits
      into 255 characters. */
  lemma LoadBalancerNameSpelled(cluster: string, namespace: string, name: string)
    ensures var full := "kube_service_" + cluster + "_" + namespace + "_" + name;
            var cut := LoadBalancerName(cluster, namespace, name);
            cut <= full && |cut| == if |full| > 255 then 255 else |full|
  {
    assert "kube_service_" == "kube_service" + "_";
  }

  predicate Plain(s: string) { '_' !in s }

  lemma SeparatorInHead(x: string, a: string, y: string, b: string, sep: char)
    requires x + [sep] + a <= y + [sep] + b && |x| != |y|
    ensures if |x| < |y| then sep in y else |y| < |x + [sep] + a| ==> sep in x
  {
    var s, t := x + [sep] + a, y + [sep] + b;
    assert forall i :: 0 <= i < |s| ==> s[i] == t[i];
    if |x| < |y| {
      assert s[|x|] == sep && t[|x|] == y[|x|];
    } else {
      assert t[|y|] == sep && s[|y|] == x[|y|];
    }
  }

  lemma FirstSeparator(x: string, a: string, y: string, b: string, sep: char)
    requires x + [sep] + a <= y + [sep] + b && sep !in x && sep !in y
    ensures x == y && a <= b
  {
    var s, t := x + [sep] + a, y + [sep] + b;
    if |x| != |y| {
      SeparatorInHead(x, a, y, b, sep);
    } else {
      assert x == s[..|x|] && y == t[..|x|];
      assert a == s[|x| + 1..] && b == t[|x| + 1..];
    }
  }

  /** With a trailing underscore no full name is a proper prefix of another one. */
  lemma FullNamesArePrefixFree(cluster: string, ns1: string, n1: string, ns2: string, n2: string)
    requires Plain(ns1) && Plain(n1) && Plain(ns2) && Plain(n2)
    requires FullName(cluster, ns1, n1) + "_" <= FullName(cluster, ns2, n2) + "_"
    ensures ns1 == ns2 && n1 == n2
  {
    var head := "kube_service" + "_" + cluster + "_";
    var r1, r2 := ns1 + ['_'] + (n1 + ['_'] + []), ns2 + ['_'] + (n2 + ['_'] + []);
    assert FullName(cluster, ns1, n1) + "_" == head + r1;
    assert FullName(cluster, ns2, n2) + "_" == head + r2;
    assert r1 <= r2 by {
      assert r1 == (head + r1)[|head|..] && r2 == (head + r2)[|head|..];
    }
    FirstSeparator(ns1, n1 + ['_'] + [], ns2, n2 + ['_'] + [], '_');
    FirstSeparator(n1, [], n2, [], '_');
  }

  /** The load balancer name tells Services apart as long as it is not cut. */
  lemma LoadBalancerNameInjective(cluster: string, ns1: string, n1: string, ns2: string, n2: string)
    requires Plain(ns1) && Plain(n1) && Plain(ns2) && Plain(n2)
    requires |FullName(cluster, ns1, n1)| <= MAX_NAME && |FullName(cluster, ns2, n2)| <= MAX_NAME
    ensures LoadBalancerName(cluster, ns1, n1) == LoadBalancerName(cluster, ns2, n2) <==> ns1 == ns2 && n1 == n2
  {
    if LoadBalancerName(cluster, ns1, n1) == LoadBalancerName(cluster, ns2, n2) {
      FullNamesArePrefixFree(cluster, ns1, n1, ns2, n2);
    }
  }

  // ----- ownership -----

  lemma CommonPrefix(a: string, b: string, s: string)
    requires a <= s && b <= s && |a| <= |b|
    ensures a <= b
  {
  }

  /** No name carries the prefixes of two different Services of one cluster. */
  lemma ServicesApart(cluster: string, ns1: string, n1: string, ns2: string, n2: string)
    requires Plain(ns1) && Plain(n1) && Plain(ns2) && Plain(n2) && (ns1 != ns2 || n1 != n2)
    requires |FullName(cluster, ns1, n1)| < MAX_NAME && |FullName(cluster, ns2, n2)| < MAX_NAME
    ensures Apart(LoadBalancerName(cluster, ns1, n1), LoadBalancerName(cluster, ns2, n2), true)
  {
    var a, b := FullName(cluster, ns1, n1), FullName(cluster, ns2, n2);
    forall name | Own(a, name) ensures !Own(b, name) {
      if Own(b, name) {
        if |a| <= |b| {
          CommonPrefix(a + "_", b + "_", name);
          FullNamesArePrefixFree(cluster, ns1, n1, ns2, n2);
        } else {
          CommonPrefix(b + "_", a + "_", name);
          FullNamesArePrefixFree(cluster, ns2, n2, ns1, n1);
        }
      }
    }
  }

  /** The prefix test recognizes a Service's own resources, cut or not, and nobody else's. */
  lemma OwnershipByName(cluster: string, ns1: string, n1: string, ns2: string, n2: string, key: Key)
    requires Plain(ns1) && Plain(n1) && Plain(ns2) && Plain(n2)
    requires |FullName(cluster, ns1, n1)| < MAX_NAME && |FullName(cluster, ns2, n2)| < MAX_NAME
    ensures Own(LoadBalancerName(cluster, ns1, n1), ResourceName(LoadBalancerName(cluster, ns2, n2), key)) <==>
            ns1 == ns2 && n1 == n2
  {
    OwnershipIff(LoadBalancerName(cluster, ns2, n2), key);
    if ns1 != ns2 || n1 != n2 {
      ServicesApart(cluster, ns1, n1, ns2, n2);
    }
  }
}

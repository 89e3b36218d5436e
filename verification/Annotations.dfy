/** From the cloud configuration and a Service's annotations to its effective settings. */
module Annotations {
  import opened Basics
  import opened Service
  import Ranges
  import Names

  const PREFIX := "loadbalancer.opentelekomcloud.com/"
  const ID := PREFIX + "id"
  const SUBNET_ID := PREFIX + "subnet-id"
  const VPC_ID := PREFIX + "vpc-id"
  const AVAILABILITY_ZONES := PREFIX + "availability-zones"
  const L4_FLAVOR_ID := PREFIX + "l4-flavor-id"
  const LB_ALGORITHM := PREFIX + "lb-algorithm"
  const EIP_IDS := PREFIX + "eip-ids"
  const EIP_BANDWIDTH := PREFIX + "eip-bandwidth"
  const EIP_TYPE := PREFIX + "eip-type"
  const EIP_KEEP := PREFIX + "eip-keep"
  const IDLE_TIMEOUT := PREFIX + "idle-timeout"
  const HEALTH_CHECK_ENABLED := PREFIX + "health-check-enabled"
  const HEALTH_CHECK_DELAY := PREFIX + "health-check-delay"
  const HEALTH_CHECK_TIMEOUT := PREFIX + "health-check-timeout"
  const HEALTH_CHECK_MAX_RETRIES := PREFIX + "health-check-max-retries"
  const HEALTH_CHECK_PROTOCOL := PREFIX + "health-check-protocol"
  const HEALTH_CHECK_URL_PATH := PREFIX + "health-check-url-path"
  const HEALTH_CHECK_HTTP_METHOD := PREFIX + "health-check-http-method"

  const VERBS: set<string> := {"GET", "HEAD", "POST", "PUT", "DELETE", "TRACE", "OPTIONS", "CONNECT", "PATCH"}

  /** The defaults of the cloud configuration. */
  datatype Defaults = Defaults(subnet: string, vpc: string, zones: seq<string>, flavor: string, algorithm: string,
                               probing: bool, delay: int, timeout: int, retries: int)

  /** A missing annotation reads as the empty string. */
  function Text(ann: map<string, string>, key: string): string {
    if key in ann then ann[key] else ""
  }

  // ----- numbers, booleans and lists -----

  const MIN_INT: int := -0x8000_0000_0000_0000
  const MAX_INT: int := 0x7FFF_FFFF_FFFF_FFFF

  predicate AllDigits(s: string) { s != "" && forall c :: c in s ==> Names.IsDigit(c) }

  /** Go's `strconv.Atoi` with a 64-bit int: an optional sign and decimal digits, in range. */
  function Atoi(s: string): Option<int> {
    var signed := s != "" && (s[0] == '-' || s[0] == '+');
    var digits := if signed then s[1..] else s;
    if !AllDigits(digits) then None
    else
      var value: int := Names.Value(digits);
      var n := if signed && s[0] == '-' then -value else value;
      if MIN_INT <= n <= MAX_INT then Some(n) else None
  }

  /** Every printed number in range is read back, and none out of range is accepted. */
  lemma AtoiReadsDecimal(n: int)
    ensures Atoi(Decimal(n)) == if MIN_INT <= n <= MAX_INT then Some(n) else None
  {
    var digits := Digits(if n < 0 then -n else n);
    Names.DigitsRead(if n < 0 then -n else n);
    assert digits[0] in digits;
    assert n < 0 ==> Decimal(n)[1..] == digits;
  }

  function IntOf(ann: map<string, string>, key: string, default_: int): Option<int> {
    if Text(ann, key) == "" then Some(default_) else Atoi(Text(ann, key))
  }

  /** Go's `strconv.ParseBool`. */
  function ParseBool(s: string): Option<bool> {
    if s in {"1", "t", "T", "TRUE", "true", "True"} then Some(true)
    else if s in {"0", "f", "F", "FALSE", "false", "False"} then Some(false)
    else None
  }

  function BoolOf(ann: map<string, string>, key: string, default_: bool): Option<bool> {
    if Text(ann, key) == "" then Some(default_) else ParseBool(Text(ann, key))
  }

  /** Upper case as far as it yields a letter of ASCII; two letters beyond ASCII do. */
  function UpperChar(c: char): char {
    if 'a' <= c <= 'z' then c - 'a' + 'A' else if c as int == 0x131 then 'I' else if c as int == 0x17F then 'S' else c
  }

  function Upper(s: string): string { seq(|s|, i requires 0 <= i < |s| => UpperChar(s[i])) }

  /** The parts of a text between commas. */
  function SplitComma(s: string): (parts: seq<string>)
    ensures parts != []
  {
    if s == "" then [""]
    else
      var before := SplitComma(s[..|s| - 1]);
      var n := |before| - 1;
      if s[|s| - 1] == ',' then before + [""] else before[n := before[n] + [s[|s| - 1]]]
  }

  /** The trimmed parts that are not empty. */
  method SplitTrim(v: string) returns (out: seq<string>)
    ensures out == Ranges.Normalized(SplitComma(v))
  {
    var parts := SplitComma(v);
    out := [];
    for i := 0 to |parts|
      invariant out == Ranges.Normalized(parts[..i])
    {
      assert parts[..i + 1][..i] == parts[..i];
      var p := Ranges.TrimSpace(parts[i]);
      if p != "" {
        out := out + [p];
      }
    }
    assert parts[..|parts|] == parts;
  }

  function Join(parts: seq<string>): string
    requires parts != []
  {
    var n := |parts| - 1;
    if n == 0 then parts[0] else Join(parts[..n]) + "," + parts[n]
  }

  lemma {:induction false} SplitOnePart(p: string)
    requires ',' !in p
    ensures SplitComma(p) == [p]
    decreases |p|
  {
    if p != "" {
      var n := |p| - 1;
      SplitOnePart(p[..n]);
      assert p == p[..n] + [p[n]];
    }
  }

  lemma {:induction false} SplitLastPart(a: string, p: string)
    requires ',' !in p
    ensures SplitComma(a + "," + p) == SplitComma(a) + [p]
    decreases |p|
  {
    var s := a + "," + p;
    if p == "" {
      assert s[..|s| - 1] == a;
    } else {
      var n := |p| - 1;
      SplitLastPart(a, p[..n]);
      assert s[..|s| - 1] == a + "," + p[..n];
      assert p == p[..n] + [p[n]];
    }
  }

  lemma {:induction false} SplitJoined(parts: seq<string>)
    requires parts != [] && forall p :: p in parts ==> ',' !in p
    ensures SplitComma(Join(parts)) == parts
    decreases |parts|
  {
    var n := |parts| - 1;
    if n == 0 {
      SplitOnePart(parts[0]);
    } else {
      SplitJoined(parts[..n]);
      SplitLastPart(Join(parts[..n]), parts[n]);
      assert parts == parts[..n] + [parts[n]];
    }
  }

  /** A comma-separated list of proper items is read back exactly. */
  lemma SplitTrimReadsJoin(parts: seq<string>)
    requires parts != [] && forall p :: p in parts ==> Ranges.Trimmed(p) && ',' !in p
    ensures Ranges.Normalized(SplitComma(Join(parts))) == parts
  {
    SplitJoined(parts);
    Ranges.TrimmedStays(parts);
  }

  lemma {:induction false} JoinedParts(v: string)
    ensures Join(SplitComma(v)) == v && forall p :: p in SplitComma(v) ==> ',' !in p
    decreases |v|
  {
    if v != "" {
      var before := SplitComma(v[..|v| - 1]);
      var n := |before| - 1;
      JoinedParts(v[..|v| - 1]);
      assert v == v[..|v| - 1] + [v[|v| - 1]];
      JoinLonger(before, v[|v| - 1]);
      SplitLonger(v);
    }
  }

  lemma SplitLonger(v: string)
    requires v != ""
    ensures var before := SplitComma(v[..|v| - 1]);
            SplitComma(v) == if v[|v| - 1] == ',' then before + [""]
                             else before[|before| - 1 := before[|before| - 1] + [v[|v| - 1]]]
  {
  }

  lemma JoinLonger(before: seq<string>, c: char)
    requires before != []
    ensures Join(before + [""]) == Join(before) + ","
    ensures var n := |before| - 1;
            Join(before[n := before[n] + [c]]) == Join(before) + [c]
  {
    var n := |before| - 1;
    assert (before + [""])[..n + 1] == before;
    assert before[n := before[n] + [c]][..n] == before[..n];
  }

  // ----- what the texts mean -----

  /** The annotation is there and not empty. */
  predicate IsSet(ann: map<string, string>, key: string) { key in ann && ann[key] != "" }

  function Zeros(k: nat): string { seq(k, _ => '0') }

  /** The text is the number `n` in decimal, with `k` leading zeros and perhaps a sign. */
  predicate NumberText(v: string, n: int, k: nat) {
    var digits := Zeros(k) + Digits(if n < 0 then -n else n);
    (n >= 0 && (v == digits || v == "+" + digits)) || (n <= 0 && v == "-" + digits)
  }

  /** The text is the number `n`, which fits 64 bits. */
  ghost predicate IntText(v: string, n: int) {
    -0x8000_0000_0000_0000 <= n <= 0x7FFF_FFFF_FFFF_FFFF && exists k: nat :: NumberText(v, n, k)
  }

  lemma {:induction false} NumeralSplits(d: string) returns (k: nat)
    requires AllDigits(d)
    ensures d == Zeros(k) + Digits(Names.Value(d))
    decreases |d|
  {
    k := 0;
    var n := |d| - 1;
    assert Names.IsDigit(d[n]) && d == d[..n] + [d[n]];
    if n > 0 {
      k := NumeralSplits(d[..n]);
      OneMoreDigit(k, Names.Value(d[..n]), d[n]);
      if Names.Value(d[..n]) == 0 { k := k + 1; }
    } else {
      assert d == [d[n]] && Names.Value(d[..n]) == 0;
    }
  }

  lemma OneMoreDigit(k: nat, m: nat, c: char)
    requires Names.IsDigit(c)
    ensures var v := 10 * m + (c - '0') as nat;
            Zeros(k) + Digits(m) + [c] == if m == 0 then Zeros(k + 1) + Digits(v) else Zeros(k) + Digits(v)
  {
    if m == 0 { assert Zeros(k) + Digits(0) == Zeros(k + 1); }
  }

  lemma {:induction false} NumeralReads(k: nat, m: nat)
    ensures AllDigits(Zeros(k) + Digits(m)) && Names.Value(Zeros(k) + Digits(m)) == m
    decreases m
  {
    Names.DigitsRead(m);
    var s := Zeros(k) + Digits(m);
    if m >= 10 {
      NumeralReads(k, m / 10);
      assert s[..|s| - 1] == Zeros(k) + Digits(m / 10);
    } else {
      assert s[..|s| - 1] == Zeros(k);
      ZerosRead(k);
    }
    assert s[|s| - 1] == '0' + (m % 10) as char;
  }

  lemma {:induction false} ZerosRead(k: nat)
    ensures Names.Value(Zeros(k)) == 0
    decreases k
  {
    if k > 0 {
      ZerosRead(k - 1);
      assert Zeros(k)[..k - 1] == Zeros(k - 1);
    }
  }

  lemma SignedReads(v: string, n: int, k: nat)
    requires -0x8000_0000_0000_0000 <= n <= 0x7FFF_FFFF_FFFF_FFFF && NumberText(v, n, k)
    ensures Atoi(v) == Some(n)
  {
    hide Names.Value, Digits, Zeros;
    var digits := Zeros(k) + Digits(if n < 0 then -n else n);
    NumeralReads(k, if n < 0 then -n else n);
    assert digits[0] in digits && Names.IsDigit(digits[0]);
    if v != digits { assert v[1..] == digits; }
  }

  lemma ReadsSigned(v: string, n: int) returns (k: nat)
    requires Atoi(v) == Some(n)
    ensures NumberText(v, n, k)
  {
    hide Names.Value, Digits, Zeros, AllDigits;
    var signed := v != "" && (v[0] == '-' || v[0] == '+');
    var digits := if signed then v[1..] else v;
    k := NumeralSplits(digits);
    assert signed ==> v == [v[0]] + digits;
  }

  /** `Atoi` reads exactly these texts. */
  lemma AtoiIff(v: string, n: int)
    ensures Atoi(v) == Some(n) <==> IntText(v, n)
  {
    hide Atoi, NumberText;
    if Atoi(v) == Some(n) {
      AtoiFits(v, n);
      var k := ReadsSigned(v, n);
    }
    if IntText(v, n) {
      var k: nat :| NumberText(v, n, k);
      SignedReads(v, n, k);
    }
  }

  lemma AtoiFits(v: string, n: int)
    requires Atoi(v) == Some(n)
    ensures -0x8000_0000_0000_0000 <= n <= 0x7FFF_FFFF_FFFF_FFFF
  {
  }

  ghost predicate IntMeant(ann: map<string, string>, key: string, default_: int, n: int) {
    if IsSet(ann, key) then IntText(ann[key], n) else n == default_
  }

  predicate BoolMeant(ann: map<string, string>, key: string, default_: bool, b: bool) {
    if IsSet(ann, key)
    then ann[key] in if b then {"1", "t", "T", "TRUE", "true", "True"} else {"0", "f", "F", "FALSE", "false", "False"}
    else b == default_
  }

  predicate TextMeant(ann: map<string, string>, key: string, default_: string, v: string) {
    v == if IsSet(ann, key) then ann[key] else default_
  }

  /** The parts between the commas, trimmed, without the empty ones. */
  ghost predicate ListMeant(ann: map<string, string>, key: string, default_: seq<string>, items: seq<string>) {
    if IsSet(ann, key)
    then exists parts :: parts != [] && Join(parts) == ann[key] && (forall p :: p in parts ==> ',' !in p)
                         && items == Ranges.Normalized(parts)
    else items == default_
  }

  /** `w` is `v` in capitals. */
  predicate Capital(c: char, w: char) {
    || ('a' <= c <= 'z' && w as int == c as int - 32)
    || (!('a' <= c <= 'z') && w == c)
    || (c as int == 0x131 && w == 'I') || (c as int == 0x17F && w == 'S')
  }

  predicate Capitals(v: string, w: string) { |w| == |v| && forall i :: 0 <= i < |v| ==> Capital(v[i], w[i]) }

  /** One of the words, in any spelling, or nothing if the annotation is not set. */
  predicate WordMeant(ann: map<string, string>, key: string, words: set<string>, w: string) {
    if IsSet(ann, key) then w in words && Capitals(ann[key], w) else w == ""
  }

  lemma IntIsMeant(ann: map<string, string>, key: string, default_: int, n: int)
    ensures IntOf(ann, key, default_) == Some(n) <==> IntMeant(ann, key, default_, n)
  {
    hide Atoi, IntText;
    if IsSet(ann, key) { AtoiIff(ann[key], n); }
  }

  lemma BoolIsMeant(ann: map<string, string>, key: string, default_: bool, b: bool)
    ensures BoolOf(ann, key, default_) == Some(b) <==> BoolMeant(ann, key, default_, b)
  {
  }

  lemma ListIsMeant(ann: map<string, string>, key: string, default_: seq<string>, items: seq<string>)
    ensures items == ListOf(ann, key, default_) <==> ListMeant(ann, key, default_, items)
  {
    hide SplitComma, Join, Ranges.Normalized;
    if IsSet(ann, key) {
      JoinedParts(ann[key]);
      if ListMeant(ann, key, default_, items) {
        var parts :| parts != [] && Join(parts) == ann[key] && (forall p :: p in parts ==> ',' !in p)
                     && items == Ranges.Normalized(parts);
        SplitJoined(parts);
      }
    }
  }

  predicate Letters(w: string) { forall c :: c in w ==> 'A' <= c <= 'Z' }

  lemma CapitalsAreUpper(v: string, w: string)
    requires Letters(w)
    ensures Upper(v) == w <==> Capitals(v, w)
  {
    if Capitals(v, w) {
      forall i | 0 <= i < |v| ensures Upper(v)[i] == w[i] {
        assert w[i] in w;
      }
    }
    if Upper(v) == w {
      forall i | 0 <= i < |v| ensures Capital(v[i], w[i]) {
        assert Upper(v)[i] == w[i];
      }
    }
  }

  lemma WordIsMeant(ann: map<string, string>, key: string, words: set<string>, w: string)
    requires forall x :: x in words ==> x != "" && Letters(x)
    ensures (Upper(Text(ann, key)) == w && (w == "" || w in words)) <==> WordMeant(ann, key, words, w)
  {
    hide Upper, Capitals, Letters;
    UpperEmpty(Text(ann, key));
    if w in words { CapitalsAreUpper(Text(ann, key), w); }
  }

  // ----- the effective settings -----

  function ListOf(ann: map<string, string>, key: string, default_: seq<string>): seq<string> {
    if Text(ann, key) == "" then default_ else Ranges.Normalized(SplitComma(Text(ann, key)))
  }

  function TextOf(ann: map<string, string>, key: string, default_: string): string {
    if Text(ann, key) == "" then default_ else Text(ann, key)
  }

  /** The annotations are well-formed, in range, and do not contradict each other. */
  predicate Acceptable(d: Defaults, ann: map<string, string>) {
    && IntOf(ann, EIP_BANDWIDTH, 0).Some? && IntOf(ann, EIP_BANDWIDTH, 0).value >= 0
    && (IntOf(ann, EIP_BANDWIDTH, 0).value > 0 ==> ListOf(ann, EIP_IDS, []) == [])
    && BoolOf(ann, EIP_KEEP, false).Some?
    && IntOf(ann, IDLE_TIMEOUT, 0).Some? && IntOf(ann, IDLE_TIMEOUT, 0).value >= 0
    && BoolOf(ann, HEALTH_CHECK_ENABLED, d.probing).Some?
    && IntOf(ann, HEALTH_CHECK_DELAY, d.delay).Some?
    && IntOf(ann, HEALTH_CHECK_TIMEOUT, d.timeout).Some?
    && IntOf(ann, HEALTH_CHECK_MAX_RETRIES, d.retries).Some?
    && Upper(Text(ann, HEALTH_CHECK_PROTOCOL)) in {"", "TCP", "HTTP", "HTTPS"}
    && (Text(ann, HEALTH_CHECK_URL_PATH) == "" || "/" <= Text(ann, HEALTH_CHECK_URL_PATH))
    && (Text(ann, HEALTH_CHECK_HTTP_METHOD) == "" || Upper(Text(ann, HEALTH_CHECK_HTTP_METHOD)) in VERBS)
  }

  /** Annotations win over the configuration. */
  function Merged(d: Defaults, ann: map<string, string>): Settings
    requires Acceptable(d, ann)
  {
    Settings(
      TextOf(ann, ID, ""), TextOf(ann, SUBNET_ID, d.subnet), ListOf(ann, AVAILABILITY_ZONES, d.zones),
      TextOf(ann, LB_ALGORITHM, if d.algorithm == "" then "ROUND_ROBIN" else d.algorithm),
      ListOf(ann, EIP_IDS, []), IntOf(ann, EIP_BANDWIDTH, 0).value, BoolOf(ann, EIP_KEEP, false).value,
      IntOf(ann, IDLE_TIMEOUT, 0).value, BoolOf(ann, HEALTH_CHECK_ENABLED, d.probing).value,
      IntOf(ann, HEALTH_CHECK_DELAY, d.delay).value, IntOf(ann, HEALTH_CHECK_TIMEOUT, d.timeout).value,
      IntOf(ann, HEALTH_CHECK_MAX_RETRIES, d.retries).value,
      Upper(Text(ann, HEALTH_CHECK_PROTOCOL)), Text(ann, HEALTH_CHECK_URL_PATH),
      Upper(Text(ann, HEALTH_CHECK_HTTP_METHOD)),
      TextOf(ann, VPC_ID, d.vpc), TextOf(ann, L4_FLAVOR_ID, d.flavor), TextOf(ann, EIP_TYPE, "5_bgp"))
  }

  /** Every field of the settings says what its annotation says, or else its default, and the settings are in range and
      do not contradict each other. */
  ghost predicate SettingsMeant(d: Defaults, ann: map<string, string>, s: Settings) {
    && TextMeant(ann, PREFIX + "id", "", s.balancerId)
    && TextMeant(ann, PREFIX + "subnet-id", d.subnet, s.subnet)
    && TextMeant(ann, PREFIX + "vpc-id", d.vpc, s.vpc)
    && ListMeant(ann, PREFIX + "availability-zones", d.zones, s.zones)
    && TextMeant(ann, PREFIX + "l4-flavor-id", d.flavor, s.flavor)
    && TextMeant(ann, PREFIX + "lb-algorithm", if d.algorithm != "" then d.algorithm else "ROUND_ROBIN", s.algorithm)
    && ListMeant(ann, PREFIX + "eip-ids", [], s.eipIds)
    && IntMeant(ann, PREFIX + "eip-bandwidth", 0, s.eipBandwidth)
    && TextMeant(ann, PREFIX + "eip-type", "5_bgp", s.eipType)
    && BoolMeant(ann, PREFIX + "eip-keep", false, s.eipKeep)
    && IntMeant(ann, PREFIX + "idle-timeout", 0, s.idle)
    && ProbeSettingsMeant(d, ann, s)
    && s.eipBandwidth >= 0 && (s.eipBandwidth > 0 ==> s.eipIds == []) && s.idle >= 0
  }

  ghost predicate ProbeSettingsMeant(d: Defaults, ann: map<string, string>, s: Settings) {
    && BoolMeant(ann, PREFIX + "health-check-enabled", d.probing, s.probing)
    && IntMeant(ann, PREFIX + "health-check-delay", d.delay, s.delay)
    && IntMeant(ann, PREFIX + "health-check-timeout", d.timeout, s.timeout)
    && IntMeant(ann, PREFIX + "health-check-max-retries", d.retries, s.retries)
    && WordMeant(ann, PREFIX + "health-check-protocol", {"TCP", "HTTP", "HTTPS"}, s.probeKind)
    && TextMeant(ann, PREFIX + "health-check-url-path", "", s.probePath)
    && (s.probePath != "" ==> s.probePath[0] == '/')
    && WordMeant(ann, PREFIX + "health-check-http-method",
                 {"GET", "HEAD", "POST", "PUT", "DELETE", "TRACE", "OPTIONS", "CONNECT", "PATCH"}, s.probeVerb)
  }

  lemma TextIsMeant(ann: map<string, string>, key: string, default_: string, v: string)
    ensures v == TextOf(ann, key, default_) <==> TextMeant(ann, key, default_, v)
  {
  }

  lemma WordsAreMeant(ann: map<string, string>, kind: string, verb: string)
    ensures (kind == Upper(Text(ann, HEALTH_CHECK_PROTOCOL)) && kind in {"", "TCP", "HTTP", "HTTPS"})
            <==> WordMeant(ann, HEALTH_CHECK_PROTOCOL, {"TCP", "HTTP", "HTTPS"}, kind)
    ensures (verb == Upper(Text(ann, HEALTH_CHECK_HTTP_METHOD)) && (verb == "" || verb in VERBS))
            <==> WordMeant(ann, HEALTH_CHECK_HTTP_METHOD, VERBS, verb)
  {
    hide Upper, WordMeant;
    WordIsMeant(ann, HEALTH_CHECK_PROTOCOL, {"TCP", "HTTP", "HTTPS"}, kind);
    WordIsMeant(ann, HEALTH_CHECK_HTTP_METHOD, VERBS, verb);
  }

  lemma ProbeSettingsAreMeant(d: Defaults, ann: map<string, string>, s: Settings)
    ensures ProbeSettingsMeant(d, ann, s) <==>
            && BoolOf(ann, HEALTH_CHECK_ENABLED, d.probing) == Some(s.probing)
            && IntOf(ann, HEALTH_CHECK_DELAY, d.delay) == Some(s.delay)
            && IntOf(ann, HEALTH_CHECK_TIMEOUT, d.timeout) == Some(s.timeout)
            && IntOf(ann, HEALTH_CHECK_MAX_RETRIES, d.retries) == Some(s.retries)
            && s.probeKind == Upper(Text(ann, HEALTH_CHECK_PROTOCOL)) && s.probeKind in {"", "TCP", "HTTP", "HTTPS"}
            && s.probePath == Text(ann, HEALTH_CHECK_URL_PATH) && (s.probePath == "" || "/" <= s.probePath)
            && s.probeVerb == Upper(Text(ann, HEALTH_CHECK_HTTP_METHOD))
            && (s.probeVerb == "" || s.probeVerb in VERBS)
  {
    hide IntOf, BoolOf, Upper, IntMeant, BoolMeant, WordMeant;
    BoolIsMeant(ann, HEALTH_CHECK_ENABLED, d.probing, s.probing);
    IntIsMeant(ann, HEALTH_CHECK_DELAY, d.delay, s.delay);
    IntIsMeant(ann, HEALTH_CHECK_TIMEOUT, d.timeout, s.timeout);
    IntIsMeant(ann, HEALTH_CHECK_MAX_RETRIES, d.retries, s.retries);
    WordsAreMeant(ann, s.probeKind, s.probeVerb);
  }

  /** Annotations are accepted exactly if some settings say what they say, and those are the merged ones. */
  lemma MergedIsMeant(d: Defaults, ann: map<string, string>, s: Settings)
    ensures SettingsMeant(d, ann, s) <==> Acceptable(d, ann) && s == Merged(d, ann)
  {
    hide IntOf, BoolOf, ListOf, TextOf, Upper, IntMeant, BoolMeant, TextMeant, ListMeant, ProbeSettingsMeant;
    TextIsMeant(ann, ID, "", s.balancerId);
    TextIsMeant(ann, SUBNET_ID, d.subnet, s.subnet);
    TextIsMeant(ann, VPC_ID, d.vpc, s.vpc);
    TextIsMeant(ann, L4_FLAVOR_ID, d.flavor, s.flavor);
    TextIsMeant(ann, LB_ALGORITHM, if d.algorithm == "" then "ROUND_ROBIN" else d.algorithm, s.algorithm);
    TextIsMeant(ann, EIP_TYPE, "5_bgp", s.eipType);
    ListIsMeant(ann, AVAILABILITY_ZONES, d.zones, s.zones);
    ListIsMeant(ann, EIP_IDS, [], s.eipIds);
    IntIsMeant(ann, EIP_BANDWIDTH, 0, s.eipBandwidth);
    IntIsMeant(ann, IDLE_TIMEOUT, 0, s.idle);
    BoolIsMeant(ann, EIP_KEEP, false, s.eipKeep);
    ProbeSettingsAreMeant(d, ann, s);
    UpperEmpty(Text(ann, HEALTH_CHECK_HTTP_METHOD));
  }

  /** The annotation says that a new EIP is to be kept. */
  predicate SaysKeep(ann: map<string, string>) {
    (PREFIX + "eip-keep") in ann && ann[PREFIX + "eip-keep"] in {"1", "t", "T", "TRUE", "true", "True"}
  }

  lemma KeepIffSaid(d: Defaults, ann: map<string, string>)
    requires Acceptable(d, ann)
    ensures Merged(d, ann).eipKeep <==> SaysKeep(ann)
  {
    BoolIsMeant(ann, EIP_KEEP, false, Merged(d, ann).eipKeep);
    hide IntOf, ListOf, TextOf, Upper;
  }

  /** Field by field, as the annotations are read; the first bad one ends it. */
  method SettingsForService(d: Defaults, ann: map<string, string>) returns (settings: Option<Settings>)
    ensures settings.Some? <==> Acceptable(d, ann)
    ensures settings.Some? ==> settings.value == Merged(d, ann)
    ensures settings.Some? ==> SettingsMeant(d, ann, settings.value)
    ensures settings.None? ==> forall s :: !SettingsMeant(d, ann, s)
  {
    hide Atoi, ParseBool, Upper, SplitComma, IntOf, BoolOf, SettingsMeant;
    forall s ensures SettingsMeant(d, ann, s) <==> Acceptable(d, ann) && s == Merged(d, ann) {
      MergedIsMeant(d, ann, s);
    }
    var s := Settings("", d.subnet, d.zones, d.algorithm, [], 0, false, 0, d.probing, d.delay, d.timeout, d.retries,
                      "", "", "", d.vpc, d.flavor, "");
    if s.algorithm == "" {
      s := s.(algorithm := "ROUND_ROBIN");
    }
    s := PlainOverrides(s, ann);
    var i := IntOf(ann, EIP_BANDWIDTH, 0);
    if i.None? || i.value < 0 || (i.value > 0 && |s.eipIds| > 0) {
      return None;
    }
    var kind := OverrideText(ann, EIP_TYPE, "5_bgp");
    s := s.(eipBandwidth := i.value, eipType := kind);
    var b := BoolOf(ann, EIP_KEEP, false);
    if b.None? {
      return None;
    }
    s := s.(eipKeep := b.value);
    i := IntOf(ann, IDLE_TIMEOUT, 0);
    if i.None? || i.value < 0 {
      return None;
    }
    s := s.(idle := i.value);
    b := BoolOf(ann, HEALTH_CHECK_ENABLED, s.probing);
    if b.None? {
      return None;
    }
    s := s.(probing := b.value);
    i := IntOf(ann, HEALTH_CHECK_DELAY, s.delay);
    if i.None? {
      return None;
    }
    s := s.(delay := i.value);
    i := IntOf(ann, HEALTH_CHECK_TIMEOUT, s.timeout);
    if i.None? {
      return None;
    }
    s := s.(timeout := i.value);
    i := IntOf(ann, HEALTH_CHECK_MAX_RETRIES, s.retries);
    if i.None? {
      return None;
    }
    s := s.(retries := i.value);
    settings := ProbeOverrides(s, ann);
  }

  /** The overrides that are texts or lists. */
  method PlainOverrides(before: Settings, ann: map<string, string>) returns (s: Settings)
    ensures s == before.(balancerId := TextOf(ann, ID, before.balancerId),
                         subnet := TextOf(ann, SUBNET_ID, before.subnet),
                         vpc := TextOf(ann, VPC_ID, before.vpc), zones := ListOf(ann, AVAILABILITY_ZONES, before.zones),
                         flavor := TextOf(ann, L4_FLAVOR_ID, before.flavor),
                         algorithm := TextOf(ann, LB_ALGORITHM, before.algorithm),
                         eipIds := ListOf(ann, EIP_IDS, before.eipIds))
  {
    hide *;
    s := before;
    var v := OverrideText(ann, ID, s.balancerId);
    s := s.(balancerId := v);
    v := OverrideText(ann, SUBNET_ID, s.subnet);
    s := s.(subnet := v);
    v := OverrideText(ann, VPC_ID, s.vpc);
    s := s.(vpc := v);
    var items := OverrideList(ann, AVAILABILITY_ZONES, s.zones);
    s := s.(zones := items);
    v := OverrideText(ann, L4_FLAVOR_ID, s.flavor);
    s := s.(flavor := v);
    v := OverrideText(ann, LB_ALGORITHM, s.algorithm);
    s := s.(algorithm := v);
    items := OverrideList(ann, EIP_IDS, s.eipIds);
    s := s.(eipIds := items);
  }

  method OverrideText(ann: map<string, string>, key: string, current: string) returns (v: string)
    ensures v == TextOf(ann, key, current)
  {
    v := current;
    if Text(ann, key) != "" {
      v := Text(ann, key);
    }
  }

  method OverrideList(ann: map<string, string>, key: string, current: seq<string>) returns (items: seq<string>)
    ensures items == ListOf(ann, key, current)
  {
    items := current;
    if Text(ann, key) != "" {
      items := SplitTrim(Text(ann, key));
    }
  }

  lemma UpperEmpty(s: string)
    ensures Upper(s) == "" <==> s == ""
  {
  }

  method ProbeOverrides(before: Settings, ann: map<string, string>) returns (settings: Option<Settings>)
    requires before.probeKind == "" && before.probePath == "" && before.probeVerb == ""
    ensures settings.Some? <==>
            && Upper(Text(ann, HEALTH_CHECK_PROTOCOL)) in {"", "TCP", "HTTP", "HTTPS"}
            && (Text(ann, HEALTH_CHECK_URL_PATH) == "" || "/" <= Text(ann, HEALTH_CHECK_URL_PATH))
            && (Text(ann, HEALTH_CHECK_HTTP_METHOD) == "" || Upper(Text(ann, HEALTH_CHECK_HTTP_METHOD)) in VERBS)
    ensures settings.Some? ==>
              settings.value == before.(probeKind := Upper(Text(ann, HEALTH_CHECK_PROTOCOL)),
                                        probePath := Text(ann, HEALTH_CHECK_URL_PATH),
                                        probeVerb := Upper(Text(ann, HEALTH_CHECK_HTTP_METHOD)))
  {
    hide Upper;
    var s := before;
    var v := Text(ann, HEALTH_CHECK_PROTOCOL);
    UpperEmpty(v);
    if v != "" {
      var proto := Upper(v);
      if proto !in {"TCP", "HTTP", "HTTPS"} {
        return None;
      }
      s := s.(probeKind := proto);
    }
    v := Text(ann, HEALTH_CHECK_URL_PATH);
    if v != "" {
      if !("/" <= v) {
        return None;
      }
      s := s.(probePath := v);
    }
    v := Text(ann, HEALTH_CHECK_HTTP_METHOD);
    UpperEmpty(v);
    if v != "" {
      var verb := Upper(v);
      if verb !in VERBS {
        return None;
      }
      s := s.(probeVerb := verb);
    }
    return Some(s);
  }

  /** What the checks give the reconciler. */
  lemma MergedFacts(d: Defaults, ann: map<string, string>)
    requires Acceptable(d, ann)
    ensures var s := Merged(d, ann);
            && !(s.eipBandwidth > 0 && s.eipIds != []) && s.eipBandwidth >= 0
            && s.algorithm != "" && s.idle >= 0
            && s.probeKind in {"", "TCP", "HTTP", "HTTPS"}
            && (s.probePath == "" || "/" <= s.probePath)
            && (s.probeVerb == "" || s.probeVerb in VERBS)
  {
  }
}

/** Inputs on which the promises with a side condition fail: each failing family has a reachable member. */
module Instances {
  import opened Basics
  import opened CloudState
  import opened Service
  import opened Plan
  import opened Steps
  import opened Lifecycle
  import opened Deletion
  import opened EipLife
  import Annotations
  import Ranges

  const KEY := Key("TCP", 80)
  const PORT := Port(KEY, 30080)

  function Empty(): State { State(map[], map[], map[], map[], map[], map[], {}) }

  /** A cloud with load balancer 0 and listener 1 on the key, owned by somebody else or by us. */
  function OneListener(name: string, group: Option<Id>, groups: map<Id, Group>): State {
    Empty().(balancers := map[0 := Balancer("lb", "net", [])], groups := groups,
             listeners := map[1 := Listener(0, name, KEY, 0, None, group, None, "")])
  }

  function Chosen(idle: int): Settings {
    Settings("lb", "net", [], "ROUND_ROBIN", [], 0, false, idle, true, 5, 3, 3, "", "", "", "", "", "5_bgp")
  }

  /** A Service "us" with the given ports and ranges on load balancer 0. */
  function Us(idle: int, ports: seq<Port>, ranges: seq<string>): Config {
    Config(0, "us", "net", Chosen(idle), Spec("ns", "us", map[], ports, ranges, false, None, false, 0), [])
  }

  lemma UsIsSound(idle: int, ports: seq<Port>, ranges: seq<string>)
    requires idle >= 0 && |ports| <= 1
    ensures Sound(Us(idle, ports, ranges))
  {
  }

  lemma OneListenerIsWellFormed(base: string, name: string, group: Option<Id>, groups: map<Id, Group>)
    ensures WellFormed(base, OneListener(name, group, groups)) && GroupsTidy(base, OneListener(name, group, groups))
  {
  }

  lemma PrefixDiffers(name: string)
    requires name != "" && name[0] != 'u'
    ensures !Own("us", name)
  {
    assert ("us" + "_")[0] == 'u';
  }

  /** A listener of another owner on a wanted key is adopted: a legal run changes it. */
  lemma ForeignListenerAdopted() returns (cfg: Config, s: State, calls: seq<Call>, t: State)
    ensures WellFormed(cfg.name, s) && Sound(cfg) && LegalRun(cfg, Ensuring, s, calls, t)
    ensures 1 in s.listeners && !Own(cfg.name, s.listeners[1].name)
    ensures TreeOf(t, 1) != TreeOf(s, 1)
  {
    cfg := Us(60, [PORT], []);
    s := OneListener("theirs", None, map[]);
    OneListenerIsWellFormed("us", "theirs", None, map[]);
    PrefixDiffers("theirs");
    t := Apply(s, SetIdle(1, 60), 9);
    var c := Call(ForPort(PORT, 1), SetIdle(1, 60), 9, Ok, s, t);
    calls := [c];
    assert LegalCall(cfg, Ensuring, c);
    assert calls[..0] == [];
    assert TreeOf(t, 1).value.listener.idle == 60;
  }

  /** A group just made for a port is an orphan until it is attached. */
  lemma NewGroupIsOrphan() returns (cfg: Config, s: State, c: Call)
    ensures WellFormed(cfg.name, s) && Sound(cfg) && LegalCall(cfg, Ensuring, c) && c.pre == s && c.done
    ensures c.op.CreateGroup? && Orphans(cfg.name, s) == {} && Orphans(cfg.name, c.post) != {}
  {
    var ranges := ["10.0.0.0/8"];
    cfg := Us(0, [PORT], ranges);
    Ranges.TrimmedStays(ranges);
    s := OneListener("us_TCP_80", None, map[]);
    OneListenerIsWellFormed("us", "us_TCP_80", None, map[]);
    UsIsSound(0, [PORT], ranges);
    hide WellFormed, Justified, ResourceName, Sound, Ranges.Normalized, GroupsTidy;
    var op := CreateGroup(ResourceName("us", KEY), ranges);
    c := Call(ForPort(PORT, 1), op, 9, Ok, s, Apply(s, op, 9));
    GroupMayBeMade(cfg, s, ranges);
    hide Orphans;
    OrphansGrowIff(cfg, Ensuring, s, c.why, op, 9);
    NoGroupsNoOrphans("us", s);
  }

  lemma NoGroupsNoOrphans(base: string, s: State)
    requires s.groups == map[]
    ensures Orphans(base, s) == {}
  {
  }

  lemma GroupMayBeMade(cfg: Config, s: State, ranges: seq<string>)
    requires cfg == Us(0, [PORT], ranges) && s == OneListener("us_TCP_80", None, map[])
    requires cfg.Whitelist() == ranges && ranges != []
    ensures Justified(cfg, Ensuring, s, ForPort(PORT, 1), CreateGroup(ResourceName("us", KEY), ranges))
  {
    assert PORT in cfg.Ports();
  }

  /** The group of a listener of ours that is no longer wanted is an orphan once the listener is deleted. */
  lemma RemovedListenerOrphansGroup() returns (cfg: Config, s: State, c: Call)
    ensures WellFormed(cfg.name, s) && Sound(cfg) && LegalCall(cfg, Ensuring, c) && c.pre == s && c.done
    ensures c.op.DeleteListener? && Orphans(cfg.name, s) == {} && Orphans(cfg.name, c.post) != {}
  {
    cfg := Us(0, [], []);
    var groups := map[2 := Group("us_TCP_80", ["10.0.0.0/8"])];
    s := OneListener("us_TCP_80", Some(2), groups);
    OneListenerIsWellFormed("us", "us_TCP_80", Some(2), groups);
    hide WellFormed;
    assert "us" + "_" <= "us_TCP_80";
    assert 1 in s.listeners && s.listeners[1].group == Some(2);
    var op := DeleteListener(1);
    c := Call(Removing(1), op, 9, Ok, s, Apply(s, op, 9));
    OrphansGrowIff(cfg, Ensuring, s, c.why, op, 9);
  }

  // ----- EIPs -----

  const DEFAULTS := Annotations.Defaults("net", "", ["az"], "", "", true, 5, 3, 3)

  /** A Service whose only annotation is the given one. */
  function Annotated(key: string, value: string): Order {
    Order(DEFAULTS, "c", Spec("ns", "svc", map[key := value], [PORT], [], false, None, false, 0), [])
  }

  lemma Absent(key: string, value: string, other: string)
    requires |other| != |key|
    ensures Annotations.Text(map[key := value], other) == ""
  {
  }

  /** No annotation but the EIP ones is set. */
  predicate OnlyEips(ann: map<string, string>) {
    && Annotations.Text(ann, Annotations.ID) == "" && Annotations.Text(ann, Annotations.SUBNET_ID) == ""
    && Annotations.Text(ann, Annotations.EIP_KEEP) == "" && Annotations.Text(ann, Annotations.IDLE_TIMEOUT) == ""
    && Annotations.Text(ann, Annotations.HEALTH_CHECK_ENABLED) == ""
    && Annotations.Text(ann, Annotations.HEALTH_CHECK_DELAY) == ""
    && Annotations.Text(ann, Annotations.HEALTH_CHECK_TIMEOUT) == ""
    && Annotations.Text(ann, Annotations.HEALTH_CHECK_MAX_RETRIES) == ""
    && Annotations.Text(ann, Annotations.HEALTH_CHECK_PROTOCOL) == ""
    && Annotations.Text(ann, Annotations.HEALTH_CHECK_URL_PATH) == ""
    && Annotations.Text(ann, Annotations.HEALTH_CHECK_HTTP_METHOD) == ""
  }

  lemma EipAnnotation(key: string, value: string)
    requires key == Annotations.EIP_IDS || key == Annotations.EIP_BANDWIDTH
    ensures OnlyEips(map[key := value]) && Annotations.Text(map[key := value], key) == value
    ensures key == Annotations.EIP_IDS ==> Annotations.Text(map[key := value], Annotations.EIP_BANDWIDTH) == ""
    ensures key == Annotations.EIP_BANDWIDTH ==> Annotations.Text(map[key := value], Annotations.EIP_IDS) == ""
  {
    hide Annotations.Text;
    Absent(key, value, Annotations.ID);
    Absent(key, value, Annotations.SUBNET_ID);
    Absent(key, value, Annotations.EIP_KEEP);
    Absent(key, value, Annotations.IDLE_TIMEOUT);
    Absent(key, value, Annotations.HEALTH_CHECK_ENABLED);
    Absent(key, value, Annotations.HEALTH_CHECK_DELAY);
    Absent(key, value, Annotations.HEALTH_CHECK_TIMEOUT);
    Absent(key, value, Annotations.HEALTH_CHECK_MAX_RETRIES);
    Absent(key, value, Annotations.HEALTH_CHECK_PROTOCOL);
    Absent(key, value, Annotations.HEALTH_CHECK_URL_PATH);
    Absent(key, value, Annotations.HEALTH_CHECK_HTTP_METHOD);
    Present(key, value);
    if key == Annotations.EIP_IDS {
      Absent(key, value, Annotations.EIP_BANDWIDTH);
    } else {
      Absent(key, value, Annotations.EIP_IDS);
    }
  }

  lemma Present(key: string, value: string)
    ensures Annotations.Text(map[key := value], key) == value
  {
  }

  /** An order for a new EIP. */
  lemma BandwidthOrder() returns (o: Order)
    ensures o == Annotated(Annotations.EIP_BANDWIDTH, "5")
    ensures o.Acceptable() && Releases(o) && o.Settings().eipBandwidth > 0 && o.Settings().eipIds == []
    ensures o.Settings().subnet == "net"
  {
    o := Annotated(Annotations.EIP_BANDWIDTH, "5");
    assert Decimal(5) == "5";
    Annotations.AtoiReadsDecimal(5);
    Annotations.UpperEmpty("");
    EipAnnotation(Annotations.EIP_BANDWIDTH, "5");
    hide Annotations.Text, Annotations.SplitComma, Ranges.Normalized, Annotations.Upper, Annotations.Atoi;
  }

  /** An order that binds the EIP called "e". */
  lemma ListedOrder() returns (o: Order)
    ensures o == Annotated(Annotations.EIP_IDS, "e")
    ensures o.Acceptable() && o.Settings().eipIds == ["e"] && o.Settings().eipBandwidth == 0
    ensures o.Settings().subnet == "net" && !ById(o)
  {
    o := Annotated(Annotations.EIP_IDS, "e");
    OneItem("e");
    Annotations.UpperEmpty("");
    EipAnnotation(Annotations.EIP_IDS, "e");
    hide Annotations.Text, Annotations.SplitComma, Ranges.Normalized, Annotations.Upper, Annotations.Atoi,
         Annotations.ParseBool;
  }

  lemma OneItem(item: string)
    requires Ranges.Trimmed(item) && ',' !in item
    ensures Ranges.Normalized(Annotations.SplitComma(item)) == [item]
  {
    Annotations.SplitOnePart(item);
    Ranges.TrimmedStays([item]);
  }

  /** A failed request. */
  function Failed(op: Op, s: State): Call { Call(WholeBalancer, op, 0, Conflict, s, s) }

  /** The cloud after a load balancer with a new EIP was made for the order. */
  lemma MadeWithEip(known: map<string, Id>, o: Order, s: State)
    requires o.Acceptable() && Releases(o) && o.Settings().eipIds == [] && o.Settings().subnet == "net"
    requires s == Apply(Empty(), CreateBalancer(o.Name(), "net", [], true), 1)
    ensures Created(known, o, Empty(), s, 1) && IsBalancerOf(known, o, s, 1)
    ensures s.balancers == map[1 := Balancer(o.Name(), "net", [2])] && s.eips == {2}
  {
    assert EipsOf(known, o.Settings().eipIds) == [];
    var none: seq<Id> := [];
    assert none + [2] == [2];
  }

  /** An EIP is left behind: the requests are those of a deletion, which gets rid of the load balancer and fails in all
      six attempts to release its EIP, and from then on a repeated deletion finds no load balancer. */
  lemma EipLeftBehind() returns (known: map<string, Id>, o: Order, s: State, calls: seq<Call>, t: State)
    ensures o.Acceptable() && Releases(o) && Created(known, o, Empty(), s, 1) && IsBalancerOf(known, o, s, 1)
    ensures Closing(o, 1, s.balancers[1].publicIps, calls, s, t) && |calls| == 7
    ensures calls[0].op == DeleteBalancer(1) && calls[0].done
    ensures forall i :: 1 <= i < 7 ==> calls[i].op == DeleteEip(2) && !calls[i].done
    ensures t.eips == {2} && !Released(s, 1, t) && forall lb :: !IsBalancerOf(known, o, t, lb)
  {
    known := map[];
    o := BandwidthOrder();
    s := Apply(Empty(), CreateBalancer(o.Name(), "net", [], true), 1);
    MadeWithEip(known, o, s);
    calls, t := GoneWithoutRelease(o, s);
    BalancerEip(s, t);
  }

  /** The requests of a deletion whose releases all fail. */
  lemma GoneWithoutRelease(o: Order, s: State) returns (calls: seq<Call>, t: State)
    requires o.Acceptable() && Releases(o) && s == Apply(Empty(), CreateBalancer(o.Name(), "net", [], true), 1)
    ensures Closing(o, 1, s.balancers[1].publicIps, calls, s, t) && |calls| == 7
    ensures calls[0].op == DeleteBalancer(1) && calls[0].done
    ensures forall i :: 1 <= i < 7 ==> calls[i].op == DeleteEip(2) && !calls[i].done
    ensures t.balancers == map[] && t.eips == s.eips
  {
    var first := DeletedFirst(o, s);
    t := first.post;
    var failed := Failed(DeleteEip(2), t);
    calls := Repeated(first, failed, 6);
    LinkedToFailures(s, t, first, failed, 6);
    assert Happened(failed);
    hide Happened, MayClose, Releases;
  }

  lemma DeletedFirst(o: Order, s: State) returns (first: Call)
    requires o.Acceptable() && Releases(o) && s == Apply(Empty(), CreateBalancer(o.Name(), "net", [], true), 1)
    ensures first.op == DeleteBalancer(1) && first.done && first.pre == s && Happened(first)
    ensures MayClose(o, 1, s.balancers[1].publicIps, s, DeleteBalancer(1))
    ensures MayClose(o, 1, s.balancers[1].publicIps, first.post, DeleteEip(2))
    ensures first.post.balancers == map[] && first.post.eips == s.eips
  {
    hide Releases;
    NotById(o);
    first := Call(WholeBalancer, DeleteBalancer(1), 0, Ok, s, Apply(s, DeleteBalancer(1), 0));
    assert s.balancers[1].publicIps[0] == 2;
  }

  lemma NotById(o: Order)
    requires o.Acceptable() && Releases(o)
    ensures !ById(o)
  {
  }

  lemma BalancerEip(s: State, t: State)
    requires 1 in s.balancers && s.balancers[1].publicIps == [2] && 2 in t.eips
    ensures !Released(s, 1, t)
  {
    assert s.balancers[1].publicIps[0] == 2;
    assert 2 in Listed(s.balancers[1].publicIps);
  }

  function Repeated(first: Call, failed: Call, n: nat): seq<Call> {
    if n == 0 then [first] else Repeated(first, failed, n - 1) + [failed]
  }

  lemma {:induction false} LinkedToFailures(s: State, t: State, first: Call, failed: Call, n: nat)
    requires first.pre == s && first.post == t && failed.pre == t && failed.post == t
    ensures Linked(Repeated(first, failed, n), s, t)
    ensures |Repeated(first, failed, n)| == n + 1 && Repeated(first, failed, n)[0] == first
    ensures forall i :: 1 <= i <= n ==> Repeated(first, failed, n)[i] == failed
    decreases n
  {
    var calls := Repeated(first, failed, n);
    if n == 0 {
      assert calls[..0] == [];
    } else {
      LinkedToFailures(s, t, first, failed, n - 1);
      assert calls[..|calls| - 1] == Repeated(first, failed, n - 1);
    }
  }

  /** An EIP of the user is released: the load balancer was created with it listed, and the annotation was then changed
      to ask for a new one. */
  lemma UserEipReleased() returns (known: map<string, Id>, a: Order, b: Order, s: State, t: State)
    ensures a.Acceptable() && b.Acceptable() && Created(known, a, s, t, 1) && IsBalancerOf(known, b, t, 1)
    ensures s.eips == {7} && a.Settings().eipIds == ["e"] && known["e"] == 7
    ensures EipsAfter(b, t, 1) == {}
  {
    known := map["e" := 7];
    a := ListedOrder();
    b := BandwidthOrder();
    s := Empty().(eips := {7});
    t := Apply(s, CreateBalancer(a.Name(), "net", [7], false), 1);
    ListedThenReleased(known, a, b, s, t);
  }

  lemma ListedThenReleased(known: map<string, Id>, a: Order, b: Order, s: State, t: State)
    requires a.Acceptable() && a.Settings().eipIds == ["e"] && a.Settings().eipBandwidth == 0
    requires a.Settings().subnet == "net" && known == map["e" := 7]
    requires b.Acceptable() && Releases(b) && b.Name() == a.Name()
    requires s == Empty().(eips := {7}) && t == Apply(s, CreateBalancer(a.Name(), "net", [7], false), 1)
    ensures Created(known, a, s, t, 1) && IsBalancerOf(known, b, t, 1) && EipsAfter(b, t, 1) == {}
  {
    assert EipsOf(known, a.Settings().eipIds) == [7];
    ListedEipGoneIff(known, a, b, s, t, 1, "e");
  }
}

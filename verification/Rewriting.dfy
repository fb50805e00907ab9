/** Address replacement by configured rules, and when the order of the rules is irrelevant. */
module Rewriting {
  import opened Text
  import opened Addresses

  // ---------------------------------------------------------- address text

  /** How addresses are read from and written as text: `net.ParseIP` and `IP.String`. */
  datatype Codec = Codec(parse: string -> Option<Addr>, format: Addr -> string)

  /** The 16-byte form of an IPv4 address. */
  function To16(a: Addr): Addr {
    if |a| == 4 then [0, 0, 0, 0, 0, 0, 0, 0, 0, 0, 0xFF, 0xFF] + a else a
  }

  /** 16 bytes that stand for an IPv4 address. */
  predicate Mapped(a: Addr) { |a| == 16 && a == To16(a[12..]) }

  ghost predicate Sound(c: Codec) {
    && (forall s :: c.parse(s).Some? ==> IsAddr(c.parse(s).value) && !Mapped(c.parse(s).value))
    && (forall a :: IsAddr(a) && !Mapped(a) ==> c.parse(c.format(a)) == Some(a))
  }

  // ----------------------------------------------------------------- rules

  datatype NetConfig = NetConfig(source: string, target: string, mask: int)
  datatype IPConfig = IPConfig(source: string, target: string)
  datatype IPReplacementList = IPReplacementList(nets: seq<NetConfig>, ips: seq<IPConfig>, globalNets: seq<string>,
      globalIPs: seq<string>)
  datatype GlobalNet = GlobalNet(name: string, nets: seq<NetConfig>)
  datatype GlobalIP = GlobalIP(name: string, ips: seq<IPConfig>)
  datatype GlobalList = GlobalList(net: seq<GlobalNet>, ip: seq<GlobalIP>)

  /** `source/mask` as a CIDR. */
  function ParseCIDR(c: Codec, source: string, mask: int): Option<(Addr, nat)> {
    match c.parse(source)
    case None => None
    case Some(a) => if 0 <= mask <= Width(a) then Some((Masked(a, mask), mask as nat)) else None
  }

  predicate IsIPInNet(c: Codec, ip: string, source: string, mask: int) {
    match (c.parse(ip), ParseCIDR(c, source, mask))
    case (Some(a), Some((net, m))) => Contains(net, m, a)
    case _ => false
  }

  predicate IsNetworkOverlap(c: Codec, ip1: string, mask1: int, ip2: string, mask2: int) {
    match (ParseCIDR(c, ip1, mask1), ParseCIDR(c, ip2, mask2))
    case (Some((net1, m1)), Some((net2, m2))) => Contains(net1, m1, net2) || Contains(net2, m2, net1)
    case _ => false
  }

  predicate NetsOverlap(c: Codec, m: NetConfig, n: NetConfig) {
    IsNetworkOverlap(c, m.source, m.mask, n.source, n.mask)
  }

  function ReplaceInNet(c: Codec, ip: string, source: string, target: string, mask: int): string {
    match (c.parse(ip), c.parse(source), c.parse(target))
    case (Some(a), Some(s), Some(t)) =>
      var v4 := |a| == 4 && |s| == 4 && |t| == 4;
      var a', t' := if v4 then a else To16(a), if v4 then t else To16(t);
      if mask < 0 || mask > (if v4 then 32 else 128) || |a'| != |t'| then ip
      else c.format(Rewritten(a', t', mask))
    case _ => ip
  }

  function NetImage(c: Codec, ip: string, n: NetConfig): string { ReplaceInNet(c, ip, n.source, n.target, n.mask) }

  predicate Hits(c: Codec, ip: string, n: NetConfig) { IsIPInNet(c, ip, n.source, n.mask) }

  // ------------------------------------------- what a network rule is about

  /** The address is of the same width as the rule's source and has the same first bits. */
  ghost predicate InSource(c: Codec, x: Addr, n: NetConfig) {
    match c.parse(n.source)
    case None => false
    case Some(s) =>
      && |x| == |s| && 0 <= n.mask <= 8 * |s|
      && forall k: nat :: k < n.mask ==> (Bit(x, k) <==> Bit(s, k))
  }

  /** The text is an address in the source network of the rule. */
  ghost predicate Within(c: Codec, ip: string, n: NetConfig) {
    c.parse(ip).Some? && InSource(c, c.parse(ip).value, n)
  }

  /** Some address is in the source networks of both rules. */
  ghost predicate Shares(c: Codec, m: NetConfig, n: NetConfig) { exists x :: InSource(c, x, m) && InSource(c, x, n) }

  lemma {:induction false} InSourceIff(c: Codec, x: Addr, n: NetConfig)
    ensures InSource(c, x, n) <==>
      c.parse(n.source).Some? && 0 <= n.mask <= Width(c.parse(n.source).value)
      && InNet(x, c.parse(n.source).value, n.mask)
  {
    if c.parse(n.source).Some? && 0 <= n.mask { InNetBits(x, c.parse(n.source).value, n.mask); }
  }

  /** A rule matches exactly the texts of the addresses that agree with its source on the first `mask` bits, for either
      width; a mask out of range, or a text that is no address, matches nothing. */
  lemma HitsIff(c: Codec, ip: string, n: NetConfig)
    ensures Hits(c, ip, n) <==>
      match (c.parse(ip), c.parse(n.source))
      case (Some(a), Some(s)) => 0 <= n.mask <= Width(s) && Agree(a, s, n.mask)
      case _ => false
    ensures Hits(c, ip, n) <==> Within(c, ip, n)
  {
    match (c.parse(ip), c.parse(n.source))
    case (Some(a), Some(s)) =>
      if 0 <= n.mask { InNetBits(a, s, n.mask); }
      InSourceIff(c, a, n);
    case _ =>
  }

  /** Two rules overlap by the code's test exactly when some address is in both source networks; networks that do not
      parse or whose masks are out of range overlap with nothing. */
  lemma NetsOverlapIff(c: Codec, m: NetConfig, n: NetConfig)
    ensures NetsOverlap(c, m, n) <==>
      match (c.parse(m.source), c.parse(n.source))
      case (Some(s), Some(t)) =>
        && 0 <= m.mask <= Width(s) && 0 <= n.mask <= Width(t)
        && exists x :: InNet(x, s, m.mask) && InNet(x, t, n.mask)
      case _ => false
    ensures NetsOverlap(c, m, n) <==> Shares(c, m, n)
  {
    forall x ensures InSource(c, x, m) <==>
      c.parse(m.source).Some? && 0 <= m.mask <= Width(c.parse(m.source).value)
      && InNet(x, c.parse(m.source).value, m.mask)
    {
      InSourceIff(c, x, m);
    }
    forall x ensures InSource(c, x, n) <==>
      c.parse(n.source).Some? && 0 <= n.mask <= Width(c.parse(n.source).value)
      && InNet(x, c.parse(n.source).value, n.mask)
    {
      InSourceIff(c, x, n);
    }
    match (c.parse(m.source), c.parse(n.source))
    case (Some(s), Some(t)) =>
      if 0 <= m.mask && 0 <= n.mask {
        OverlapExact(s, m.mask, t, n.mask);
        assert 0 <= m.mask <= Width(s) && 0 <= n.mask <= Width(t) ==>
          (NetsOverlap(c, m, n) <==> Overlap(s, m.mask, t, n.mask));
      }
    case _ =>
  }

  /** `x` has the first `mask` bits of `t` and the others of `a`. */
  ghost predicate Spliced(x: Addr, t: Addr, a: Addr, mask: int) {
    |x| == |t| == |a| && forall k: nat :: k < Width(x) ==> (Bit(x, k) <==> if k < mask then Bit(t, k) else Bit(a, k))
  }

  /** What becomes of an address in the source network: the first bits of the target, the other bits kept. With source
      and target of different families both are taken as 16 bytes, an IPv4 address after ten zeros and two 0xFF. */
  lemma NetImageIs(c: Codec, ip: string, n: NetConfig)
    requires Within(c, ip, n)
    ensures c.parse(n.target).None? ==> NetImage(c, ip, n) == ip
    ensures c.parse(n.target).Some? ==>
      var a, t := c.parse(ip).value, c.parse(n.target).value;
      var zeros: Addr := [0, 0, 0, 0, 0, 0, 0, 0, 0, 0];
      && (|a| == |t| == 4 || |a| == |t| == 16 ==>
        exists x :: Spliced(x, t, a, n.mask) && NetImage(c, ip, n) == c.format(x))
      && (|a| == 4 && |t| == 16 ==>
            exists x :: Spliced(x, t, zeros + [0xFF, 0xFF] + a, n.mask) && NetImage(c, ip, n) == c.format(x))
      && (|a| == 16 && |t| == 4 ==>
            exists x :: Spliced(x, zeros + [0xFF, 0xFF] + t, a, n.mask) && NetImage(c, ip, n) == c.format(x))
  {
    if c.parse(n.target).Some? {
      var a, t := c.parse(ip).value, c.parse(n.target).value;
      if |a| == |t| {
        SplicedIs(t, a, n.mask);
      } else if |a| in {4, 16} && |t| in {4, 16} {
        SplicedIs(To16(t), To16(a), n.mask);
        var zeros: Addr := [0, 0, 0, 0, 0, 0, 0, 0, 0, 0];
        assert |a| == 4 ==> To16(a) == zeros + [0xFF, 0xFF] + a;
        assert |t| == 4 ==> To16(t) == zeros + [0xFF, 0xFF] + t;
      }
    }
  }

  lemma SplicedIs(t: Addr, a: Addr, mask: nat)
    requires |t| == |a|
    ensures Spliced(Rewritten(a, t, mask), t, a, mask)
  {
    forall k: nat | k < Width(a) ensures Bit(Rewritten(a, t, mask), k) <==> if k < mask then Bit(t, k) else Bit(a, k) {
      RewrittenBits(a, t, mask, k);
    }
  }

  // -------------------------------------------------- the rules in force

  function GroupIPs(groups: seq<GlobalIP>, name: string): seq<IPConfig> {
    if groups == [] then []
    else
      var last := groups[|groups| - 1];
      GroupIPs(groups[..|groups| - 1], name) + (if last.name == name then last.ips else [])
  }

  function GroupNets(groups: seq<GlobalNet>, name: string): seq<NetConfig> {
    if groups == [] then []
    else
      var last := groups[|groups| - 1];
      GroupNets(groups[..|groups| - 1], name) + (if last.name == name then last.nets else [])
  }

  function ReferencedIPs(names: seq<string>, g: GlobalList): seq<IPConfig> {
    if names == [] then [] else ReferencedIPs(names[..|names| - 1], g) + GroupIPs(g.ip, names[|names| - 1])
  }

  function ReferencedNets(names: seq<string>, g: GlobalList): seq<NetConfig> {
    if names == [] then [] else ReferencedNets(names[..|names| - 1], g) + GroupNets(g.net, names[|names| - 1])
  }

  /** All rules a load balancer's list brings into force, its own before the referenced ones. */
  function AllIPs(l: IPReplacementList, g: GlobalList): seq<IPConfig> { l.ips + ReferencedIPs(l.globalIPs, g) }

  function AllNets(l: IPReplacementList, g: GlobalList): seq<NetConfig> { l.nets + ReferencedNets(l.globalNets, g) }

  function FirstIP(rules: seq<IPConfig>, ip: string): Option<IPConfig> {
    if rules == [] then None else if rules[0].source == ip then Some(rules[0]) else FirstIP(rules[1..], ip)
  }

  function FirstNet(c: Codec, rules: seq<NetConfig>, ip: string): Option<NetConfig> {
    if rules == [] then None else if Hits(c, ip, rules[0]) then Some(rules[0]) else FirstNet(c, rules[1..], ip)
  }

  /** The replacement of an address: address rules before network rules, first match first. */
  function Replacement(c: Codec, ip: string, l: IPReplacementList, g: GlobalList): string {
    match FirstIP(AllIPs(l, g), ip)
    case Some(r) => r.target
    case None =>
      match FirstNet(c, AllNets(l, g), ip)
      case Some(n) => NetImage(c, ip, n)
      case None => ip
  }

  lemma {:induction false} FirstIPAppend(a: seq<IPConfig>, b: seq<IPConfig>, ip: string)
    ensures FirstIP(a + b, ip) == if FirstIP(a, ip).Some? then FirstIP(a, ip) else FirstIP(b, ip)
  {
    if a == [] { assert a + b == b; } else {
      assert (a + b)[1..] == a[1..] + b;
      FirstIPAppend(a[1..], b, ip);
    }
  }

  lemma {:induction false} FirstNetAppend(c: Codec, a: seq<NetConfig>, b: seq<NetConfig>, ip: string)
    ensures FirstNet(c, a + b, ip) == if FirstNet(c, a, ip).Some? then FirstNet(c, a, ip) else FirstNet(c, b, ip)
  {
    if a == [] { assert a + b == b; } else {
      assert (a + b)[1..] == a[1..] + b;
      FirstNetAppend(c, a[1..], b, ip);
    }
  }

  method FindIP(rules: seq<IPConfig>, ip: string) returns (r: Option<IPConfig>)
    ensures r == FirstIP(rules, ip)
  {
    for i := 0 to |rules|
      invariant FirstIP(rules[i..], ip) == FirstIP(rules, ip)
    {
      if rules[i].source == ip { return Some(rules[i]); }
      assert rules[i..][1..] == rules[i + 1..];
    }
    return None;
  }

  method FindNet(c: Codec, rules: seq<NetConfig>, ip: string) returns (r: Option<NetConfig>)
    ensures r == FirstNet(c, rules, ip)
  {
    for i := 0 to |rules|
      invariant FirstNet(c, rules[i..], ip) == FirstNet(c, rules, ip)
    {
      if Hits(c, ip, rules[i]) { return Some(rules[i]); }
      assert rules[i..][1..] == rules[i + 1..];
    }
    return None;
  }

  lemma {:induction false} NextGroupIP(groups: seq<GlobalIP>, j: nat, name: string, ip: string)
    requires j < |groups| && FirstIP(GroupIPs(groups[..j], name), ip) == None
    ensures FirstIP(GroupIPs(groups[..j + 1], name), ip) ==
      if groups[j].name == name then FirstIP(groups[j].ips, ip) else None
  {
    hide FirstIP;
    assert groups[..j + 1][..j] == groups[..j];
    FirstIPAppend(GroupIPs(groups[..j], name), groups[j].ips, ip);
    assert GroupIPs(groups[..j], name) + [] == GroupIPs(groups[..j], name);
  }

  lemma {:induction false} NextReferencedIP(names: seq<string>, i: nat, g: GlobalList, ip: string)
    requires i < |names| && FirstIP(ReferencedIPs(names[..i], g), ip) == None
    ensures FirstIP(ReferencedIPs(names[..i + 1], g), ip) == FirstIP(GroupIPs(g.ip, names[i]), ip)
  {
    hide FirstIP, GroupIPs;
    assert names[..i + 1][..i] == names[..i];
    FirstIPAppend(ReferencedIPs(names[..i], g), GroupIPs(g.ip, names[i]), ip);
  }

  /** The groups of one name, in order. */
  method FindGroupIP(groups: seq<GlobalIP>, name: string, ip: string) returns (r: Option<IPConfig>)
    ensures r == FirstIP(GroupIPs(groups, name), ip)
  {
    assert groups[..0] == [] && FirstIP(GroupIPs([], name), ip) == None;
    hide FirstIP, GroupIPs;
    for j := 0 to |groups|
      invariant FirstIP(GroupIPs(groups[..j], name), ip) == None
    {
      NextGroupIP(groups, j, name, ip);
      if groups[j].name == name {
        r := FindIP(groups[j].ips, ip);
        if r.Some? {
          GroupPrefixIP(groups, j + 1, name, ip);
          return;
        }
      }
    }
    assert groups[..|groups|] == groups;
    return None;
  }

  method FindGlobalIP(names: seq<string>, g: GlobalList, ip: string) returns (r: Option<IPConfig>)
    ensures r == FirstIP(ReferencedIPs(names, g), ip)
  {
    assert names[..0] == [] && FirstIP(ReferencedIPs([], g), ip) == None;
    hide FirstIP, GroupIPs, ReferencedIPs;
    for i := 0 to |names|
      invariant FirstIP(ReferencedIPs(names[..i], g), ip) == None
    {
      NextReferencedIP(names, i, g, ip);
      r := FindGroupIP(g.ip, names[i], ip);
      if r.Some? {
        ReferencedPrefixIP(names, i + 1, g, ip);
        return;
      }
    }
    assert names[..|names|] == names;
    return None;
  }

  lemma {:induction false} GroupPrefixIP(groups: seq<GlobalIP>, j: nat, name: string, ip: string)
    requires j <= |groups| && FirstIP(GroupIPs(groups[..j], name), ip).Some?
    ensures FirstIP(GroupIPs(groups, name), ip) == FirstIP(GroupIPs(groups[..j], name), ip)
    decreases |groups|
  {
    if j == |groups| { assert groups[..j] == groups; } else {
      var n := |groups| - 1;
      assert groups[..n][..j] == groups[..j];
      GroupPrefixIP(groups[..n], j, name, ip);
      FirstIPAppend(GroupIPs(groups[..n], name), if groups[n].name == name then groups[n].ips else [], ip);
    }
  }

  lemma {:induction false} ReferencedPrefixIP(names: seq<string>, i: nat, g: GlobalList, ip: string)
    requires i <= |names| && FirstIP(ReferencedIPs(names[..i], g), ip).Some?
    ensures FirstIP(ReferencedIPs(names, g), ip) == FirstIP(ReferencedIPs(names[..i], g), ip)
    decreases |names|
  {
    if i == |names| { assert names[..i] == names; } else {
      var n := |names| - 1;
      assert names[..n][..i] == names[..i];
      ReferencedPrefixIP(names[..n], i, g, ip);
      FirstIPAppend(ReferencedIPs(names[..n], g), GroupIPs(g.ip, names[n]), ip);
    }
  }

  lemma {:induction false} NextGroupNet(c: Codec, groups: seq<GlobalNet>, j: nat, name: string, ip: string)
    requires j < |groups| && FirstNet(c, GroupNets(groups[..j], name), ip) == None
    ensures FirstNet(c, GroupNets(groups[..j + 1], name), ip) ==
      if groups[j].name == name then FirstNet(c, groups[j].nets, ip) else None
  {
    hide FirstNet;
    assert groups[..j + 1][..j] == groups[..j];
    FirstNetAppend(c, GroupNets(groups[..j], name), groups[j].nets, ip);
    assert GroupNets(groups[..j], name) + [] == GroupNets(groups[..j], name);
  }

  lemma {:induction false} NextReferencedNet(c: Codec, names: seq<string>, i: nat, g: GlobalList, ip: string)
    requires i < |names| && FirstNet(c, ReferencedNets(names[..i], g), ip) == None
    ensures FirstNet(c, ReferencedNets(names[..i + 1], g), ip) == FirstNet(c, GroupNets(g.net, names[i]), ip)
  {
    hide FirstNet, GroupNets;
    assert names[..i + 1][..i] == names[..i];
    FirstNetAppend(c, ReferencedNets(names[..i], g), GroupNets(g.net, names[i]), ip);
  }

  /** The groups of one name, in order. */
  method FindGroupNet(c: Codec, groups: seq<GlobalNet>, name: string, ip: string) returns (r: Option<NetConfig>)
    ensures r == FirstNet(c, GroupNets(groups, name), ip)
  {
    assert groups[..0] == [] && FirstNet(c, GroupNets([], name), ip) == None;
    hide FirstNet, GroupNets;
    for j := 0 to |groups|
      invariant FirstNet(c, GroupNets(groups[..j], name), ip) == None
    {
      NextGroupNet(c, groups, j, name, ip);
      if groups[j].name == name {
        r := FindNet(c, groups[j].nets, ip);
        if r.Some? {
          GroupPrefixNet(c, groups, j + 1, name, ip);
          return;
        }
      }
    }
    assert groups[..|groups|] == groups;
    return None;
  }

  method FindGlobalNet(c: Codec, names: seq<string>, g: GlobalList, ip: string) returns (r: Option<NetConfig>)
    ensures r == FirstNet(c, ReferencedNets(names, g), ip)
  {
    assert names[..0] == [] && FirstNet(c, ReferencedNets([], g), ip) == None;
    hide FirstNet, GroupNets, ReferencedNets;
    for i := 0 to |names|
      invariant FirstNet(c, ReferencedNets(names[..i], g), ip) == None
    {
      NextReferencedNet(c, names, i, g, ip);
      r := FindGroupNet(c, g.net, names[i], ip);
      if r.Some? {
        ReferencedPrefixNet(c, names, i + 1, g, ip);
        return;
      }
    }
    assert names[..|names|] == names;
    return None;
  }

  lemma {:induction false} GroupPrefixNet(c: Codec, groups: seq<GlobalNet>, j: nat, name: string, ip: string)
    requires j <= |groups| && FirstNet(c, GroupNets(groups[..j], name), ip).Some?
    ensures FirstNet(c, GroupNets(groups, name), ip) == FirstNet(c, GroupNets(groups[..j], name), ip)
    decreases |groups|
  {
    if j == |groups| { assert groups[..j] == groups; } else {
      var n := |groups| - 1;
      assert groups[..n][..j] == groups[..j];
      GroupPrefixNet(c, groups[..n], j, name, ip);
      FirstNetAppend(c, GroupNets(groups[..n], name), if groups[n].name == name then groups[n].nets else [], ip);
    }
  }

  lemma {:induction false} ReferencedPrefixNet(c: Codec, names: seq<string>, i: nat, g: GlobalList, ip: string)
    requires i <= |names| && FirstNet(c, ReferencedNets(names[..i], g), ip).Some?
    ensures FirstNet(c, ReferencedNets(names, g), ip) == FirstNet(c, ReferencedNets(names[..i], g), ip)
    decreases |names|
  {
    if i == |names| { assert names[..i] == names; } else {
      var n := |names| - 1;
      assert names[..n][..i] == names[..i];
      ReferencedPrefixNet(c, names[..n], i, g, ip);
      FirstNetAppend(c, ReferencedNets(names[..n], g), GroupNets(g.net, names[n]), ip);
    }
  }

  /** The nested first-match loops, in the order the code runs them. */
  method ApplyIPReplacement(c: Codec, ip: string, l: IPReplacementList, g: GlobalList) returns (r: string)
    ensures r == Replacement(c, ip, l, g)
  {
    FirstIPAppend(l.ips, ReferencedIPs(l.globalIPs, g), ip);
    FirstNetAppend(c, l.nets, ReferencedNets(l.globalNets, g), ip);
    var rule := FindIP(l.ips, ip);
    if rule.Some? { return rule.value.target; }
    rule := FindGlobalIP(l.globalIPs, g, ip);
    if rule.Some? { return rule.value.target; }
    var net := FindNet(c, l.nets, ip);
    if net.Some? { return NetImage(c, ip, net.value); }
    net := FindGlobalNet(c, l.globalNets, g, ip);
    if net.Some? { return NetImage(c, ip, net.value); }
    return ip;
  }

  // ------------------------------------------- rules that never compete

  ghost predicate DistinctSources(rules: seq<IPConfig>) {
    forall i, j :: 0 <= i < j < |rules| ==> rules[i].source != rules[j].source
  }

  /** No address is in the source networks of two of the rules. */
  ghost predicate Apart(c: Codec, nets: seq<NetConfig>) {
    forall i, j :: 0 <= i < j < |nets| ==> !Shares(c, nets[i], nets[j])
  }

  lemma {:induction false} FirstIPMember(rules: seq<IPConfig>, ip: string)
    ensures FirstIP(rules, ip).Some? ==> FirstIP(rules, ip).value in rules && FirstIP(rules, ip).value.source == ip
    ensures FirstIP(rules, ip).None? ==> forall r :: r in rules ==> r.source != ip
  {
    if rules != [] {
      assert rules == [rules[0]] + rules[1..];
      FirstIPMember(rules[1..], ip);
    }
  }

  lemma {:induction false} FirstNetMember(c: Codec, rules: seq<NetConfig>, ip: string)
    ensures FirstNet(c, rules, ip).Some? ==>
      FirstNet(c, rules, ip).value in rules && Within(c, ip, FirstNet(c, rules, ip).value)
    ensures FirstNet(c, rules, ip).None? ==> forall n :: n in rules ==> !Within(c, ip, n)
  {
    hide Within, Hits;
    if rules != [] {
      HitsIff(c, ip, rules[0]);
      assert rules == [rules[0]] + rules[1..];
      FirstNetMember(c, rules[1..], ip);
    }
  }

  lemma {:induction false} HitsOnce(c: Codec, nets: seq<NetConfig>, ip: string, m: NetConfig, n: NetConfig)
    requires Apart(c, nets) && m in nets && n in nets && Within(c, ip, m) && Within(c, ip, n)
    ensures m == n
  {
    hide InSource;
    var i :| 0 <= i < |nets| && nets[i] == m;
    var j :| 0 <= j < |nets| && nets[j] == n;
    assert Shares(c, m, n) && Shares(c, n, m);
  }

  ghost predicate FirstSource(rules: seq<IPConfig>, ip: string, i: int) {
    0 <= i < |rules| && rules[i].source == ip && forall j :: 0 <= j < i ==> rules[j].source != ip
  }

  ghost predicate FirstHolding(c: Codec, rules: seq<NetConfig>, ip: string, i: int) {
    0 <= i < |rules| && Within(c, ip, rules[i]) && forall j :: 0 <= j < i ==> !Within(c, ip, rules[j])
  }

  /** Whatever the rules, the first address rule for the text decides, or else the first network rule that holds it. */
  lemma FirstMatchWins(c: Codec, ip: string, l: IPReplacementList, g: GlobalList)
    ensures forall i :: FirstSource(AllIPs(l, g), ip, i) ==> Replacement(c, ip, l, g) == AllIPs(l, g)[i].target
    ensures (forall r :: r in AllIPs(l, g) ==> r.source != ip) ==>
      && (forall i :: FirstHolding(c, AllNets(l, g), ip, i) ==>
            Replacement(c, ip, l, g) == NetImage(c, ip, AllNets(l, g)[i]))
      && ((forall n :: n in AllNets(l, g) ==> !Within(c, ip, n)) ==> Replacement(c, ip, l, g) == ip)
  {
    hide Within;
    var ips, nets := AllIPs(l, g), AllNets(l, g);
    FirstIPAt(ips, ip);
    FirstNetAt(c, nets, ip);
  }

  lemma {:induction false} FirstIPAt(rules: seq<IPConfig>, ip: string)
    ensures
      match FirstIP(rules, ip)
      case Some(r) => exists i :: FirstSource(rules, ip, i) && rules[i] == r
      case None => forall r :: r in rules ==> r.source != ip
  {
    FirstIPMember(rules, ip);
    if rules != [] {
      if rules[0].source == ip {
        assert FirstSource(rules, ip, 0);
      } else if FirstIP(rules, ip).Some? {
        FirstIPAt(rules[1..], ip);
        var i :| FirstSource(rules[1..], ip, i) && rules[1..][i] == FirstIP(rules, ip).value;
        assert forall j :: 0 < j < i + 1 ==> rules[j] == rules[1..][j - 1];
        assert FirstSource(rules, ip, i + 1);
      }
    }
  }

  lemma {:induction false} FirstNetAt(c: Codec, rules: seq<NetConfig>, ip: string)
    ensures
      match FirstNet(c, rules, ip)
      case Some(n) => exists i :: FirstHolding(c, rules, ip, i) && rules[i] == n
      case None => forall n :: n in rules ==> !Within(c, ip, n)
  {
    hide Within, Hits;
    FirstNetMember(c, rules, ip);
    if rules != [] {
      HitsIff(c, ip, rules[0]);
      if Hits(c, ip, rules[0]) {
        assert FirstHolding(c, rules, ip, 0);
      } else if FirstNet(c, rules, ip).Some? {
        FirstNetAt(c, rules[1..], ip);
        var i :| FirstHolding(c, rules[1..], ip, i) && rules[1..][i] == FirstNet(c, rules, ip).value;
        assert forall j :: 0 < j < i + 1 ==> rules[j] == rules[1..][j - 1];
        assert FirstHolding(c, rules, ip, i + 1);
      }
    }
  }

  /** The rules in force are the list's own and those of the groups it names, in the order of the references and, for
      each of them, of the groups. */
  lemma {:induction false} RulesInForce(a: seq<string>, b: seq<string>, g: GlobalList, name: string)
    ensures ReferencedIPs(a + b, g) == ReferencedIPs(a, g) + ReferencedIPs(b, g)
    ensures ReferencedNets(a + b, g) == ReferencedNets(a, g) + ReferencedNets(b, g)
    ensures ReferencedIPs([name], g) == GroupIPs(g.ip, name) && ReferencedNets([name], g) == GroupNets(g.net, name)
  {
    assert [name][..0] == [];
    if b == [] {
      assert a + b == a;
    } else {
      var n := |b| - 1;
      assert (a + b)[..|a + b| - 1] == a + b[..n];
      RulesInForce(a, b[..n], g, name);
    }
  }

  /** Of the groups exactly those of this name count. */
  lemma {:induction false} GroupIPsInForce(a: seq<GlobalIP>, b: seq<GlobalIP>, group: GlobalIP, name: string)
    ensures GroupIPs(a + b, name) == GroupIPs(a, name) + GroupIPs(b, name)
    ensures GroupIPs([group], name) == if group.name == name then group.ips else []
  {
    assert [group][..0] == [];
    if b == [] {
      assert a + b == a;
    } else {
      var n := |b| - 1;
      assert (a + b)[..|a + b| - 1] == a + b[..n];
      GroupIPsInForce(a, b[..n], group, name);
    }
  }

  lemma {:induction false} GroupNetsInForce(a: seq<GlobalNet>, b: seq<GlobalNet>, group: GlobalNet, name: string)
    ensures GroupNets(a + b, name) == GroupNets(a, name) + GroupNets(b, name)
    ensures GroupNets([group], name) == if group.name == name then group.nets else []
  {
    assert [group][..0] == [];
    if b == [] {
      assert a + b == a;
    } else {
      var n := |b| - 1;
      assert (a + b)[..|a + b| - 1] == a + b[..n];
      GroupNetsInForce(a, b[..n], group, name);
    }
  }

  /** With rules that never compete, any rule that matches is the one applied, address rules first. */
  lemma Unambiguous(c: Codec, ip: string, l: IPReplacementList, g: GlobalList)
    requires DistinctSources(AllIPs(l, g)) && Apart(c, AllNets(l, g))
    ensures forall r :: r in AllIPs(l, g) && r.source == ip ==> Replacement(c, ip, l, g) == r.target
    ensures forall n :: n in AllNets(l, g) && Within(c, ip, n) && (forall r :: r in AllIPs(l, g) ==> r.source != ip) ==>
      Replacement(c, ip, l, g) == NetImage(c, ip, n)
    ensures
      (forall r :: r in AllIPs(l, g) ==> r.source != ip) && (forall n :: n in AllNets(l, g) ==> !Within(c, ip, n)) ==>
        Replacement(c, ip, l, g) == ip
  {
    var ips, nets := AllIPs(l, g), AllNets(l, g);
    FirstIPMember(ips, ip);
    FirstNetMember(c, nets, ip);
    forall r | r in ips && r.source == ip ensures FirstIP(ips, ip) == Some(r) {
      var i :| 0 <= i < |ips| && ips[i] == r;
      var j :| 0 <= j < |ips| && ips[j] == FirstIP(ips, ip).value;
    }
    forall n | n in nets && Within(c, ip, n) ensures FirstNet(c, nets, ip) == Some(n) {
      HitsOnce(c, nets, ip, n, FirstNet(c, nets, ip).value);
    }
  }

  /** So the order of the rules, of the groups and of the references to them does not matter. */
  lemma OrderIrrelevant(c: Codec, ip: string, l: IPReplacementList, g: GlobalList, l': IPReplacementList,
      g': GlobalList)
    requires DistinctSources(AllIPs(l, g)) && Apart(c, AllNets(l, g))
    requires forall r :: r in AllIPs(l, g) <==> r in AllIPs(l', g')
    requires forall n :: n in AllNets(l, g) <==> n in AllNets(l', g')
    ensures Replacement(c, ip, l', g') == Replacement(c, ip, l, g)
  {
    Unambiguous(c, ip, l, g);
    FirstIPMember(AllIPs(l', g'), ip);
    FirstNetMember(c, AllNets(l', g'), ip);
  }

  // ------------------------------------------------- rewriting, end to end

  /** A network rule that matches moves the address into the target network, keeps its host bits,
      and the mirrored rule moves it back. */
  lemma NetImageRoundTrip(c: Codec, ip: string, n: NetConfig)
    requires Sound(c) && Within(c, ip, n)
    requires c.parse(n.target).Some? && |c.parse(n.target).value| == |c.parse(n.source).value|
    requires !Mapped(Rewritten(c.parse(ip).value, c.parse(n.target).value, n.mask))
    ensures
      var y, mirrored := NetImage(c, ip, n), NetConfig(n.target, n.source, n.mask);
      && Within(c, y, mirrored)
      && c.parse(y) == Some(Rewritten(c.parse(ip).value, c.parse(n.target).value, n.mask))
      && c.parse(NetImage(c, y, mirrored)) == c.parse(ip)
  {
    var a, s, t := c.parse(ip).value, c.parse(n.source).value, c.parse(n.target).value;
    HitsIff(c, ip, n);
    assert InNet(a, s, n.mask);
    RewriteRoundTrip(a, s, t, n.mask);
    HitsIff(c, NetImage(c, ip, n), NetConfig(n.target, n.source, n.mask));
    assert To16(a) == a || |a| == 4;
  }
}

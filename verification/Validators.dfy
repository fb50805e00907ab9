/** The configuration checks on replacement rules: each accepts exactly the lists its specification describes. */
module Validators {
  import opened Rewriting

  predicate IsValidIP(c: Codec, ip: string) { c.parse(ip).Some? }

  function MaxMask(c: Codec, source: string): int {
    match c.parse(source)
    case Some(a) => if |a| == 4 then 32 else 128
    case None => 32
  }

  /** Two addresses, and a mask that fits the width of the first. */
  predicate ValidNet(c: Codec, n: NetConfig) {
    match (c.parse(n.source), c.parse(n.target))
    case (Some(s), Some(_)) => 0 <= n.mask <= if |s| == 4 then 32 else 128
    case _ => false
  }

  predicate ValidIPRule(c: Codec, r: IPConfig) { c.parse(r.source).Some? && c.parse(r.target).Some? }

  ghost predicate ValidNets(c: Codec, nets: seq<NetConfig>) {
    (forall i :: 0 <= i < |nets| ==> ValidNet(c, nets[i])) && Apart(c, nets)
  }

  ghost predicate ValidIPs(c: Codec, ips: seq<IPConfig>) {
    (forall i :: 0 <= i < |ips| ==> ValidIPRule(c, ips[i])) && DistinctSources(ips)
  }

  lemma {:induction false} SharesSymmetric(c: Codec, m: NetConfig, n: NetConfig)
    ensures Shares(c, m, n) <==> Shares(c, n, m)
  {
    hide InSource;
  }

  // ------------------------------------------------- shared by both checks

  /** Every network well formed and none overlapping another. */
  method CheckNets(c: Codec, nets: seq<NetConfig>) returns (ok: bool)
    ensures ok <==> ValidNets(c, nets)
  {
    for i := 0 to |nets|
      invariant forall k :: 0 <= k < i ==> ValidNet(c, nets[k])
      invariant forall k, j :: 0 <= k < i && 0 <= j < |nets| && k != j ==> !Shares(c, nets[k], nets[j])
    {
      hide Shares;
      if !IsValidIP(c, nets[i].source) || !IsValidIP(c, nets[i].target) { return false; }
      if nets[i].mask < 0 || nets[i].mask > MaxMask(c, nets[i].source) { return false; }
      for j := 0 to |nets|
        invariant forall k :: 0 <= k < j && k != i ==> !Shares(c, nets[i], nets[k])
      {
        if i == j { continue; }
        NetsOverlapIff(c, nets[i], nets[j]);
        if NetsOverlap(c, nets[i], nets[j]) {
          SharesSymmetric(c, nets[i], nets[j]);
          return false;
        }
      }
    }
    return true;
  }

  /** Every address rule well formed and no source twice. */
  method CheckIPs(c: Codec, ips: seq<IPConfig>) returns (ok: bool)
    ensures ok <==> ValidIPs(c, ips)
  {
    var sources: set<string> := {};
    for i := 0 to |ips|
      invariant forall k :: 0 <= k < i ==> ValidIPRule(c, ips[k])
      invariant forall s :: s in sources <==> exists k :: 0 <= k < i && ips[k].source == s
      invariant DistinctSources(ips[..i])
    {
      if !IsValidIP(c, ips[i].source) || !IsValidIP(c, ips[i].target) { return false; }
      if ips[i].source in sources { return false; }
      sources := sources + {ips[i].source};
    }
    assert ips[..|ips|] == ips;
    return true;
  }

  // -------------------------------------------- util.ValidateIPReplacementList

  ghost predicate NetGroupExists(g: GlobalList, name: string) { exists k :: 0 <= k < |g.net| && g.net[k].name == name }

  ghost predicate IPGroupExists(g: GlobalList, name: string) { exists k :: 0 <= k < |g.ip| && g.ip[k].name == name }

  ghost predicate ListOk(c: Codec, l: IPReplacementList, g: GlobalList) {
    && ValidNets(c, l.nets) && ValidIPs(c, l.ips)
    && (forall name :: name in l.globalNets ==> NetGroupExists(g, name))
    && (forall name :: name in l.globalIPs ==> IPGroupExists(g, name))
  }

  method ValidateIPReplacementList(c: Codec, l: IPReplacementList, g: GlobalList) returns (ok: bool)
    ensures ok <==> ListOk(c, l, g)
  {
    var netsOk := CheckNets(c, l.nets);
    if !netsOk { return false; }
    var ipsOk := CheckIPs(c, l.ips);
    if !ipsOk { return false; }
    var netNames: set<string> := {};
    for k := 0 to |g.net|
      invariant forall s :: s in netNames <==> exists j :: 0 <= j < k && g.net[j].name == s
    {
      netNames := netNames + {g.net[k].name};
    }
    for i := 0 to |l.globalNets|
      invariant forall k :: 0 <= k < i ==> NetGroupExists(g, l.globalNets[k])
    {
      assert l.globalNets[i] in l.globalNets;
      if l.globalNets[i] !in netNames { return false; }
    }
    var ipNames: set<string> := {};
    for k := 0 to |g.ip|
      invariant forall s :: s in ipNames <==> exists j :: 0 <= j < k && g.ip[j].name == s
    {
      ipNames := ipNames + {g.ip[k].name};
    }
    for i := 0 to |l.globalIPs|
      invariant forall k :: 0 <= k < i ==> IPGroupExists(g, l.globalIPs[k])
    {
      assert l.globalIPs[i] in l.globalIPs;
      if l.globalIPs[i] !in ipNames { return false; }
    }
    return true;
  }

  // -------------------------- LoadBalancerValidator.validateIPReplacementList

  /** What the check of one load balancer's list guarantees: no two rules in force compete. */
  ghost predicate LoadBalancerListOk(c: Codec, l: IPReplacementList, g: GlobalList) {
    ListOk(c, l, g) && Apart(c, AllNets(l, g)) && DistinctSources(AllIPs(l, g))
  }

  method CollectNets(l: IPReplacementList, g: GlobalList) returns (all: seq<NetConfig>)
    ensures all == ReferencedNets(l.globalNets, g)
  {
    all := [];
    for i := 0 to |l.globalNets|
      invariant all == ReferencedNets(l.globalNets[..i], g)
    {
      ghost var before := all;
      for j := 0 to |g.net|
        invariant all == before + GroupNets(g.net[..j], l.globalNets[i])
      {
        assert g.net[..j + 1][..j] == g.net[..j];
        if g.net[j].name == l.globalNets[i] { all := all + g.net[j].nets; }
      }
      assert g.net[..|g.net|] == g.net;
      assert l.globalNets[..i + 1][..i] == l.globalNets[..i];
    }
    assert l.globalNets[..|l.globalNets|] == l.globalNets;
  }

  /** Referenced networks against each other and against the list's own. */
  method CheckApart(c: Codec, own: seq<NetConfig>, all: seq<NetConfig>) returns (ok: bool)
    requires Apart(c, own)
    ensures ok <==> Apart(c, own + all)
  {
    for i := 0 to |all|
      invariant forall k, j :: 0 <= k < i && k < j < |all| ==> !Shares(c, all[k], all[j])
      invariant forall k, j :: 0 <= k < i && 0 <= j < |own| ==> !Shares(c, own[j], all[k])
    {
      hide Shares;
      for j := i + 1 to |all|
        invariant forall k :: i < k < j ==> !Shares(c, all[i], all[k])
      {
        NetsOverlapIff(c, all[i], all[j]);
        if NetsOverlap(c, all[i], all[j]) {
          assert (own + all)[|own| + i] == all[i] && (own + all)[|own| + j] == all[j];
          return false;
        }
      }
      for j := 0 to |own|
        invariant forall k :: 0 <= k < j ==> !Shares(c, own[k], all[i])
      {
        NetsOverlapIff(c, all[i], own[j]);
        SharesSymmetric(c, all[i], own[j]);
        if NetsOverlap(c, all[i], own[j]) {
          assert (own + all)[j] == own[j] && (own + all)[|own| + i] == all[i];
          return false;
        }
      }
    }
    return true;
  }

  /** No source already seen, and none of the list's own. */
  method CheckGroupSources(own: seq<IPConfig>, ips: seq<IPConfig>, ghost before: seq<IPConfig>, seen: set<string>)
    returns (ok: bool, seen': set<string>)
    requires DistinctSources(own + before)
    requires forall s :: s in seen <==> exists k :: 0 <= k < |before| && before[k].source == s
    ensures ok <==> DistinctSources(own + before + ips)
    ensures ok ==> forall s :: s in seen' <==> exists k :: 0 <= k < |before + ips| && (before + ips)[k].source == s
  {
    seen' := seen;
    assert own + before + ips[..0] == own + before;
    for i := 0 to |ips|
      invariant DistinctSources(own + before + ips[..i])
      invariant forall s :: s in seen' <==> s in seen || exists k :: 0 <= k < i && ips[k].source == s
    {
      ghost var done := own + before + ips[..i];
      var s := ips[i].source;
      assert own + before + ips[..i + 1] == done + [ips[i]];
      if s in seen' {
        if s in seen {
          ghost var k :| 0 <= k < |before| && before[k].source == s;
          Repeated(own + before + ips, |own| + k, |own| + |before| + i);
        } else {
          ghost var k :| 0 <= k < i && ips[k].source == s;
          Repeated(own + before + ips, |own| + |before| + k, |own| + |before| + i);
        }
        return false, seen';
      }
      seen' := seen' + {s};
      for j := 0 to |own|
        invariant forall k :: 0 <= k < j ==> own[k].source != s
      {
        if s == own[j].source {
          Repeated(own + before + ips, j, |own| + |before| + i);
          return false, seen';
        }
      }
      forall k | 0 <= k < |done| ensures done[k].source != s {
        if |own| <= k < |own| + |before| { assert before[k - |own|].source == done[k].source; }
        if |own| + |before| <= k { assert ips[k - |own| - |before|].source == done[k].source; }
      }
    }
    assert ips[..|ips|] == ips;
    forall s ensures s in seen' <==> exists k :: 0 <= k < |before + ips| && (before + ips)[k].source == s {
      SourcesOfBoth(before, ips, s);
    }
    return true, seen';
  }

  lemma {:induction false} Repeated(rules: seq<IPConfig>, i: nat, j: nat)
    requires i < j < |rules| && rules[i].source == rules[j].source
    ensures !DistinctSources(rules)
  {
  }

  lemma SourcesOfBoth(a: seq<IPConfig>, b: seq<IPConfig>, s: string)
    ensures (exists k :: 0 <= k < |a + b| && (a + b)[k].source == s) <==>
      (exists k :: 0 <= k < |a| && a[k].source == s) || (exists k :: 0 <= k < |b| && b[k].source == s)
  {
    if k :| 0 <= k < |a + b| && (a + b)[k].source == s {
      if k < |a| { assert a[k].source == s; } else { assert b[k - |a|].source == s; }
    }
    if k :| 0 <= k < |a| && a[k].source == s { assert (a + b)[k].source == s; }
    if k :| 0 <= k < |b| && b[k].source == s { assert (a + b)[|a| + k].source == s; }
  }

  lemma DistinctPrefix(a: seq<IPConfig>, b: seq<IPConfig>)
    requires DistinctSources(a + b)
    ensures DistinctSources(a)
  {
    forall i, j | 0 <= i < j < |a| ensures a[i].source != a[j].source {
      assert (a + b)[i] == a[i] && (a + b)[j] == a[j];
    }
  }

  method CheckSources(l: IPReplacementList, g: GlobalList) returns (ok: bool)
    requires DistinctSources(l.ips)
    ensures ok <==> DistinctSources(AllIPs(l, g))
  {
    hide DistinctSources;
    var seen: set<string> := {};
    assert l.ips + [] == l.ips;
    for i := 0 to |l.globalIPs|
      invariant DistinctSources(l.ips + ReferencedIPs(l.globalIPs[..i], g))
      invariant forall s :: s in seen <==>
        exists k :: 0 <= k < |ReferencedIPs(l.globalIPs[..i], g)| && ReferencedIPs(l.globalIPs[..i], g)[k].source == s
    {
      ghost var before := ReferencedIPs(l.globalIPs[..i], g);
      ghost var name := l.globalIPs[i];
      assert before + GroupIPs(g.ip[..0], name) == before;
      for j := 0 to |g.ip|
        invariant DistinctSources(l.ips + (before + GroupIPs(g.ip[..j], name)))
        invariant forall s :: s in seen <==>
          exists k ::
            0 <= k < |before + GroupIPs(g.ip[..j], name)| && (before + GroupIPs(g.ip[..j], name))[k].source == s
      {
        ghost var sofar := before + GroupIPs(g.ip[..j], name);
        assert g.ip[..j + 1][..j] == g.ip[..j];
        if g.ip[j].name == l.globalIPs[i] {
          var groupOk, seen2 := CheckGroupSources(l.ips, g.ip[j].ips, sofar, seen);
          assert l.ips + sofar + g.ip[j].ips == l.ips + (before + GroupIPs(g.ip[..j + 1], name));
          if !groupOk {
            LaterSources(l, g, i, j + 1);
            return false;
          }
          seen := seen2;
          assert sofar + g.ip[j].ips == before + GroupIPs(g.ip[..j + 1], name);
        } else {
          assert GroupIPs(g.ip[..j + 1], name) == GroupIPs(g.ip[..j], name);
        }
      }
      assert g.ip[..|g.ip|] == g.ip;
      assert l.globalIPs[..i + 1][..i] == l.globalIPs[..i];
    }
    assert l.globalIPs[..|l.globalIPs|] == l.globalIPs;
    return true;
  }

  /** What was found repeated stays repeated in the whole list. */
  lemma LaterSources(l: IPReplacementList, g: GlobalList, i: nat, j: nat)
    requires i < |l.globalIPs| && j <= |g.ip|
    requires !DistinctSources(l.ips + (ReferencedIPs(l.globalIPs[..i], g) + GroupIPs(g.ip[..j], l.globalIPs[i])))
    ensures !DistinctSources(AllIPs(l, g))
  {
    var rest := GroupRest(g.ip, j, l.globalIPs[i]);
    assert l.globalIPs[..i + 1][..i] == l.globalIPs[..i];
    var tail := ReferencedRest(l.globalIPs, i + 1, g);
    var part := l.ips + (ReferencedIPs(l.globalIPs[..i], g) + GroupIPs(g.ip[..j], l.globalIPs[i]));
    assert AllIPs(l, g) == part + (rest + tail);
    if DistinctSources(AllIPs(l, g)) { DistinctPrefix(part, rest + tail); }
  }

  lemma {:induction false} GroupRest(groups: seq<GlobalIP>, j: nat, name: string) returns (rest: seq<IPConfig>)
    requires j <= |groups|
    ensures GroupIPs(groups, name) == GroupIPs(groups[..j], name) + rest
    decreases |groups|
  {
    if j == |groups| { assert groups[..j] == groups; rest := []; } else {
      var n := |groups| - 1;
      assert groups[..n][..j] == groups[..j];
      var r := GroupRest(groups[..n], j, name);
      rest := r + (if groups[n].name == name then groups[n].ips else []);
    }
  }

  lemma {:induction false} ReferencedRest(names: seq<string>, i: nat, g: GlobalList) returns (rest: seq<IPConfig>)
    requires i <= |names|
    ensures ReferencedIPs(names, g) == ReferencedIPs(names[..i], g) + rest
    decreases |names|
  {
    if i == |names| { assert names[..i] == names; rest := []; } else {
      var n := |names| - 1;
      assert names[..n][..i] == names[..i];
      var r := ReferencedRest(names[..n], i, g);
      rest := r + GroupIPs(g.ip, names[n]);
    }
  }

  method ValidateLoadBalancerList(c: Codec, l: IPReplacementList, g: GlobalList) returns (ok: bool)
    ensures ok <==> LoadBalancerListOk(c, l, g)
  {
    var listOk := ValidateIPReplacementList(c, l, g);
    if !listOk { return false; }
    var all := CollectNets(l, g);
    var apart := CheckApart(c, l.nets, all);
    if !apart { return false; }
    ok := CheckSources(l, g);
  }

  // ------------------------------------ GlobalIPReplacementValidator.Validate

  ghost predicate NamesOk(names: seq<string>) {
    (forall i :: 0 <= i < |names| ==> names[i] != "") && forall i, j :: 0 <= i < j < |names| ==> names[i] != names[j]
  }

  function NetGroupNames(g: GlobalList): seq<string> { seq(|g.net|, i requires 0 <= i < |g.net| => g.net[i].name) }

  function IPGroupNames(g: GlobalList): seq<string> { seq(|g.ip|, i requires 0 <= i < |g.ip| => g.ip[i].name) }

  ghost predicate GlobalOk(c: Codec, g: GlobalList) {
    && NamesOk(NetGroupNames(g) + IPGroupNames(g))
    && (forall k :: 0 <= k < |g.net| ==> ValidNets(c, g.net[k].nets))
    && (forall k :: 0 <= k < |g.ip| ==> ValidIPs(c, g.ip[k].ips))
  }

  method CheckNames(names: seq<string>) returns (ok: bool)
    ensures ok <==> NamesOk(names)
  {
    var seen: set<string> := {};
    for i := 0 to |names|
      invariant forall s :: s in seen <==> exists k :: 0 <= k < i && names[k] == s
      invariant NamesOk(names[..i])
    {
      if names[i] == "" { return false; }
      if names[i] in seen { return false; }
      seen := seen + {names[i]};
    }
    assert names[..|names|] == names;
    return true;
  }

  method ValidateGlobal(c: Codec, g: GlobalList) returns (ok: bool)
    ensures ok <==> GlobalOk(c, g)
  {
    ok := CheckNames(NetGroupNames(g) + IPGroupNames(g));
    if !ok { return; }
    for k := 0 to |g.net|
      invariant forall j :: 0 <= j < k ==> ValidNets(c, g.net[j].nets)
    {
      ok := CheckNets(c, g.net[k].nets);
      if !ok { return; }
    }
    for k := 0 to |g.ip|
      invariant forall j :: 0 <= j < k ==> ValidIPs(c, g.ip[j].ips)
    {
      ok := CheckIPs(c, g.ip[k].ips);
      if !ok { return; }
    }
    return true;
  }

  // ------------------------------------------------------- what they buy

  /** An accepted list replaces any address in one way only, whatever the order of rules, groups and references. */
  lemma AcceptedIsUnambiguous(c: Codec, ip: string, l: IPReplacementList, g: GlobalList, l': IPReplacementList,
      g': GlobalList)
    requires LoadBalancerListOk(c, l, g)
    requires forall r :: r in AllIPs(l, g) <==> r in AllIPs(l', g')
    requires forall n :: n in AllNets(l, g) <==> n in AllNets(l', g')
    ensures Replacement(c, ip, l', g') == Replacement(c, ip, l, g)
    ensures forall r :: r in AllIPs(l, g) && r.source == ip ==> Replacement(c, ip, l', g') == r.target
    ensures forall n :: n in AllNets(l, g) && Within(c, ip, n) && (forall r :: r in AllIPs(l, g) ==> r.source != ip) ==>
      Replacement(c, ip, l', g') == NetImage(c, ip, n)
    ensures
      (forall r :: r in AllIPs(l, g) ==> r.source != ip) && (forall n :: n in AllNets(l, g) ==> !Within(c, ip, n)) ==>
        Replacement(c, ip, l', g') == ip
  {
    Unambiguous(c, ip, l, g);
    OrderIrrelevant(c, ip, l, g, l', g');
  }
}

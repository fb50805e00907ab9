/** Conservation of weight, from the pods of the cluster to the backends of a load balancer. */
module Conservation {
  import opened Backends
  import opened Diff
  import opened Cluster
  import opened Steps
  import opened Runs
  import opened Reconciled

  /** No claim is counted as less than one, so clamping changes nothing. */
  lemma {:induction false} CountPositive(v: View, cfg: Config, svcs: set<Service>, k: BKey)
    requires k in Demand(v, cfg, svcs)
    ensures Demand(v, cfg, svcs)[k] >= 1
  {
    var c :| c in Claims(v, svcs) && KeyOf(v, cfg)(c) == k;
    assert c in Class(Claims(v, svcs), KeyOf(v, cfg), k);
  }

  lemma {:induction false} LastTally(s: seq<Backend>)
    requires s != [] && DistinctKeys(s)
    ensures
      var n := |s| - 1;
      && s[n].Key() in TallyOf(s) && TallyOf(s)[s[n].Key()] == s[n].weight
      && TallyOf(s[..n]) == TallyOf(s) - {s[n].Key()}
      && TallyOf(s) == TallyOf(s[..n])[s[n].Key() := s[n].weight] && s[n].Key() !in TallyOf(s[..n])
  {
    TallyKeys(s[..|s| - 1]);
  }

  lemma {:induction false} DistinctInit(s: seq<Backend>)
    requires DistinctKeys(s)
    ensures s != [] ==> DistinctKeys(s[..|s| - 1])
  {
  }

  lemma {:induction false} ListedSum(s: seq<Backend>)
    requires DistinctKeys(s) && forall i :: 0 <= i < |s| ==> s[i].weight >= 1
    ensures SumClamped(s) == Total(TallyOf(s))
  {
    DistinctInit(s);
    if s != [] {
      var n := |s| - 1;
      LastTally(s);
      hide TallyOf, Total, DistinctKeys;
      ListedSum(s[..n]);
      TotalSet(TallyOf(s[..n]), s[n].Key(), s[n].weight);
    }
  }

  /** What the load balancer is told weighs as much as there are serving pods, over all services sharing the upstream:
      nothing is lost when rewriting, merging, canonical ordering or the adapter's own aggregation by address joins
      backends. */
  lemma {:induction false} WeightConserved(v: View, cfg: Config, svcs: set<Service>)
    ensures Total(Wanted(Listed(Demand(v, cfg, svcs)))) == |ReadyClaims(v, svcs)|
  {
    var t := Demand(v, cfg, svcs);
    var s := Listed(t);
    CanonicalDistinct(s);
    TallyMembers(s);
    forall i | 0 <= i < |s| ensures s[i].weight >= 1 {
      assert s[i] in s;
      CountPositive(v, cfg, svcs, s[i].Key());
    }
    ListedSum(s);
    WantedConserves(s);
    DemandConserves(v, cfg, svcs);
  }

  // ------------------------------------------------- address by address

  /** How the adapter names an address and port. */
  function NameOf(k: BKey): string { BackendKey(Backend(k.ip, k.port, 1)) }

  ghost function Named<X(!new)>(xs: set<X>, f: X -> BKey, name: string): set<X> {
    set x | x in xs && NameOf(f(x)) == name
  }

  lemma {:induction false} NamedSplit<X(!new)>(xs: set<X>, f: X -> BKey, k: BKey, name: string)
    ensures |Named(xs, f, name)| ==
      |Named(xs - Class(xs, f, k), f, name)| + (if NameOf(k) == name then |Class(xs, f, k)| else 0)
  {
    hide NameOf;
    var rest := Named(xs - Class(xs, f, k), f, name);
    if NameOf(k) == name {
      assert Named(xs, f, name) == rest + Class(xs, f, k);
    } else {
      assert Named(xs, f, name) == rest;
    }
  }

  lemma {:induction false} WithoutClass<X(!new)>(xs: set<X>, f: X -> BKey, k: BKey)
    ensures CountBy(xs - Class(xs, f, k), f) == CountBy(xs, f) - {k}
  {
    var l, r := CountBy(xs - Class(xs, f, k), f), CountBy(xs, f) - {k};
    forall j ensures j in l <==> j in r {
      if j in r {
        var x :| x in xs && f(x) == j;
        assert x in xs - Class(xs, f, k);
      }
    }
    forall j | j in l ensures l[j] == r[j] { assert Class(xs - Class(xs, f, k), f, j) == Class(xs, f, j); }
  }

  lemma {:induction false} Counted<X(!new)>(xs: set<X>, f: X -> BKey)
    ensures forall x :: x in xs ==> f(x) in CountBy(xs, f)
  {
  }

  /** Aggregated by name, a list that counts `xs` by key counts them by name. */
  lemma {:induction false} NamedWeight<X(!new)>(s: seq<Backend>, xs: set<X>, f: X -> BKey, name: string)
    requires DistinctKeys(s) && TallyOf(s) == CountBy(xs, f)
    ensures name in Wanted(s) <==> Named(xs, f, name) != {}
    ensures name in Wanted(s) ==> Wanted(s)[name] == |Named(xs, f, name)|
  {
    if s == [] {
      Counted(xs, f);
    } else {
      var n := |s| - 1;
      var k := s[n].Key();
      LastTally(s);
      WithoutClass(xs, f, k);
      NamedWeight(s[..n], xs - Class(xs, f, k), f, name);
      NamedSplit(xs, f, k, name);
      WantedStep(Desired(s[..n]), s[n]);
      assert |Class(xs, f, k)| == s[n].weight;
      ClassPositive(xs, f, k);
      NameIs(s[n]);
    }
  }

  lemma {:induction false} NameIs(b: Backend)
    ensures NameOf(b.Key()) == BackendKey(b)
  {
  }

  lemma {:induction false} ClassPositive<X(!new)>(xs: set<X>, f: X -> BKey, k: BKey)
    requires k in CountBy(xs, f)
    ensures |Class(xs, f, k)| >= 1
  {
    var x :| x in xs && f(x) == k;
    assert x in Class(xs, f, k);
  }

  /** The weight wanted at each address and port, as the adapter names them, is the number of ready pods behind it. */
  lemma {:induction false} WeightOfEach(v: View, cfg: Config, svcs: set<Service>, name: string)
    ensures
      var w, pods := Wanted(Listed(Demand(v, cfg, svcs))), Named(ReadyClaims(v, svcs), KeyOf(v, cfg), name);
      && (name in w <==> pods != {})
      && (name in w ==> w[name] == |pods|)
  {
    ClaimsAre(v, svcs);
    CanonicalDistinct(Listed(Demand(v, cfg, svcs)));
    NamedWeight(Listed(Demand(v, cfg, svcs)), Claims(v, svcs), KeyOf(v, cfg), name);
  }

  // --------------------------------------------------------------- end to end

  /** Once a run is at rest, an upstream with serving pods has on each of its servers exactly the addresses and ports
      with ready pods behind them, each weighing as much as it has such pods, and so in total as much as the upstream
      has. The run need be orderly only for this upstream, and only since it was last on its way to what is wanted. */
  lemma {:induction false} ConservedWhenQuiet(cfg: Config, run: seq<State>, steps: seq<Step>, i: nat, j: nat, u: UpKey)
    requires Run(cfg, run, steps) && i <= j <= |steps| && Orderly(run, steps, i, j, u) && Proper(u)
    requires Reconciling(cfg, run[i], u) && Quiet(run[j])
    requires ReadyClaims(run[j].view, Sharing(run[j].view, u)) != {}
    ensures
      var v, h := run[j].view, LbAt(run[j].c.lbs, u);
      var pods := ReadyClaims(v, Sharing(v, u));
      && (forall p :: p in h ==> Total(h[p]) == |pods|)
      && forall p, name :: p in h ==>
        && (name in h[p] <==> Named(pods, KeyOf(v, cfg), name) != {})
        && (name in h[p] ==> h[p][name] == |Named(pods, KeyOf(v, cfg), name)|)
  {
    hide Orderly, Reconciling, Quiet, ReadyClaims, Claims, Named, Wanted, Demand, Sharing, LbAt, NodeMissing;
    var v := run[j].view;
    ConvergedSince(cfg, run, steps, i, j, u);
    ClaimsAre(v, Sharing(v, u));
    PushedDemand(v, cfg, u);
    WeightConserved(v, cfg, Sharing(v, u));
    forall name { WeightOfEach(v, cfg, Sharing(v, u), name); }
  }

  lemma {:induction false} DemandListed(v: View, cfg: Config, svcs: set<Service>)
    requires Claims(v, svcs) != {}
    ensures Listed(Demand(v, cfg, svcs)) != []
    ensures exists s :: s in svcs && s.nodePort != 0
  {
    var c :| c in Claims(v, svcs);
    assert KeyOf(v, cfg)(c) in Demand(v, cfg, svcs);
    assert c.service in svcs && c.service.nodePort != 0;
  }

  lemma {:induction false} PushedDemand(v: View, cfg: Config, u: UpKey)
    requires Claims(v, Sharing(v, u)) != {} && Proper(u)
    requires forall s :: s in Sharing(v, u) && s.nodePort != 0 ==> !NodeMissing(v, s)
    ensures BulkVerdict(Clean(v), cfg, u) == Push(Listed(Demand(v, cfg, Sharing(v, u))))
  {
    hide Sharing, Claims, Demand, NodeMissing;
    DemandListed(v, cfg, Sharing(v, u));
  }
}

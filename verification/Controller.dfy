/** The controller's own code, each method against the step it implements. */
module Controller {
  import opened Text
  import opened Backends
  import opened Diff
  import opened Nginx
  import opened NginxAdapter
  import opened Cluster
  import opened Steps
  import opened AdapterContract

  // -------------------------------------------------------------- listers

  /** All managed services, in any order. */
  method ListServices(snap: Snapshot) returns (r: Option<seq<Service>>)
    ensures r.None? <==> snap.listFault
    ensures r.Some? ==> forall s :: s in r.value <==> s.key in Managed(snap.view) && Managed(snap.view)[s.key] == s
    ensures r.Some? ==> forall i, j :: 0 <= i < j < |r.value| ==> r.value[i].key != r.value[j].key
  {
    if snap.listFault { return None; }
    var all: seq<Service> := [];
    var todo := snap.view.services.Keys;
    while todo != {}
      invariant todo <= snap.view.services.Keys
      invariant forall s :: s in all <==>
        s.key in Managed(snap.view) && s.key !in todo && Managed(snap.view)[s.key] == s
      invariant forall i, j :: 0 <= i < j < |all| ==> all[i].key != all[j].key
      decreases |todo|
    {
      var k :| k in todo;
      if IsMLBService(snap.view.services[k]) {
        forall i | 0 <= i < |all| ensures all[i].key != k { assert all[i] in all; }
        all := all + [MapService(k, snap.view.services[k])];
      }
      todo := todo - {k};
    }
    return Some(all);
  }

  /** The pods a service selects, in any order. */
  method GetPodsForSelector(snap: Snapshot, s: Service) returns (r: Option<seq<Key>>)
    ensures r.None? <==> PodsFail(snap, s)
    ensures s.selector == map[] ==> r == Some([])
    ensures r.Some? ==> (forall p :: p in r.value <==> p in Selected(snap.view, s))
    ensures r.Some? ==> forall i, j :: 0 <= i < j < |r.value| ==> r.value[i] != r.value[j]
  {
    if s.selector == map[] { return Some([]); }
    if s.key in snap.podFaults { return None; }
    var all: seq<Key> := [];
    var todo := snap.view.pods.Keys;
    while todo != {}
      invariant todo <= snap.view.pods.Keys
      invariant forall p :: p in all <==> p in Selected(snap.view, s) && p !in todo
      invariant forall i, j :: 0 <= i < j < |all| ==> all[i] != all[j]
      decreases |todo|
    {
      var p :| p in todo;
      if SelectedBy(snap.view, s, p) {
        forall i | 0 <= i < |all| ensures all[i] != p { assert all[i] in all; }
        all := all + [p];
      }
      todo := todo - {p};
    }
    return Some(all);
  }

  // -------------------------------------------------------- buildUpstream

  datatype Built = BuildError | NoUpstream | Upstream(backends: seq<Backend>)

  ghost predicate BuildSpec(snap: Snapshot, cfg: Config, s: Service, r: Built) {
    if s.nodePort == 0 || !Proper(Target(s)) then r == NoUpstream
    else if BuildFails(snap, s) then r == BuildError
    else r.Upstream? && Canonical(r.backends) && TallyOf(r.backends) == Demand(snap.view, cfg, {s})
  }

  ghost function ClaimsOf(v: View, s: Service, pods: seq<Key>): set<Claim> {
    set p | p in pods && p in Serving(v, s) :: Claim(s, p)
  }

  lemma {:induction false} ClaimsOfNext(v: View, s: Service, pods: seq<Key>, i: nat)
    requires i < |pods|
    ensures ClaimsOf(v, s, pods[..i + 1]) == ClaimsOf(v, s, pods[..i])
      + (if pods[i] in Serving(v, s) then {Claim(s, pods[i])} else {})
  {
    assert pods[..i + 1] == pods[..i] + [pods[i]];
  }

  lemma {:induction false} ClaimsOfAll(v: View, s: Service, pods: seq<Key>)
    requires s.nodePort != 0 && forall p :: p in pods <==> p in Selected(v, s)
    ensures ClaimsOf(v, s, pods) == Claims(v, {s})
  {
  }

  ghost function CountOf(v: View, cfg: Config, s: Service, pods: seq<Key>): Tally {
    CountBy(ClaimsOf(v, s, pods), KeyOf(v, cfg))
  }

  lemma CountStep<X(!new)>(xs: set<X>, ys: set<X>, x: X, serves: bool, f: X -> BKey)
    requires x !in xs && ys == xs + (if serves then {x} else {})
    ensures CountBy(ys, f) == if serves then Plus(CountBy(xs, f), f(x), 1) else CountBy(xs, f)
  {
    if serves { CountInsert(xs, f, x); } else { assert ys == xs; }
  }

  lemma CountOfNext(v: View, cfg: Config, s: Service, pods: seq<Key>, i: nat)
    requires i < |pods| && pods[i] !in pods[..i]
    ensures CountOf(v, cfg, s, pods[..i + 1]) ==
      if pods[i] in Serving(v, s) then Plus(CountOf(v, cfg, s, pods[..i]), KeyOf(v, cfg)(Claim(s, pods[i])), 1)
      else CountOf(v, cfg, s, pods[..i])
  {
    ClaimsOfNext(v, s, pods, i);
    CountStep(ClaimsOf(v, s, pods[..i]), ClaimsOf(v, s, pods[..i + 1]), Claim(s, pods[i]), pods[i] in Serving(v, s),
      KeyOf(v, cfg));
  }

  /** What one pod contributes. */
  datatype Contribution = NodeUnknown | Nothing | Contributes(backend: Backend)

  ghost predicate ContributionSpec(v: View, cfg: Config, s: Service, p: Key, r: Contribution)
    requires p in v.pods
  {
    && (r == NodeUnknown <==> Scheduled(v.pods[p]) && v.pods[p].nodeName !in v.nodes)
    && (r.Contributes? <==> p in Serving(v, s))
    && (r.Contributes? ==> r.backend.Key() == KeyOf(v, cfg)(Claim(s, p)) && r.backend.weight == 1)
  }

  method Contribute(v: View, cfg: Config, s: Service, p: Key) returns (r: Contribution)
    requires SelectedBy(v, s, p)
    ensures ContributionSpec(v, cfg, s, p, r)
    ensures r.NodeUnknown? <==> v.pods[p].ready && v.pods[p].nodeName != "" && v.pods[p].nodeName !in v.nodes
    ensures r.Contributes? ==> v.pods[p].ready && v.pods[p].nodeName in v.nodes
  {
    var pod := v.pods[p];
    if !pod.ready || pod.nodeName == "" { return Nothing; }
    if pod.nodeName !in v.nodes { return NodeUnknown; }
    var nodeIP := v.nodes[pod.nodeName].internalIP;
    if nodeIP == "" { nodeIP := v.nodes[pod.nodeName].externalIP; }
    if nodeIP == "" { return Nothing; }
    return Contributes(Backend(BackendIP(cfg, LbName(s), nodeIP), s.nodePort, 1));
  }

  lemma {:induction false} TallyNext(bs: seq<Backend>, b: Backend)
    ensures TallyOf(bs + [b]) == Plus(TallyOf(bs), b.Key(), b.weight)
  {
    assert (bs + [b])[..|bs|] == bs;
  }

  method BuildUpstream(snap: Snapshot, cfg: Config, s: Service, pods: seq<Key>) returns (r: Built)
    requires forall p :: p in pods <==> p in Selected(snap.view, s)
    requires forall i, j :: 0 <= i < j < |pods| ==> pods[i] != pods[j]
    ensures BuildSpec(snap, cfg, s, r)
    ensures r.Upstream? ==> Total(TallyOf(r.backends)) == |ReadyClaims(snap.view, {s})|
  {
    DemandConserves(snap.view, cfg, {s});
    if s.nodePort == 0 || LbName(s) == "" || Target(s).up == "" { return NoUpstream; }
    var missing, backends := CollectBackends(snap.view, cfg, s, pods);
    if missing { return BuildError; }
    ClaimsOfAll(snap.view, s, pods);
    var merged := MergeBackends(backends, []);
    AddNothing(TallyOf(backends));
    return Upstream(merged);
  }

  /** One more pod, and its backend if it has one. */
  lemma {:induction false} PodCounted(v: View, cfg: Config, s: Service, pods: seq<Key>, i: nat, backends: seq<Backend>,
      c: Contribution)
    requires i < |pods| && SelectedBy(v, s, pods[i]) && pods[i] !in pods[..i]
    requires ContributionSpec(v, cfg, s, pods[i], c) && !c.NodeUnknown?
    requires TallyOf(backends) == CountOf(v, cfg, s, pods[..i])
    ensures TallyOf(if c.Contributes? then backends + [c.backend] else backends) == CountOf(v, cfg, s, pods[..i + 1])
  {
    hide CountOf, TallyOf, Plus, SelectedBy;
    CountOfNext(v, cfg, s, pods, i);
    if c.Contributes? { TallyNext(backends, c.backend); }
  }

  lemma {:induction false} NoneMissing(v: View, s: Service, pods: seq<Key>)
    requires forall p :: p in Selected(v, s) ==> p in pods
    requires forall j :: 0 <= j < |pods| ==> !Unplaced(v, pods[j])
    ensures !NodeMissing(v, s)
  {
    forall p | p in Selected(v, s) ensures !Unplaced(v, p) {
      var j :| 0 <= j < |pods| && pods[j] == p;
    }
  }

  predicate Unplaced(v: View, p: Key) { p in v.pods && Scheduled(v.pods[p]) && v.pods[p].nodeName !in v.nodes }

  method CollectBackends(v: View, cfg: Config, s: Service, pods: seq<Key>)
      returns (missing: bool, backends: seq<Backend>)
    requires forall p :: p in pods <==> p in Selected(v, s)
    requires forall i, j :: 0 <= i < j < |pods| ==> pods[i] != pods[j]
    ensures missing <==> NodeMissing(v, s)
    ensures !missing ==> TallyOf(backends) == CountOf(v, cfg, s, pods)
  {
    backends := [];
    assert ClaimsOf(v, s, []) == {};
    for i := 0 to |pods|
      invariant forall j :: 0 <= j < i ==> !Unplaced(v, pods[j])
      invariant TallyOf(backends) == CountOf(v, cfg, s, pods[..i])
    {
      hide CountOf, ClaimsOf, TallyOf, CountBy;
      assert pods[i] in pods && pods[i] !in pods[..i];
      var c := Contribute(v, cfg, s, pods[i]);
      if c.NodeUnknown? { return true, backends; }
      PodCounted(v, cfg, s, pods, i, backends, c);
      if c.Contributes? { backends := backends + [c.backend]; }
    }
    assert pods[..|pods|] == pods;
    NoneMissing(v, s, pods);
    return false, backends;
  }

  /** The pods of a service looked up and its backends built. */
  method LookUp(snap: Snapshot, cfg: Config, s: Service) returns (r: Built)
    ensures PodsFail(snap, s) ==> r == BuildError
    ensures !PodsFail(snap, s) ==> BuildSpec(snap, cfg, s, r)
  {
    var pods := GetPodsForSelector(snap, s);
    if pods.None? { return BuildError; }
    r := BuildUpstream(snap, cfg, s, pods.value);
  }

  /** Default backend, empty upstream or safety net: the branches of both paths for an upstream without backends. */
  method ApplyFallback(cfg: Config, lb: string, backends: seq<Backend>) returns (v: Verdict)
    ensures v == Settle(cfg, lb, backends)
    ensures backends != [] ==> v == Push(backends)
    ensures backends == [] && v == Keep ==>
      !cfg.allowEmpty && forall i :: FirstNamed(cfg.lbs, lb, i) ==> !cfg.lbs[i].allowEmpty
    ensures v == Push([]) ==> cfg.allowEmpty || exists i :: FirstNamed(cfg.lbs, lb, i) && cfg.lbs[i].allowEmpty
  {
    FlagsIff(cfg, lb);
    if |backends| == 0 {
      var lbConfig := GetLoadBalancerConfig(cfg, lb);
      var def: Option<DefaultBackend> := None;
      if lbConfig.Some? && lbConfig.value.defaultBackend.Some? {
        def := lbConfig.value.defaultBackend;
      } else if cfg.defaultBackend.Some? {
        def := cfg.defaultBackend;
      }
      if def.Some? && def.value.ip != "" {
        var w := def.value.weight;
        if w <= 0 { w := 1; }
        return Push([Backend(def.value.ip, def.value.port, w)]);
      }
      var allowEmpty := cfg.allowEmpty;
      if lbConfig.Some? && lbConfig.value.allowEmpty { allowEmpty := true; }
      if !allowEmpty { return Keep; }
    }
    return Push(backends);
  }

  // ------------------------------------------------------ ranging over maps

  ghost function Except<K, V>(m: map<K, V>, todo: set<K>): map<K, V> { map k | k in m && k !in todo :: m[k] }

  lemma MatchingNext(services: map<Key, Service>, todo: set<Key>, k: Key, ns: string, p: Pod)
    requires k in todo && k in services
    ensures Matching(Except(services, todo - {k}), ns, p) ==
      Matching(Except(services, todo), ns, p) + (if Concerns(services[k], ns, p) then {services[k].key} else {})
  {
    var l, r := Matching(Except(services, todo - {k}), ns, p), Matching(Except(services, todo), ns, p);
    forall x | x in l && x !in r ensures Concerns(services[k], ns, p) && x == services[k].key {
      var j :| j in Except(services, todo - {k}) && Concerns(services[j], ns, p) && services[j].key == x;
    }
    forall x | x in r ensures x in l {
      var j :| j in Except(services, todo) && Concerns(services[j], ns, p) && services[j].key == x;
      assert j in Except(services, todo - {k});
    }
    if Concerns(services[k], ns, p) { assert k in Except(services, todo - {k}); }
  }

  lemma MatchingNodeNext(services: map<Key, Service>, pods: map<Key, Pod>, todo: set<Key>, p: Key, name: string)
    requires p in todo && p in pods
    ensures MatchingNode(services, Except(pods, todo - {p}), name) ==
      MatchingNode(services, Except(pods, todo), name)
        + (if pods[p].nodeName == name then Matching(services, p.ns, pods[p]) else {})
  {
    var l, r := MatchingNode(services, Except(pods, todo - {p}), name),
      MatchingNode(services, Except(pods, todo), name);
    forall x | x in l && x !in r ensures pods[p].nodeName == name && x in Matching(services, p.ns, pods[p]) {
      var q :| q in Except(pods, todo - {p}) && pods[q].nodeName == name && x in Matching(services, q.ns, pods[q]);
    }
    forall x | x in r ensures x in l {
      var q :| q in Except(pods, todo) && pods[q].nodeName == name && x in Matching(services, q.ns, pods[q]);
      assert q in Except(pods, todo - {p});
    }
    if pods[p].nodeName == name { assert p in Except(pods, todo - {p}); }
  }

  /** The queue once every pod outside `todo` has been looked at. */
  ghost function WokenSoFar(services: map<Key, Service>, pods: map<Key, Pod>, todo: set<Key>, name: string,
      q: set<Key>): set<Key> {
    q + MatchingNode(services, Except(pods, todo), name)
  }

  lemma WokenSoFarEnds(services: map<Key, Service>, pods: map<Key, Pod>, name: string, q: set<Key>)
    ensures WokenSoFar(services, pods, pods.Keys, name, q) == q
    ensures WokenSoFar(services, pods, {}, name, q) == q + MatchingNode(services, pods, name)
  {
    assert Except(pods, {}) == pods;
  }

  lemma WokenSoFarNext(services: map<Key, Service>, pods: map<Key, Pod>, todo: set<Key>, p: Key, name: string,
      q: set<Key>)
    requires p in todo && p in pods
    ensures WokenSoFar(services, pods, todo - {p}, name, q) ==
      WokenSoFar(services, pods, todo, name, q)
        + (if pods[p].nodeName == name then Matching(services, p.ns, pods[p]) else {})
  {
    MatchingNodeNext(services, pods, todo, p, name);
  }

  // --------------------------------------------------- the bulk collection

  ghost function For(svcs: set<Service>, lb: string, up: string): set<Service> {
    set s | s in svcs && Target(s) == UpKey(lb, up)
  }

  /** `desired` is what the services in `svcs` ask for, before the fallbacks. */
  ghost predicate CollectedAt(snap: Snapshot, cfg: Config, svcs: set<Service>, desired: map<string, DesiredUpstream>,
      up: string) {
    var failed := exists s :: s in svcs && LookupFails(snap, s);
    && (up in desired <==> failed || exists s :: s in svcs && s.nodePort != 0)
    && (up in desired ==> (desired[up].preserve <==> failed))
    && (up in desired && !failed ==>
        Canonical(desired[up].backends) && TallyOf(desired[up].backends) == Demand(snap.view, cfg, svcs))
  }

  ghost predicate Collected(snap: Snapshot, cfg: Config, lb: string, svcs: set<Service>,
      desired: map<string, DesiredUpstream>) {
    "" !in desired && forall up :: up != "" ==> CollectedAt(snap, cfg, For(svcs, lb, up), desired, up)
  }

  lemma {:induction false} CollectedNone(snap: Snapshot, cfg: Config, lb: string)
    ensures Collected(snap, cfg, lb, {}, map[])
  {
    forall up | up != "" ensures CollectedAt(snap, cfg, For({}, lb, up), map[], up) {
      assert For({}, lb, up) == {};
    }
  }

  lemma {:induction false} ForNext(svcs: set<Service>, s: Service, lb: string, up: string)
    ensures For(svcs + {s}, lb, up) == For(svcs, lb, up) + (if Target(s) == UpKey(lb, up) then {s} else {})
  {
  }

  /** One more service, whose lookup gave `r`, added to one upstream. */
  method AddToDesired(snap: Snapshot, cfg: Config, s: Service, r: Built, ghost svcs: set<Service>,
      desired: map<string, DesiredUpstream>, previous: seq<Backend>) returns (d: map<string, DesiredUpstream>)
    requires Proper(Target(s)) && s !in svcs
    requires CollectedAt(snap, cfg, svcs, desired, Target(s).up)
    requires PodsFail(snap, s) ==> r == BuildError
    requires !PodsFail(snap, s) ==> BuildSpec(snap, cfg, s, r)
    ensures CollectedAt(snap, cfg, svcs + {s}, d, Target(s).up)
    ensures forall up :: up != Target(s).up ==> (up in d <==> up in desired) && (up in desired ==> d[up] == desired[up])
  {
    var up := Target(s).up;
    DemandAdds(snap.view, cfg, svcs, s);
    match r
    case BuildError =>
      d := desired[up := DesiredUpstream(previous, true)];
      assert s in svcs + {s} && LookupFails(snap, s);
    case NoUpstream =>
      d := desired;
      DemandNone(snap.view, cfg, {s});
      AddNothing(Demand(snap.view, cfg, svcs));
      SameFailures(snap, svcs, s);
    case Upstream(b) =>
      SameFailures(snap, svcs, s);
      assert s in svcs + {s} && s.nodePort != 0;
      if up in desired {
        if desired[up].preserve {
          d := desired;
        } else {
          var merged := MergeBackends(desired[up].backends, b);
          d := desired[up := desired[up].(backends := merged)];
        }
      } else {
        d := desired[up := DesiredUpstream(b, false)];
        DemandNone(snap.view, cfg, svcs);
        AddNothing(TallyOf(b));
      }
  }

  lemma {:induction false} SameFailures(snap: Snapshot, svcs: set<Service>, s: Service)
    requires !LookupFails(snap, s)
    ensures (exists o :: o in svcs + {s} && LookupFails(snap, o)) <==> exists o :: o in svcs && LookupFails(snap, o)
  {
    if o :| o in svcs && LookupFails(snap, o) { assert o in svcs + {s}; }
  }

  lemma {:induction false} RefreshedIs(before: map<Key, Service>, managed: map<Key, Service>, lb: string,
      after: map<Key, Service>)
    requires var all := before + OfLb(managed, lb);
      after == map k | k in all && (k in OfLb(managed, lb) || LbName(all[k]) != lb) :: all[k]
    ensures after == OffLb(before, lb) + OfLb(managed, lb)
  {
  }

  /** What a periodic run does to the caches and the recorded upstreams, with the desired state it is going to send. */
  ghost predicate Refreshed(snap: Snapshot, cfg: Config, lb: string, services: map<Key, Service>,
      lastKnown: map<Key, Service>, upstreams: map<UpKey, seq<Backend>>, desired: map<string, DesiredUpstream>,
      services': map<Key, Service>, lastKnown': map<Key, Service>, upstreams': map<UpKey, seq<Backend>>)
  {
    && (forall u: UpKey :: u.lb == lb ==> VerdictOf(desired, lb, u) == BulkVerdict(snap, cfg, u))
    && services' == OffLb(services, lb) + OfLb(Managed(snap.view), lb)
    && lastKnown' == OfLb(Managed(snap.view), lb) + lastKnown
    && forall u: UpKey :: RecordedAt(upstreams, VerdictOf(desired, lb, u), u, upstreams')
  }

  function RecordedFor(upstreams: map<UpKey, seq<Backend>>, u: UpKey): seq<Backend> {
    if u in upstreams then upstreams[u] else []
  }

  // -------------------------------------------------------------- the class

  /** Any service but `key` that targets the upstream. */
  method FindOther(all: seq<Service>, key: Key, u: UpKey) returns (other: Option<Service>)
    ensures other.Some? ==> other.value in all && other.value.key != key && Target(other.value) == u
    ensures other.None? <==> forall s :: s in all && s.key != key ==> Target(s) != u
  {
    for i := 0 to |all|
      invariant forall j :: 0 <= j < i && all[j].key != key ==> Target(all[j]) != u
    {
      if all[i].key != key && Target(all[i]) == u { return Some(all[i]); }
    }
    return None;
  }

  class Controller {
    const cfg: Config
    const adapters: map<string, Adapter>
    /** The adapters and the servers behind them. */
    ghost const outside: set<object>
    var services: map<Key, Service>
    var pods: map<Key, Pod>
    var nodes: map<string, Node>
    var upstreams: map<UpKey, seq<Backend>>
    var lastKnown: map<Key, Service>
    var queue: set<Key>

    ghost predicate Valid(): (v: bool)
      reads outside
      ensures v ==> this !in outside
    {
      && cfg.adapters == adapters.Keys && "" !in adapters && this !in outside
      && (forall n :: n in adapters ==> adapters[n] in outside && adapters[n].fleet in outside)
      && (forall n :: n in adapters ==> adapters[n].Valid() && adapters[n].pruneOrphans == Prunes(cfg, n))
      && (forall n, m :: n in adapters && m in adapters && n != m ==>
            adapters[n] != adapters[m] && adapters[n].fleet != adapters[m].fleet)
    }

    ghost function Places(): set<Place> { set n, url | n in adapters && url in adapters[n].clients :: Place(n, url) }

    /** The servers of all load balancers, as they are now. */
    ghost function Servers(): map<Place, Server>
      requires Valid()
      reads outside
    {
      map p | p in Places() :: adapters[p.lb].fleet.servers[p.url]
    }

    ghost function Abs(): Ctl
      requires Valid()
      reads this, outside
    {
      Ctl(services, pods, nodes, upstreams, lastKnown, queue, Servers())
    }

    constructor (cfg: Config, adapters: map<string, Adapter>)
      requires cfg.adapters == adapters.Keys && "" !in adapters
      requires forall n :: n in adapters ==> adapters[n].Valid() && adapters[n].pruneOrphans == Prunes(cfg, n)
      requires forall n, m :: n in adapters && m in adapters && n != m ==>
        adapters[n] != adapters[m] && adapters[n].fleet != adapters[m].fleet
      ensures this.cfg == cfg && this.adapters == adapters
      ensures Valid() && Abs() == Ctl(map[], map[], map[], map[], map[], {}, Servers())
    {
      this.cfg, this.adapters := cfg, adapters;
      outside := (set n | n in adapters :: adapters[n] as object)
        + (set n | n in adapters :: adapters[n].fleet as object);
      services, pods, nodes, upstreams, lastKnown, queue := map[], map[], map[], map[], map[], {};
    }

    // ---------------------------------------------------- event handlers

    method HandleServiceEvent(e: ServiceEvent)
      requires Valid()
      modifies this
      ensures Valid() && Abs() == OnServiceEvent(old(Abs()), e)
    {
      hide Valid, Servers, Places;
      var key := e.service.key;
      match e.kind {
        case Added =>
          services := services[key := e.service];
          if key !in lastKnown { lastKnown := lastKnown[key := e.service]; }
        case Updated =>
          services := services[key := e.service];
        case Deleted =>
          services := services - {key};
      }
      queue := queue + {key};
    }

    method EnqueueUpstreamsForPod(ns: string, p: Pod)
      modifies this`queue
      ensures queue == old(queue) + Matching(services, ns, p)
    {
      var todo := services.Keys;
      while todo != {}
        invariant todo <= services.Keys
        invariant queue == old(queue) + Matching(Except(services, todo), ns, p)
        decreases |todo|
      {
        var k :| k in todo;
        MatchingNext(services, todo, k, ns, p);
        if services[k].key.ns == ns && MatchLabels(p.labels, services[k].selector) {
          queue := queue + {services[k].key};
        }
        todo := todo - {k};
      }
      assert Except(services, {}) == services;
    }

    method HandlePodEvent(e: PodEvent)
      requires Valid()
      modifies this
      ensures Valid() && Abs() == OnPodEvent(old(Abs()), e)
    {
      hide Valid, Servers, Places;
      var hadOld := e.key in pods;
      var oldPod := if hadOld then pods[e.key] else e.pod;
      if e.kind == Deleted { pods := pods - {e.key}; } else { pods := pods[e.key := e.pod]; }
      if hadOld && e.kind == Updated { EnqueueUpstreamsForPod(e.key.ns, oldPod); }
      EnqueueUpstreamsForPod(e.key.ns, e.pod);
    }

    method EnqueueIfOn(name: string, p: Key)
      requires p in pods
      modifies this`queue
      ensures queue == old(queue) + (if pods[p].nodeName == name then Matching(services, p.ns, pods[p]) else {})
    {
      if pods[p].nodeName == name { EnqueueUpstreamsForPod(p.ns, pods[p]); }
    }

    method EnqueueUpstreamsForNode(name: string)
      modifies this`queue
      ensures queue == old(queue) + MatchingNode(services, pods, name)
    {
      ghost var svcs, ps, q0 := services, pods, queue;
      WokenSoFarEnds(svcs, ps, name, q0);
      hide WokenSoFar, Matching, MatchingNode;
      var todo := pods.Keys;
      while todo != {}
        invariant todo <= ps.Keys && services == svcs && pods == ps
        invariant queue == WokenSoFar(svcs, ps, todo, name, q0)
        decreases |todo|
      {
        var p :| p in todo;
        WokenSoFarNext(svcs, ps, todo, p, name, q0);
        EnqueueIfOn(name, p);
        todo := todo - {p};
      }
    }

    method HandleNodeEvent(e: NodeEvent)
      requires Valid()
      modifies this
      ensures Valid() && Abs() == OnNodeEvent(old(Abs()), e)
    {
      hide Valid, Servers, Places;
      if e.kind == Deleted { nodes := nodes - {e.name}; } else { nodes := nodes[e.name := e.node]; }
      EnqueueUpstreamsForNode(e.name);
    }

    // ------------------------------------------------------------ worker

    method SyncLoadBalancerUpstream(u: UpKey, backends: seq<Backend>) returns (ok: bool)
      requires Valid() && Proper(u)
      modifies outside
      ensures Valid() && PushStep(cfg, u, backends, old(Abs()), ok, Abs())
    {
      if u.lb !in adapters { return false; }
      ghost var before := Servers();
      var now: int := *;
      var failed, runs := adapters[u.lb].SyncUpstream(u.up, backends, now);
      ok := !failed;
      SyncMeetsStep(before, Servers(), failed, u, backends);
    }

    method SyncUpstreamsForService(snap: Snapshot, s: Service) returns (ok: bool)
      requires Valid()
      modifies this, outside
      ensures Valid() && SyncStep(snap, cfg, s, old(Abs()), ok, Abs())
    {
      hide Valid, Servers, Places, EventVerdict, PushStep;
      var verdict := BackendsFor(snap, s);
      match verdict
      case Skip => ok := true;
      case Fail => ok := false;
      case Keep => ok := true;
      case Push(backends) =>
        upstreams := upstreams[Target(s) := backends];
        ok := SyncLoadBalancerUpstream(Target(s), backends);
    }

    /** The part of `SyncUpstreamsForService` that only reads: the merged backends or their fallback, or why nothing is
        to be sent. */
    method BackendsFor(snap: Snapshot, s: Service) returns (verdict: Verdict)
      ensures verdict == EventVerdict(snap, cfg, s) && (verdict.Push? ==> Proper(Target(s)))
    {
      hide Demand;
      var u := Target(s);
      if u.lb == "" || u.up == "" { return Skip; }
      var built := LookUp(snap, cfg, s);
      if built.BuildError? { return Fail; }
      if built.NoUpstream? { return Skip; }
      var all := ListServices(snap);
      if all.None? { return Fail; }
      var mergeOk, backends := MergeOthers(snap, s, all.value, built.backends);
      if !mergeOk { return Fail; }
      ListedIs(backends, Demand(snap.view, cfg, Others(snap.view, s) + {s}));
      verdict := ApplyFallback(cfg, u.lb, backends);
    }

    /** Merges in the backends of every other service with the same target. */
    method MergeOthers(snap: Snapshot, s: Service, all: seq<Service>, first: seq<Backend>)
        returns (ok: bool, backends: seq<Backend>)
      requires Proper(Target(s))
      requires forall o :: o in all <==> o.key in Managed(snap.view) && Managed(snap.view)[o.key] == o
      requires forall i, j :: 0 <= i < j < |all| ==> all[i].key != all[j].key
      requires Canonical(first) && TallyOf(first) == Demand(snap.view, cfg, {s})
      ensures ok <==> !exists o :: o in Others(snap.view, s) && LookupFails(snap, o)
      ensures ok ==> Canonical(backends) && TallyOf(backends) == Demand(snap.view, cfg, Others(snap.view, s) + {s})
    {
      hide Demand, Canonical;
      backends := first;
      ghost var done: set<Service> := {};
      assert done + {s} == {s};
      for i := 0 to |all|
        invariant forall o :: o in done <==> o in all[..i] && o.key != s.key && Target(o) == Target(s)
        invariant forall o :: o in done ==> !LookupFails(snap, o)
        invariant Canonical(backends) && TallyOf(backends) == Demand(snap.view, cfg, done + {s})
      {
        assert all[..i + 1] == all[..i] + [all[i]];
        if all[i].key == s.key { continue; }
        if Target(all[i]) == Target(s) {
          assert all[i] in all && all[i] in Others(snap.view, s);
          var other := LookUp(snap, cfg, all[i]);
          if other.BuildError? { return false, backends; }
          assert all[i] !in all[..i];
          DemandAdds(snap.view, cfg, done + {s}, all[i]);
          assert done + {all[i]} + {s} == done + {s} + {all[i]};
          if other.Upstream? {
            backends := MergeBackends(backends, other.backends);
          } else {
            DemandNone(snap.view, cfg, {all[i]});
            AddNothing(TallyOf(backends));
          }
          done := done + {all[i]};
        }
      }
      assert all[..|all|] == all;
      assert done == Others(snap.view, s);
      return true, backends;
    }

    method HandleServiceDeletion(snap: Snapshot, key: Key, s: Service) returns (ok: bool)
      requires Valid()
      modifies this, outside
      ensures Valid() && LeaveStep(snap, cfg, key, s, old(Abs()), ok, Abs())
    {
      hide Valid, Servers, Places, SyncStep, PushStep;
      var u := Target(s);
      if u.lb == "" || u.up == "" { return true; }
      var all := ListServices(snap);
      if all.None? { return false; }
      var other := FindOther(all.value, key, u);
      if other.Some? {
        assert other.value in Remaining(snap.view, key, u);
        ok := SyncUpstreamsForService(snap, other.value);
        return;
      }
      assert Remaining(snap.view, key, u) == {} by {
        assert forall o :: o in Sharing(snap.view, u) ==> o in all.value;
        assert forall o :: o in all.value ==> !(o.key != key && Target(o) == u);
      }
      upstreams := upstreams - {u};
      ok := SyncLoadBalancerUpstream(u, []);
    }

    method SyncHandler(snap: Snapshot, key: Key) returns (ok: bool)
      requires Valid()
      modifies this, outside
      ensures Valid() && WorkerStep(snap, cfg, key, old(Abs()), ok, Abs())
    {
      hide Valid, Servers, Places, LeaveStep, ArriveStep, IsMLBService, MapService;
      if key !in snap.view.services || !IsMLBService(snap.view.services[key]) {
        if key !in lastKnown { return true; }
        ok := HandleServiceDeletion(snap, key, lastKnown[key]);
        if !ok { return; }
        lastKnown := lastKnown - {key};
        services := services - {key};
        return;
      }
      var s := MapService(key, snap.view.services[key]);
      if key in lastKnown {
        var oldU, newU := Target(lastKnown[key]), Target(s);
        if (oldU.lb != newU.lb || oldU.up != newU.up) && oldU.lb != "" && oldU.up != "" {
          ok := HandleServiceDeletion(snap, key, lastKnown[key]);
          if !ok { return; }
        }
      }
      ok := Arrive(snap, key, s);
    }

    /** The second half of `SyncHandler`: the service is noted as last known, and its upstream synced. */
    method Arrive(snap: Snapshot, key: Key, s: Service) returns (ok: bool)
      requires Valid() && key in Managed(snap.view) && s == Managed(snap.view)[key]
      modifies this, outside
      ensures Valid() && ArriveStep(snap, cfg, key, s, old(Abs()), ok, Abs())
    {
      hide Valid, Servers, Places, SyncStep, MapService;
      lastKnown := lastKnown[key := s];
      services := services[key := s];
      ok := SyncUpstreamsForService(snap, s);
    }

    method ProcessNextItem(snap: Snapshot) returns (key: Key, ok: bool)
      requires queue != {}
      requires Valid()
      modifies this, outside
      ensures Valid() && ProcessStep(snap, cfg, key, old(Abs()), ok, Abs())
    {
      hide Valid, Servers, Places;
      key :| key in queue;
      queue := queue - {key};
      ok := SyncHandler(snap, key);
      if !ok { queue := queue + {key}; }
    }

    // ---------------------------------------------------------- periodic

    method AddOne(s: Service, before: map<Key, Service>) returns (current: map<Key, Service>)
      requires s.key in before ==> before[s.key] == s
      modifies this`services, this`lastKnown
      ensures current == before[s.key := s]
      ensures services == old(services)[s.key := s]
      ensures lastKnown == if s.key in old(lastKnown) then old(lastKnown) else old(lastKnown)[s.key := s]
    {
      current := before[s.key := s];
      services := services[s.key := s];
      if s.key !in lastKnown { lastKnown := lastKnown[s.key := s]; }
    }

    method AddCurrent(ghost managed: map<Key, Service>, lb: string, all: seq<Service>)
        returns (current: map<Key, Service>)
      requires forall s :: s in all <==> s.key in managed && managed[s.key] == s
      requires forall k :: k in managed ==> managed[k].key == k
      modifies this`services, this`lastKnown
      ensures current == OfLb(managed, lb)
      ensures services == old(services) + current
      ensures lastKnown == current + old(lastKnown)
    {
      current := map[];
      for i := 0 to |all|
        invariant forall k :: k in current ==> k in managed && current[k] == managed[k] && LbName(managed[k]) == lb
        invariant forall j :: 0 <= j < i && LbName(all[j]) == lb ==> all[j].key in current
        invariant services == old(services) + current
        invariant lastKnown == current + old(lastKnown)
      {
        assert all[i] in all;
        if LbName(all[i]) != lb { continue; }
        ghost var prior := current;
        current := AddOne(all[i], current);
        OverlayNext(old(services), old(lastKnown), prior, all[i]);
      }
      forall k | k in managed && LbName(managed[k]) == lb ensures k in current {
        assert managed[k] in all;
        var j :| 0 <= j < |all| && all[j] == managed[k];
      }
    }

    method DropStale(lb: string, current: map<Key, Service>)
      modifies this`services
      ensures services == map k | k in old(services)
        && (k in current || LbName(old(services)[k]) != lb) :: old(services)[k]
    {
      var todo := services.Keys;
      ghost var before := services;
      while todo != {}
        invariant todo <= before.Keys
        invariant forall k :: k in services <==> k in before && (k in todo || k in current || LbName(before[k]) != lb)
        invariant forall k :: k in services ==> services[k] == before[k]
        decreases |todo|
      {
        var key :| key in todo;
        if LbName(services[key]) == lb && key !in current {
          services := services - {key};
        }
        todo := todo - {key};
      }
    }

    method RefreshServices(ghost managed: map<Key, Service>, lb: string, all: seq<Service>)
      requires forall s :: s in all <==> s.key in managed && managed[s.key] == s
      requires forall k :: k in managed ==> managed[k].key == k
      modifies this`services, this`lastKnown
      ensures services == OffLb(old(services), lb) + OfLb(managed, lb)
      ensures lastKnown == OfLb(managed, lb) + old(lastKnown)
    {
      ghost var before := services;
      var current := AddCurrent(managed, lb, all);
      DropStale(lb, current);
      RefreshedIs(before, managed, lb, services);
    }

    /** One more service looked up and added to the desired state. */
    method CollectOne(snap: Snapshot, lb: string, s: Service, ghost svcs: set<Service>,
        desired: map<string, DesiredUpstream>)
      returns (d: map<string, DesiredUpstream>)
      requires lb != "" && s !in svcs && Collected(snap, cfg, lb, svcs, desired)
      ensures Collected(snap, cfg, lb, svcs + {s}, d)
    {
      var u := Target(s);
      if u.lb == lb && u.up != "" {
        var built := LookUp(snap, cfg, s);
        assert CollectedAt(snap, cfg, For(svcs, lb, u.up), desired, u.up);
        d := AddToDesired(snap, cfg, s, built, For(svcs, lb, u.up), desired, RecordedFor(upstreams, u));
      } else {
        d := desired;
      }
      forall up | up != "" ensures CollectedAt(snap, cfg, For(svcs + {s}, lb, up), d, up) {
        ForNext(svcs, s, lb, up);
        assert CollectedAt(snap, cfg, For(svcs, lb, up), desired, up);
        if u != UpKey(lb, up) { assert For(svcs + {s}, lb, up) == For(svcs, lb, up); }
      }
    }

    method CollectDesired(snap: Snapshot, lb: string, all: seq<Service>) returns (desired: map<string, DesiredUpstream>)
      requires lb != ""
      requires forall i, j :: 0 <= i < j < |all| ==> all[i].key != all[j].key
      ensures Collected(snap, cfg, lb, (set s | s in all), desired)
    {
      desired := map[];
      ghost var done: set<Service> := {};
      CollectedNone(snap, cfg, lb);
      for i := 0 to |all|
        invariant done == set s | s in all[..i]
        invariant Collected(snap, cfg, lb, done, desired)
      {
        assert all[..i + 1] == all[..i] + [all[i]];
        assert all[i] !in all[..i];
        desired := CollectOne(snap, lb, all[i], done, desired);
        done := done + {all[i]};
      }
      assert all[..|all|] == all;
    }

    method ApplyFallbacks(lb: string, desired: map<string, DesiredUpstream>) returns (d: map<string, DesiredUpstream>)
      ensures d.Keys == desired.Keys
      ensures forall up :: up in d ==>
        if desired[up].preserve then d[up] == desired[up]
        else match Settle(cfg, lb, desired[up].backends)
          case Push(b) => d[up] == DesiredUpstream(b, false)
          case _ => d[up] == DesiredUpstream(RecordedFor(upstreams, UpKey(lb, up)), true)
    {
      d := desired;
      var todo := desired.Keys;
      while todo != {}
        invariant todo <= desired.Keys && d.Keys == desired.Keys
        invariant forall up :: up in todo ==> d[up] == desired[up]
        invariant forall up :: up in d && up !in todo ==>
          if desired[up].preserve then d[up] == desired[up]
          else match Settle(cfg, lb, desired[up].backends)
            case Push(b) => d[up] == DesiredUpstream(b, false)
            case _ => d[up] == DesiredUpstream(RecordedFor(upstreams, UpKey(lb, up)), true)
        decreases |todo|
      {
        var up :| up in todo;
        if !d[up].preserve {
          var verdict := ApplyFallback(cfg, lb, d[up].backends);
          if verdict.Push? {
            d := d[up := DesiredUpstream(verdict.backends, false)];
          } else {
            d := d[up := DesiredUpstream(RecordedFor(upstreams, UpKey(lb, up)), true)];
          }
        }
        todo := todo - {up};
      }
    }

    method DropUpstreams(lb: string, desired: map<string, DesiredUpstream>)
      modifies this`upstreams
      ensures forall u: UpKey :: u in upstreams <==> u in old(upstreams) && (u.lb != lb || u.up in desired)
      ensures forall u: UpKey :: u in upstreams ==> upstreams[u] == old(upstreams)[u]
    {
      var todo := upstreams.Keys;
      while todo != {}
        invariant todo <= old(upstreams).Keys
        invariant forall u: UpKey :: u in upstreams <==>
          u in old(upstreams) && (u in todo || u.lb != lb || u.up in desired)
        invariant forall u: UpKey :: u in upstreams ==> upstreams[u] == old(upstreams)[u]
        decreases |todo|
      {
        var u :| u in todo;
        if u.lb == lb && u.up !in desired { upstreams := upstreams - {u}; }
        todo := todo - {u};
      }
    }

    method StoreUpstreams(lb: string, desired: map<string, DesiredUpstream>)
      modifies this`upstreams
      ensures forall u: UpKey :: if u.lb == lb && u.up in desired && !desired[u.up].preserve
        then u in upstreams && upstreams[u] == desired[u.up].backends
        else (u in upstreams <==> u in old(upstreams)) && (u in old(upstreams) ==> upstreams[u] == old(upstreams)[u])
    {
      var names := desired.Keys;
      while names != {}
        invariant names <= desired.Keys
        invariant forall u: UpKey :: if u.lb == lb && u.up in desired && u.up !in names && !desired[u.up].preserve
          then u in upstreams && upstreams[u] == desired[u.up].backends
          else (u in upstreams <==> u in old(upstreams)) && (u in old(upstreams) ==> upstreams[u] == old(upstreams)[u])
        decreases |names|
      {
        var up :| up in names;
        if !desired[up].preserve { upstreams := upstreams[UpKey(lb, up) := desired[up].backends]; }
        names := names - {up};
      }
    }

    method RecordUpstreams(lb: string, desired: map<string, DesiredUpstream>)
      modifies this`upstreams
      ensures forall u: UpKey :: RecordedAt(old(upstreams), VerdictOf(desired, lb, u), u, upstreams)
    {
      DropUpstreams(lb, desired);
      StoreUpstreams(lb, desired);
    }

    method SyncAllUpstreams(lb: string, desired: map<string, DesiredUpstream>)
        returns (ok: bool, ghost bad: set<string>)
      requires Valid() && lb in adapters && "" !in desired
      modifies outside
      ensures Valid() && AllSynced(old(Servers()), lb, desired, Prunes(cfg, lb), ok, bad, Servers())
        && (ok ==> bad == {})
    {
      hide Guarded, Partitioned, AllSynced, SyncMany, PruneEach, ManyFailed, PruneEachFailed;
      ghost var before := Servers();
      var now: int := *;
      var failed, order, runss, pruned, b := adapters[lb].SyncAllUpstreams(desired, now);
      ok, bad := !failed, b;
      SyncAllMeetsStep(before, Servers(), failed, bad, lb, desired, Prunes(cfg, lb));
    }

    /** The desired state of a load balancer: what the order-free verdicts say. */
    method DesiredState(snap: Snapshot, lb: string, all: seq<Service>) returns (desired: map<string, DesiredUpstream>)
      requires lb != ""
      requires forall s :: s in all <==> s.key in Managed(snap.view) && Managed(snap.view)[s.key] == s
      requires forall i, j :: 0 <= i < j < |all| ==> all[i].key != all[j].key
      ensures "" !in desired && forall u: UpKey :: u.lb == lb ==> VerdictOf(desired, lb, u) == BulkVerdict(snap, cfg, u)
    {
      var collected := CollectDesired(snap, lb, all);
      desired := ApplyFallbacks(lb, collected);
      DesiredIsVerdict(snap, cfg, lb, all, collected, desired);
    }

    /** The part of a periodic run before the adapter is called: the caches, the desired state, and its record. */
    method Refresh(snap: Snapshot, lb: string) returns (desired: Option<map<string, DesiredUpstream>>)
      requires lb != ""
      modifies this`services, this`lastKnown, this`upstreams
      ensures desired.None? <==> snap.listFault
      ensures desired.None? ==> unchanged(this)
      ensures desired.Some? ==> "" !in desired.value
      ensures desired.Some? ==>
        Refreshed(snap, cfg, lb, old(services), old(lastKnown), old(upstreams), desired.value, services, lastKnown,
          upstreams)
    {
      hide OffLb, OfLb, RecordedAt, VerdictOf, BulkVerdict;
      var all := ListServices(snap);
      if all.None? { return None; }
      RefreshServices(Managed(snap.view), lb, all.value);
      var d := DesiredState(snap, lb, all.value);
      RecordUpstreams(lb, d);
      desired := Some(d);
    }

    method SyncSingleLoadBalancer(snap: Snapshot, lb: string) returns (ok: bool, ghost bad: set<string>)
      requires Valid() && lb in adapters
      modifies this, outside
      ensures Valid() && PeriodicStep(snap, cfg, lb, old(Abs()), ok, bad, Abs())
    {
      assert lb != "";
      hide Valid, Servers, Places, Refreshed, AllSynced, PeriodicStep;
      Unready(snap, cfg, lb, Abs());
      if !snap.synced { return true, {}; }
      var desired := Refresh(snap, lb);
      if desired.None? { return false, {}; }
      ok, bad := SyncAllUpstreams(lb, desired.value);
      PeriodicIs(snap, cfg, lb, old(Abs()), desired.value, ok, bad, Abs());
    }
  }

  lemma {:induction false} Unready(snap: Snapshot, cfg: Config, lb: string, c: Ctl)
    ensures !snap.synced ==> PeriodicStep(snap, cfg, lb, c, true, {}, c)
    ensures snap.synced && snap.listFault ==> PeriodicStep(snap, cfg, lb, c, false, {}, c)
  {
  }

  /** The phases of a periodic run put together. */
  lemma {:induction false} PeriodicIs(snap: Snapshot, cfg: Config, lb: string, c: Ctl,
      desired: map<string, DesiredUpstream>, ok: bool, bad: set<string>, c': Ctl)
    requires snap.synced && !snap.listFault && (ok ==> bad == {})
    requires c'.pods == c.pods && c'.nodes == c.nodes && c'.queue == c.queue
    requires Refreshed(snap, cfg, lb, c.services, c.lastKnown, c.upstreams, desired, c'.services, c'.lastKnown,
      c'.upstreams)
    requires AllSynced(c.lbs, lb, desired, Prunes(cfg, lb), ok, bad, c'.lbs)
    ensures PeriodicStep(snap, cfg, lb, c, ok, bad, c')
  {
    hide BulkVerdict, RecordedAt, BulkOutcome, LbAt;
    forall u: UpKey ensures if u.lb == lb then RecordedAt(c.upstreams, BulkVerdict(snap, cfg, u), u, c'.upstreams)
      else RecordedAt(c.upstreams, Keep, u, c'.upstreams)
    {
      assert RecordedAt(c.upstreams, VerdictOf(desired, lb, u), u, c'.upstreams);
    }
  }

  lemma {:induction false} OverlayNext(a: map<Key, Service>, b: map<Key, Service>, current: map<Key, Service>,
      s: Service)
    requires s.key in current ==> current[s.key] == s
    ensures (a + current)[s.key := s] == a + current[s.key := s]
    ensures (if s.key in current + b then current + b else (current + b)[s.key := s]) == current[s.key := s] + b
  {
  }

  // ------------------------------------------- the bulk path's desired state

  lemma {:induction false} DesiredIsVerdict(snap: Snapshot, cfg: Config, lb: string, all: seq<Service>,
      collected: map<string, DesiredUpstream>, desired: map<string, DesiredUpstream>)
    requires lb != ""
    requires forall s :: s in all <==> s.key in Managed(snap.view) && Managed(snap.view)[s.key] == s
    requires Collected(snap, cfg, lb, (set s | s in all), collected)
    requires desired.Keys == collected.Keys
    requires forall up :: up in desired ==>
      if collected[up].preserve then desired[up] == collected[up]
      else match Settle(cfg, lb, collected[up].backends)
        case Push(b) => desired[up] == DesiredUpstream(b, false)
        case _ => desired[up].preserve
    ensures forall u: UpKey :: u.lb == lb ==> VerdictOf(desired, lb, u) == BulkVerdict(snap, cfg, u)
  {
    hide Collected, Demand, LookupFails, VerdictOf, BulkVerdict;
    forall u: UpKey | u.lb == lb ensures VerdictOf(desired, lb, u) == BulkVerdict(snap, cfg, u) {
      DesiredAt(snap, cfg, lb, all, collected, desired, u);
    }
  }

  lemma {:induction false} DesiredAt(snap: Snapshot, cfg: Config, lb: string, all: seq<Service>,
      collected: map<string, DesiredUpstream>, desired: map<string, DesiredUpstream>, u: UpKey)
    requires u.lb == lb != ""
    requires forall s :: s in all <==> s.key in Managed(snap.view) && Managed(snap.view)[s.key] == s
    requires Collected(snap, cfg, lb, (set s | s in all), collected)
    requires desired.Keys == collected.Keys
    requires forall up :: up in desired ==>
      if collected[up].preserve then desired[up] == collected[up]
      else match Settle(cfg, lb, collected[up].backends)
        case Push(b) => desired[up] == DesiredUpstream(b, false)
        case _ => desired[up].preserve
    ensures VerdictOf(desired, lb, u) == BulkVerdict(snap, cfg, u)
  {
    hide Demand, LookupFails, Claims;
    if u.up != "" {
      var svcs := For((set s | s in all), lb, u.up);
      assert svcs == Sharing(snap.view, u);
      hide For, Sharing, Managed;
      assert CollectedAt(snap, cfg, svcs, collected, u.up);
      if u.up in collected && !collected[u.up].preserve {
        ListedIs(collected[u.up].backends, Demand(snap.view, cfg, svcs));
      }
    }
  }
}

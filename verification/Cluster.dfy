/** The informer's view of the cluster, and what each load balancer should be told about it. */
module Cluster {
  import opened Text
  import opened Backends
  import opened Rewriting

  datatype Key = Key(ns: string, name: string)
  datatype UpKey = UpKey(lb: string, up: string)

  const LB_LABEL := "mlb-loadbalancer-name"
  const UPSTREAM_LABEL := "mlb-upstream-name"
  const PORT_LABEL := "mlb-port"

  type Labels = map<string, string>

  /** A missing label reads as the empty string. */
  function Label(labels: Labels, name: string): string { if name in labels then labels[name] else "" }

  // ------------------------------------------------------------- services

  datatype RawService = RawService(labels: Labels, selector: Labels, serviceType: string, nodePorts: seq<int>)
  datatype Service = Service(key: Key, labels: Labels, selector: Labels, nodePort: int)

  predicate IsMLBService(s: RawService) {
    && LB_LABEL in s.labels && UPSTREAM_LABEL in s.labels && PORT_LABEL in s.labels
    && (s.serviceType == "LoadBalancer" || s.serviceType == "NodePort")
  }

  predicate IsPort(n: int) { 1 <= n <= 65535 }

  function GetNodePort(s: RawService): int {
    if PORT_LABEL in s.labels then
      match ParseSigned(s.labels[PORT_LABEL])
      case Some(n) => if IsPort(n) then n else 0
      case None => 0
    else if |s.nodePorts| > 0 && (s.serviceType == "NodePort" || s.serviceType == "LoadBalancer")
      && IsPort(s.nodePorts[0]) then
      s.nodePorts[0]
    else 0
  }

  function MapService(k: Key, s: RawService): Service { Service(k, s.labels, s.selector, GetNodePort(s)) }

  /** The services under control, by the fields of the cluster's own objects. A port label that is not a number from 1
      to 65535 gives the port 0; signs and zeros are read as `Text.ReadsIff` says. */
  lemma {:induction false} ManagedIs(v: View, k: Key)
    ensures k in Managed(v) <==>
      && k in v.services
      && "mlb-loadbalancer-name" in v.services[k].labels
      && "mlb-upstream-name" in v.services[k].labels
      && "mlb-port" in v.services[k].labels
      && (v.services[k].serviceType == "LoadBalancer" || v.services[k].serviceType == "NodePort")
    ensures k in Managed(v) ==>
      var raw, s := v.services[k], Managed(v)[k];
      && s.key == k && s.selector == raw.selector
      && Target(s) == UpKey(raw.labels["mlb-loadbalancer-name"], raw.labels["mlb-upstream-name"])
      && (s.nodePort == 0 || 1 <= s.nodePort <= 65535)
      && forall n :: 1 <= n <= 65535 ==> (s.nodePort == n <==> ParseSigned(raw.labels["mlb-port"]) == Some(n))
  {
    hide ParseSigned;
  }

  function LbName(s: Service): string { Label(s.labels, LB_LABEL) }

  function Target(s: Service): UpKey { UpKey(LbName(s), Label(s.labels, UPSTREAM_LABEL)) }

  /** Only upstreams with both names are ever sent to a load balancer. */
  predicate Proper(u: UpKey) { u.lb != "" && u.up != "" }

  // ------------------------------------------------------- pods and nodes

  datatype Pod = Pod(labels: Labels, ready: bool, nodeName: string)
  datatype Node = Node(internalIP: string, externalIP: string)
  datatype View = View(services: map<Key, RawService>, pods: map<Key, Pod>, nodes: map<string, Node>)

  /** The lister's selector: an empty one selects nothing. */
  predicate Selects(selector: Labels, labels: Labels) {
    selector != map[] && forall k :: k in selector ==> k in labels && labels[k] == selector[k]
  }

  /** The controller's own test, which reads a missing label as empty. */
  predicate MatchLabels(labels: Labels, selector: Labels) {
    selector != map[] && forall k :: k in selector ==> Label(labels, k) == selector[k]
  }

  /** The controller's test, label by label. */
  lemma {:induction false} MatchLabelsIff(labels: Labels, selector: Labels)
    ensures MatchLabels(labels, selector) <==>
      && (exists k :: k in selector)
      && forall k :: k in selector ==> (k in labels && labels[k] == selector[k]) || (k !in labels && selector[k] == "")
  {
  }

  lemma {:induction false} SelectedMatch(selector: Labels, labels: Labels)
    requires Selects(selector, labels)
    ensures MatchLabels(labels, selector)
  {
  }

  /** The services the listers hand out, by key. */
  function Managed(v: View): map<Key, Service> {
    map k | k in v.services && IsMLBService(v.services[k]) :: MapService(k, v.services[k])
  }

  ghost function Sharing(v: View, u: UpKey): set<Service> {
    set k | k in Managed(v) && Target(Managed(v)[k]) == u :: Managed(v)[k]
  }

  predicate SelectedBy(v: View, s: Service, p: Key) {
    p in v.pods && p.ns == s.key.ns && Selects(s.selector, v.pods[p].labels)
  }

  ghost function Selected(v: View, s: Service): set<Key> { set p | p in v.pods && SelectedBy(v, s, p) }

  predicate Scheduled(p: Pod) { p.ready && p.nodeName != "" }

  function Address(n: Node): string { if n.internalIP != "" then n.internalIP else n.externalIP }

  /** Some pod that counts runs on a node the lister does not know. */
  ghost predicate NodeMissing(v: View, s: Service) {
    exists p :: p in Selected(v, s) && Scheduled(v.pods[p]) && v.pods[p].nodeName !in v.nodes
  }

  predicate Serves(v: View, p: Pod) { Scheduled(p) && p.nodeName in v.nodes && Address(v.nodes[p.nodeName]) != "" }

  /** Ready, scheduled, selected pods whose node has an address. */
  ghost function Serving(v: View, s: Service): set<Key> {
    set p | p in v.pods && SelectedBy(v, s, p) && Serves(v, v.pods[p])
  }

  /** A pod serves a service exactly if it is in its namespace with all labels of its non-empty selector, ready, and on
      a known node with an internal or an external address. */
  lemma {:induction false} ServingIff(v: View, s: Service, p: Key)
    ensures p in Serving(v, s) <==>
      && p in v.pods && p.ns == s.key.ns
      && (exists k :: k in s.selector)
      && (forall k :: k in s.selector ==> k in v.pods[p].labels && v.pods[p].labels[k] == s.selector[k])
      && v.pods[p].ready && v.pods[p].nodeName != "" && v.pods[p].nodeName in v.nodes
      && (v.nodes[v.pods[p].nodeName].internalIP != "" || v.nodes[v.pods[p].nodeName].externalIP != "")
  {
  }

  lemma {:induction false} NodeMissingIff(v: View, s: Service)
    ensures NodeMissing(v, s) <==>
      && (exists k :: k in s.selector)
      && exists p: Key ::
        && p in v.pods && p.ns == s.key.ns
        && (forall k :: k in s.selector ==> k in v.pods[p].labels && v.pods[p].labels[k] == s.selector[k])
        && v.pods[p].ready && v.pods[p].nodeName != "" && v.pods[p].nodeName !in v.nodes
  {
  }

  // -------------------------------------------------------- configuration

  datatype DefaultBackend = DefaultBackend(ip: string, port: int, weight: int)
  datatype LbConfig = LbConfig(name: string, ipReplacement: bool, rules: IPReplacementList, allowEmpty: bool,
    defaultBackend: Option<DefaultBackend>, pruneOrphans: bool)
  datatype Config = Config(lbs: seq<LbConfig>, adapters: set<string>, global: GlobalList, codec: Codec,
    allowEmpty: bool, defaultBackend: Option<DefaultBackend>)

  function FindLb(lbs: seq<LbConfig>, name: string): Option<LbConfig> {
    if lbs == [] then None else if lbs[0].name == name then Some(lbs[0]) else FindLb(lbs[1..], name)
  }

  /** The entry that counts when several have the name. */
  predicate FirstNamed(lbs: seq<LbConfig>, name: string, i: int) {
    0 <= i < |lbs| && lbs[i].name == name && forall j :: 0 <= j < i ==> lbs[j].name != name
  }

  lemma {:induction false} FindLbIs(lbs: seq<LbConfig>, name: string)
    ensures forall i :: FirstNamed(lbs, name, i) ==> FindLb(lbs, name) == Some(lbs[i])
    ensures FindLb(lbs, name).Some? ==> exists i :: FirstNamed(lbs, name, i) && FindLb(lbs, name) == Some(lbs[i])
    ensures FindLb(lbs, name).None? <==> forall j :: 0 <= j < |lbs| ==> lbs[j].name != name
  {
    if lbs != [] && lbs[0].name != name {
      FindLbIs(lbs[1..], name);
      forall i | FirstNamed(lbs, name, i) ensures FindLb(lbs, name) == Some(lbs[i]) {
        assert forall j :: 0 <= j < i - 1 ==> lbs[1..][j] == lbs[j + 1];
        assert FirstNamed(lbs[1..], name, i - 1);
      }
      if FindLb(lbs, name).Some? {
        var i :| FirstNamed(lbs[1..], name, i) && FindLb(lbs, name) == Some(lbs[1..][i]);
        assert forall j :: 0 < j < i + 1 ==> lbs[j] == lbs[1..][j - 1];
        assert FirstNamed(lbs, name, i + 1);
      }
      assert forall j :: 0 < j < |lbs| ==> lbs[j] == lbs[1..][j - 1];
    }
  }

  function GetLoadBalancerConfig(cfg: Config, name: string): Option<LbConfig> { FindLb(cfg.lbs, name) }

  /** The address a load balancer is given for a node address. */
  function BackendIP(cfg: Config, lb: string, ip: string): string {
    match GetLoadBalancerConfig(cfg, lb)
    case Some(c) => if c.ipReplacement then Replacement(cfg.codec, ip, c.rules, cfg.global) else ip
    case None => ip
  }

  function DefaultFor(cfg: Config, lb: string): Option<DefaultBackend> {
    match GetLoadBalancerConfig(cfg, lb)
    case Some(c) => if c.defaultBackend.Some? then c.defaultBackend else cfg.defaultBackend
    case None => cfg.defaultBackend
  }

  predicate AllowEmpty(cfg: Config, lb: string) {
    cfg.allowEmpty || match GetLoadBalancerConfig(cfg, lb) case Some(c) => c.allowEmpty case None => false
  }

  predicate Prunes(cfg: Config, lb: string) {
    match GetLoadBalancerConfig(cfg, lb) case Some(c) => c.pruneOrphans case None => false
  }

  /** Empty upstreams are allowed for all load balancers, or by the first entry of this name; orphans are pruned only as
      that entry says. */
  lemma {:induction false} FlagsIff(cfg: Config, lb: string)
    ensures AllowEmpty(cfg, lb) <==> cfg.allowEmpty || exists i :: FirstNamed(cfg.lbs, lb, i) && cfg.lbs[i].allowEmpty
    ensures Prunes(cfg, lb) <==> exists i :: FirstNamed(cfg.lbs, lb, i) && cfg.lbs[i].pruneOrphans
  {
    hide FirstNamed, FindLb;
    FindLbIs(cfg.lbs, lb);
  }

  /** The default backend of the first entry of this name counts if it has one, even one without an address, else the
      global one. */
  lemma {:induction false} DefaultIs(cfg: Config, lb: string)
    ensures forall i :: FirstNamed(cfg.lbs, lb, i) && cfg.lbs[i].defaultBackend.Some? ==>
      DefaultFor(cfg, lb) == cfg.lbs[i].defaultBackend
    ensures (forall i :: FirstNamed(cfg.lbs, lb, i) ==> cfg.lbs[i].defaultBackend.None?) ==>
      DefaultFor(cfg, lb) == cfg.defaultBackend
  {
    hide FirstNamed, FindLb;
    FindLbIs(cfg.lbs, lb);
  }

  /** Rules apply only if the first entry of this name switches them on, and then they are its own. */
  lemma {:induction false} BackendIPIs(cfg: Config, lb: string, ip: string)
    ensures forall i :: FirstNamed(cfg.lbs, lb, i) && cfg.lbs[i].ipReplacement ==>
      BackendIP(cfg, lb, ip) == Replacement(cfg.codec, ip, cfg.lbs[i].rules, cfg.global)
    ensures (forall i :: FirstNamed(cfg.lbs, lb, i) ==> !cfg.lbs[i].ipReplacement) ==> BackendIP(cfg, lb, ip) == ip
  {
    hide FirstNamed, FindLb, Replacement;
    FindLbIs(cfg.lbs, lb);
  }

  // ------------------------------------------------------------- counting

  /** How many of `xs` each value of `f` has. */
  ghost function CountBy<X(!new), K(!new)>(xs: set<X>, f: X -> K): map<K, int> {
    map k | k in (set x | x in xs :: f(x)) :: |Class(xs, f, k)|
  }

  ghost function Class<X(!new), K(!new)>(xs: set<X>, f: X -> K, k: K): set<X> { set x | x in xs && f(x) == k }

  lemma CountInsertAt<X(!new)>(xs: set<X>, f: X -> BKey, x: X, k: BKey)
    requires x !in xs
    ensures k in CountBy(xs + {x}, f) <==> k in CountBy(xs, f) || k == f(x)
    ensures k in CountBy(xs + {x}, f) ==> CountBy(xs + {x}, f)[k] == Plus(CountBy(xs, f), f(x), 1)[k]
  {
    if y :| y in xs && f(y) == k { assert y in xs + {x}; }
    if k == f(x) {
      assert x in xs + {x};
      assert Class(xs + {x}, f, k) == Class(xs, f, k) + {x};
      if k !in CountBy(xs, f) { assert Class(xs, f, k) == {}; }
    } else {
      assert Class(xs + {x}, f, k) == Class(xs, f, k);
    }
  }

  lemma CountInsert<X(!new)>(xs: set<X>, f: X -> BKey, x: X)
    requires x !in xs
    ensures CountBy(xs + {x}, f) == Plus(CountBy(xs, f), f(x), 1)
  {
    hide CountBy;
    var l, r := CountBy(xs + {x}, f), Plus(CountBy(xs, f), f(x), 1);
    forall k ensures (k in l <==> k in r) && (k in l ==> l[k] == r[k]) { CountInsertAt(xs, f, x, k); }
  }

  lemma {:induction false} CountNone<X(!new)>(f: X -> BKey)
    ensures CountBy({}, f) == map[]
  {
  }

  lemma {:induction false} CountUnionNext<X(!new)>(xs: set<X>, ys: set<X>, f: X -> BKey, y: X)
    requires y !in xs + ys && CountBy(xs + ys, f) == Add(CountBy(xs, f), CountBy(ys, f))
    ensures CountBy(xs + (ys + {y}), f) == Add(CountBy(xs, f), CountBy(ys + {y}, f))
  {
    hide CountBy, Add, Plus;
    assert xs + (ys + {y}) == (xs + ys) + {y};
    CountInsert(xs + ys, f, y);
    CountInsert(ys, f, y);
    AddPlus(CountBy(xs, f), CountBy(ys, f), f(y), 1);
  }

  lemma {:induction false} CountUnion<X(!new)>(xs: set<X>, ys: set<X>, f: X -> BKey)
    requires xs !! ys
    ensures CountBy(xs + ys, f) == Add(CountBy(xs, f), CountBy(ys, f))
    decreases |ys|
  {
    hide CountBy, Add;
    if ys == {} {
      assert xs + ys == xs;
      CountNone(f);
      AddNothing(CountBy(xs, f));
    } else {
      var y :| y in ys;
      var rest := ys - {y};
      CountUnion(xs, rest, f);
      CountUnionNext(xs, rest, f, y);
      assert ys == rest + {y};
    }
  }

  lemma CountCongruent<X(!new)>(xs: set<X>, f: X -> BKey, g: X -> BKey)
    requires forall x :: x in xs ==> f(x) == g(x)
    ensures CountBy(xs, f) == CountBy(xs, g)
  {
    var l, r := CountBy(xs, f), CountBy(xs, g);
    forall k ensures k in l <==> k in r {
      if k in l { var x :| x in xs && f(x) == k; assert g(x) == k; }
      if k in r { var x :| x in xs && g(x) == k; assert f(x) == k; }
    }
    forall k | k in l ensures l[k] == r[k] { assert Class(xs, f, k) == Class(xs, g, k); }
  }

  lemma {:induction false} CountTotal<X(!new)>(xs: set<X>, f: X -> BKey)
    ensures Total(CountBy(xs, f)) == |xs|
    decreases |xs|
  {
    if xs == {} {
      assert CountBy(xs, f) == map[];
    } else {
      var x :| x in xs;
      CountTotal(xs - {x}, f);
      CountInsert(xs - {x}, f, x);
      assert xs - {x} + {x} == xs;
      TotalSet(CountBy(xs - {x}, f), f(x), Get(CountBy(xs - {x}, f), f(x)) + 1);
    }
  }

  // --------------------------------------------------------------- demand

  /** A pod claims one unit of weight for a service it serves. */
  datatype Claim = Claim(service: Service, pod: Key)

  ghost function Claims(v: View, svcs: set<Service>): set<Claim> {
    set s, p | s in svcs && p in v.pods && s.nodePort != 0 && p in Serving(v, s) :: Claim(s, p)
  }

  /** Where a claim's weight goes: the rewritten address of the pod's node, at the service's port. */
  ghost function ClaimKey(v: View, cfg: Config, c: Claim): BKey {
    BKey(
      if c.pod in v.pods && v.pods[c.pod].nodeName in v.nodes then
        BackendIP(cfg, LbName(c.service), Address(v.nodes[v.pods[c.pod].nodeName]))
      else "",
      c.service.nodePort)
  }

  /** The internal address of the pod's node before the external one, rewritten, at the service's port. */
  lemma {:induction false} ClaimKeyIs(v: View, cfg: Config, c: Claim)
    requires c.pod in Serving(v, c.service)
    ensures
      var node := v.nodes[v.pods[c.pod].nodeName];
      && (node.internalIP != "" ==>
            KeyOf(v, cfg)(c) == BKey(BackendIP(cfg, Target(c.service).lb, node.internalIP), c.service.nodePort))
      && (node.internalIP == "" ==>
            KeyOf(v, cfg)(c) == BKey(BackendIP(cfg, Target(c.service).lb, node.externalIP), c.service.nodePort))
  {
    hide BackendIP;
  }

  ghost function KeyOf(v: View, cfg: Config): Claim -> BKey { c => ClaimKey(v, cfg, c) }

  /** The weights an upstream shared by `svcs` should have. */
  ghost function Demand(v: View, cfg: Config, svcs: set<Service>): Tally {
    CountBy(Claims(v, svcs), KeyOf(v, cfg))
  }

  lemma DemandAdds(v: View, cfg: Config, svcs: set<Service>, s: Service)
    requires s !in svcs
    ensures Demand(v, cfg, svcs + {s}) == Add(Demand(v, cfg, svcs), Demand(v, cfg, {s}))
  {
    assert Claims(v, svcs + {s}) == Claims(v, svcs) + Claims(v, {s});
    CountUnion(Claims(v, svcs), Claims(v, {s}), KeyOf(v, cfg));
  }

  lemma {:induction false} DemandNone(v: View, cfg: Config, svcs: set<Service>)
    requires forall s :: s in svcs ==> s.nodePort == 0
    ensures Demand(v, cfg, svcs) == map[]
  {
    assert Claims(v, svcs) == {};
  }

  /** The claims, by the fields of services, pods and nodes. */
  lemma {:induction false} ClaimsAre(v: View, svcs: set<Service>)
    ensures Claims(v, svcs) == ReadyClaims(v, svcs)
  {
    forall s, p ensures Claim(s, p) in Claims(v, svcs) <==> Claim(s, p) in ReadyClaims(v, svcs) { ServingIff(v, s, p); }
    forall c ensures c in Claims(v, svcs) <==> c in ReadyClaims(v, svcs) { assert c == Claim(c.service, c.pod); }
  }

  /** One for each service with a port and each ready pod it selects on a known node that has an address. */
  ghost function ReadyClaims(v: View, svcs: set<Service>): set<Claim> {
    set s, p |
      && s in svcs && s.nodePort != 0
      && p in v.pods && p.ns == s.key.ns && s.selector != map[]
      && (forall k :: k in s.selector ==> k in v.pods[p].labels && v.pods[p].labels[k] == s.selector[k])
      && v.pods[p].ready && v.pods[p].nodeName != "" && v.pods[p].nodeName in v.nodes
      && (v.nodes[v.pods[p].nodeName].internalIP != "" || v.nodes[v.pods[p].nodeName].externalIP != "")
      :: Claim(s, p)
  }

  /** Pods that are not ready never matter: two views of the same nodes whose ready pods are the same ask for the
      same. */
  lemma UnreadyIrrelevant(v: View, v': View, cfg: Config, svcs: set<Service>)
    requires v'.nodes == v.nodes
    requires forall p :: p in v.pods && v.pods[p].ready ==> p in v'.pods && v'.pods[p] == v.pods[p]
    requires forall p :: p in v'.pods && v'.pods[p].ready ==> p in v.pods && v.pods[p] == v'.pods[p]
    ensures Demand(v, cfg, svcs) == Demand(v', cfg, svcs)
    ensures forall s :: NodeMissing(v, s) <==> NodeMissing(v', s)
  {
    forall s, p ensures p in Serving(v, s) <==> p in Serving(v', s) {
      ServingIff(v, s, p);
      ServingIff(v', s, p);
    }
    assert Claims(v, svcs) == Claims(v', svcs);
    forall c | c in Claims(v, svcs) ensures KeyOf(v, cfg)(c) == KeyOf(v', cfg)(c) {
      ServingIff(v, c.service, c.pod);
    }
    CountCongruent(Claims(v, svcs), KeyOf(v, cfg), KeyOf(v', cfg));
    forall s ensures NodeMissing(v, s) <==> NodeMissing(v', s) {
      NodeMissingIff(v, s);
      NodeMissingIff(v', s);
    }
  }

  /** Conservation: the total weight is the number of ready pods on known nodes with an address, over all services with
      a port that share the upstream, whatever the replacement rules map where. */
  lemma DemandConserves(v: View, cfg: Config, svcs: set<Service>)
    ensures Total(Demand(v, cfg, svcs)) == |ReadyClaims(v, svcs)|
  {
    ClaimsAre(v, svcs);
    CountTotal(Claims(v, svcs), KeyOf(v, cfg));
  }

  // -------------------------------------------------------------- verdicts

  /** The view of one step, and which lookups fail during it. */
  datatype Snapshot = Snapshot(view: View, podFaults: set<Key>, listFault: bool, synced: bool)

  /** What is to be done about one upstream. */
  datatype Verdict =
    | Skip                          // nothing to say about it
    | Fail                          // a lookup failed
    | Keep                          // leave the load balancer as it is
    | Push(backends: seq<Backend>)  // make it these

  predicate PodsFail(snap: Snapshot, s: Service) { s.selector != map[] && s.key in snap.podFaults }

  ghost predicate BuildFails(snap: Snapshot, s: Service) { s.nodePort != 0 && NodeMissing(snap.view, s) }

  ghost predicate LookupFails(snap: Snapshot, s: Service) { PodsFail(snap, s) || BuildFails(snap, s) }

  /** No backends: the default backend if there is one, an empty upstream if allowed, else the safety net. */
  function Settle(cfg: Config, lb: string, backends: seq<Backend>): Verdict {
    if |backends| > 0 then Push(backends)
    else
      match DefaultFor(cfg, lb)
      case Some(d) =>
        if d.ip != "" then Push([Backend(d.ip, d.port, if d.weight <= 0 then 1 else d.weight)])
        else if AllowEmpty(cfg, lb) then Push([]) else Keep
      case None => if AllowEmpty(cfg, lb) then Push([]) else Keep
  }

  /** Without backends: the default backend that counts, if it has an address, its weight at least 1. Without a usable
      one the upstream is left alone exactly if neither the global flag nor the first entry of this name allows empty
      ones, and emptied otherwise. Backends are never replaced. */
  lemma {:induction false} SettleIs(cfg: Config, lb: string, d: Option<DefaultBackend>)
    requires forall i :: FirstNamed(cfg.lbs, lb, i) && cfg.lbs[i].defaultBackend.Some? ==>
      d == cfg.lbs[i].defaultBackend
    requires (forall i :: FirstNamed(cfg.lbs, lb, i) ==> cfg.lbs[i].defaultBackend.None?) ==> d == cfg.defaultBackend
    ensures forall backends: seq<Backend> :: backends != [] ==> Settle(cfg, lb, backends) == Push(backends)
    ensures d.Some? && d.value.ip != "" ==>
      var w := if d.value.weight >= 1 then d.value.weight else 1;
      Settle(cfg, lb, []) == Push([Backend(d.value.ip, d.value.port, w)])
    ensures d.None? || d.value.ip == "" ==>
      && (Settle(cfg, lb, []) == Keep <==>
            !cfg.allowEmpty && forall i :: FirstNamed(cfg.lbs, lb, i) ==> !cfg.lbs[i].allowEmpty)
      && (Settle(cfg, lb, []) == Keep || Settle(cfg, lb, []) == Push([]))
  {
    hide AllowEmpty, DefaultFor, GetLoadBalancerConfig;
    DefaultIs(cfg, lb);
    if i :| FirstNamed(cfg.lbs, lb, i) && cfg.lbs[i].defaultBackend.Some? { assert DefaultFor(cfg, lb) == d; }
    assert DefaultFor(cfg, lb) == d;
    FlagsIff(cfg, lb);
  }

  ghost function Others(v: View, s: Service): set<Service> { set o | o in Sharing(v, Target(s)) && o.key != s.key }

  /** The event path, triggered by the service `s`. */
  ghost function EventVerdict(snap: Snapshot, cfg: Config, s: Service): Verdict {
    if !Proper(Target(s)) then Skip
    else if PodsFail(snap, s) then Fail
    else if s.nodePort == 0 then Skip
    else if BuildFails(snap, s) || snap.listFault
      || exists o :: o in Others(snap.view, s) && LookupFails(snap, o) then Fail
    else Settle(cfg, LbName(s), Listed(Demand(snap.view, cfg, Others(snap.view, s) + {s})))
  }

  /** The periodic path, for one upstream of a load balancer. */
  ghost function BulkVerdict(snap: Snapshot, cfg: Config, u: UpKey): Verdict {
    var svcs := Sharing(snap.view, u);
    if !Proper(u) then Skip
    else if exists s :: s in svcs && LookupFails(snap, s) then Keep
    else if forall s :: s in svcs ==> s.nodePort == 0 then Skip
    else Settle(cfg, u.lb, Listed(Demand(snap.view, cfg, svcs)))
  }

  /** Without a load balancer or an upstream in its labels a service asks for nothing, and no failed lookup changes
      that. */
  lemma {:induction false} UnnamedSkipped(snap: Snapshot, cfg: Config, s: Service, u: UpKey)
    ensures Target(s).lb == "" || Target(s).up == "" ==> EventVerdict(snap, cfg, s) == Skip
    ensures u.lb == "" || u.up == "" ==> BulkVerdict(snap, cfg, u) == Skip
  {
    hide Demand, LookupFails, PodsFail, BuildFails, Sharing, Settle;
  }

  lemma {:induction false} SharingSplit(v: View, s: Service)
    requires s in Sharing(v, Target(s))
    ensures Others(v, s) + {s} == Sharing(v, Target(s)) && s !in Others(v, s)
  {
  }

  /** Both paths say the same of an upstream, whichever service with a port triggered the event path;
      a failed lookup makes one report an error and the other preserve, and neither touches the load balancer. */
  lemma {:induction false} PathsAgree(snap: Snapshot, cfg: Config, s: Service)
    requires s in Sharing(snap.view, Target(s)) && Proper(Target(s)) && s.nodePort != 0 && !snap.listFault
    ensures
      var failed := exists o :: o in Sharing(snap.view, Target(s)) && LookupFails(snap, o);
      && (failed ==> EventVerdict(snap, cfg, s) == Fail && BulkVerdict(snap, cfg, Target(s)) == Keep)
      && (!failed ==> EventVerdict(snap, cfg, s) == BulkVerdict(snap, cfg, Target(s)))
  {
    SharingSplit(snap.view, s);
    var svcs := Sharing(snap.view, Target(s));
    if o :| o in svcs && LookupFails(snap, o) {
      assert o == s || o in Others(snap.view, s);
    }
  }

  /** A triggering service without a port changes nothing, although the periodic path may well push or prune. */
  lemma {:induction false} PathsDisagreeWithoutPort(snap: Snapshot, cfg: Config, s: Service)
    requires s in Sharing(snap.view, Target(s)) && Proper(Target(s)) && s.nodePort == 0
    requires !exists o :: o in Sharing(snap.view, Target(s)) && LookupFails(snap, o)
    ensures EventVerdict(snap, cfg, s) == Skip
    ensures BulkVerdict(snap, cfg, Target(s)) == Skip <==>
      forall o :: o in Sharing(snap.view, Target(s)) ==> o.nodePort == 0
  {
  }

  /** The safety net: without a default backend and where empty upstreams are not allowed, no path ever pushes an empty
      list, and an upstream of a service with a port is never left out of the periodic pass. */
  lemma {:induction false} NeverPushesEmpty(snap: Snapshot, cfg: Config, u: UpKey, s: Service)
    requires !cfg.allowEmpty && forall i :: FirstNamed(cfg.lbs, u.lb, i) ==> !cfg.lbs[i].allowEmpty
    ensures BulkVerdict(snap, cfg, u) != Push([])
    ensures Target(s) == u ==> EventVerdict(snap, cfg, s) != Push([])
    ensures s in Sharing(snap.view, u) && s.nodePort != 0 && Proper(u) ==> BulkVerdict(snap, cfg, u) != Skip
  {
    hide Demand, LookupFails, PodsFail, BuildFails, Sharing, FirstNamed, AllowEmpty;
    FlagsIff(cfg, u.lb);
  }
}

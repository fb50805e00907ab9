/** Runs from the start that come to rest without the load balancer holding what the cluster asks for, one for each
    condition of the run theorems. */
module Examples {
  import opened Text
  import opened Backends
  import opened Diff
  import opened Convergence
  import opened Cluster
  import opened Steps
  import opened Runs
  import opened Reconciled
  import Rewriting

  // ------------------------------------------------------------ the setting

  const SELECTOR: Labels := map["app" := "web"]
  const POD: Key := Key("shop", "web-1")
  const PODS: map<Key, Pod> := map[POD := Pod(SELECTOR, true, "n")]
  const NODES: map<string, Node> := map["n" := Node("10.0.0.1", "")]
  const PORT: string := Print(80)

  /** The service of interest, and others. */
  const WEB: Key := Key("shop", "web")
  const OTHER: Key := Key("shop", "other")
  const THIRD: Key := Key("shop", "third")

  const HERE: Place := Place("cdn", "http://10.0.0.5")
  const A: UpKey := UpKey("cdn", "a")
  const B: UpKey := UpKey("cdn", "b")
  const D: UpKey := UpKey("cdn", "d")

  /** The backend of the one pod, and the default backend. */
  const SERVING: Backend := Backend("10.0.0.1", 80, 1)
  const DEFAULT: Backend := Backend("10.0.0.9", 81, 1)

  ghost function Setting(): Config {
    Config([], {"cdn"}, Rewriting.GlobalList([], []), Rewriting.Codec(_ => None, _ => ""), false,
      Some(DefaultBackend(DEFAULT.ip, DEFAULT.port, DEFAULT.weight)))
  }

  function Raw(up: string, port: string, selector: Labels): RawService {
    RawService(map[LB_LABEL := "cdn", UPSTREAM_LABEL := up, PORT_LABEL := port], selector, "NodePort", [])
  }

  function Svc(k: Key, up: string, port: string, selector: Labels): Service { MapService(k, Raw(up, port, selector)) }

  lemma {:induction false} SvcIs(k: Key, up: string, port: string, selector: Labels)
    ensures IsMLBService(Raw(up, port, selector)) && Target(Svc(k, up, port, selector)) == UpKey("cdn", up)
    ensures port == PORT ==> Svc(k, up, port, selector).nodePort == 80
    ensures port == "" ==> Svc(k, up, port, selector).nodePort == 0
  {
    ParsePrint(80);
  }

  ghost function World(raw: map<Key, RawService>): View { View(raw, PODS, NODES) }

  /** A state with the pod and the node cached. */
  ghost function St(raw: map<Key, RawService>, events: seq<ServiceEvent>, services: map<Key, Service>,
      upstreams: map<UpKey, seq<Backend>>, lastKnown: map<Key, Service>, queue: set<Key>, srv: Server): State
  {
    State(World(raw), events, [], [], Ctl(services, PODS, NODES, upstreams, lastKnown, queue, map[HERE := srv]))
  }

  // --------------------------------------------------------------- verdicts

  lemma {:induction false} OneHeld(b: Backend)
    requires b.weight >= 1
    ensures Wanted([b]) == ContentOf([b]) == map[BackendKey(b) := b.weight]
  {
    hide BackendKey;
    assert [b][..0] == [] && [b][1..] == [];
    assert Desired([b]) == WithDesired(Desired([b][..0]), b);
    assert ContentOf([b]) == ContentOf([b][1..])[BackendKey(b) := b.weight];
  }

  lemma {:induction false} DifferentBackends()
    ensures Wanted([DEFAULT]) != Wanted([SERVING])
  {
    OneHeld(DEFAULT);
    OneHeld(SERVING);
    SameIffKey(DEFAULT, SERVING);
    hide BackendKey;
    assert BackendKey(DEFAULT) in Wanted([DEFAULT]);
  }

  lemma {:induction false} NothingMissing(raw: map<Key, RawService>, s: Service)
    ensures !LookupFails(Clean(World(raw)), s)
  {
    assert forall p :: p in Selected(World(raw), s) ==> p == POD;
  }

  /** The pod is all the upstream has, if only the service of interest selects it. */
  lemma {:induction false} ServingVerdict(raw: map<Key, RawService>, u: UpKey)
    requires WEB in raw && raw[WEB] == Raw(u.up, PORT, SELECTOR) && u.lb == "cdn" && u.up != ""
    requires forall j :: j in raw && j != WEB ==> raw[j].selector == map[]
    ensures BulkVerdict(Clean(World(raw)), Setting(), u) == Push([SERVING])
  {
    var v, cfg := World(raw), Setting();
    var svcs, web := Sharing(v, u), Svc(WEB, u.up, PORT, SELECTOR);
    SvcIs(WEB, u.up, PORT, SELECTOR);
    assert Managed(v)[WEB] == web && web in svcs;
    hide BulkVerdict, Setting, CountBy, KeyOf, Managed, Sharing, Claims, LookupFails, Svc, MapService, IsMLBService,
      Raw;
    ServingClaim(raw, u);
    ServingDemand(raw, web);
    ListedOne(SERVING);
    NothingFails(raw, svcs);
    VerdictIs(v, u, web, [SERVING]);
  }

  lemma {:induction false} NothingFails(raw: map<Key, RawService>, svcs: set<Service>)
    ensures forall s :: s in svcs ==> !LookupFails(Clean(World(raw)), s)
  {
    forall s | s in svcs ensures !LookupFails(Clean(World(raw)), s) { NothingMissing(raw, s); }
  }

  lemma {:induction false} VerdictIs(v: View, u: UpKey, s: Service, b: seq<Backend>)
    requires Proper(u) && s in Sharing(v, u) && s.nodePort != 0 && b != []
    requires forall o :: o in Sharing(v, u) ==> !LookupFails(Clean(v), o)
    requires Listed(Demand(v, Setting(), Sharing(v, u))) == b
    ensures BulkVerdict(Clean(v), Setting(), u) == Push(b)
  {
    hide Sharing, LookupFails, Demand, Setting;
  }

  lemma {:induction false} ServingDemand(raw: map<Key, RawService>, web: Service)
    requires web.nodePort == 80
    ensures CountBy({Claim(web, POD)}, KeyOf(World(raw), Setting())) == map[SERVING.Key() := SERVING.weight]
  {
    var c, f := Claim(web, POD), KeyOf(World(raw), Setting());
    assert f(c) == SERVING.Key();
    CountOne(c, f);
  }

  lemma {:induction false} ServingClaim(raw: map<Key, RawService>, u: UpKey)
    requires WEB in raw && raw[WEB] == Raw(u.up, PORT, SELECTOR) && u.lb == "cdn"
    requires forall j :: j in raw && j != WEB ==> raw[j].selector == map[]
    ensures Claims(World(raw), Sharing(World(raw), u)) == {Claim(Svc(WEB, u.up, PORT, SELECTOR), POD)}
  {
    var v := World(raw);
    var svcs, web := Sharing(v, u), Svc(WEB, u.up, PORT, SELECTOR);
    SvcIs(WEB, u.up, PORT, SELECTOR);
    assert Managed(v)[WEB] == web && web in svcs;
    assert "app" in SELECTOR;
    assert POD in Serving(v, web);
    forall s | s in svcs && s != web ensures Serving(v, s) == {} {
      assert s.key in raw && s.key != WEB && s.selector == map[];
    }
    forall c | c in Claims(v, svcs) ensures c == Claim(web, POD) {
      assert c.pod in Serving(v, c.service);
    }
    assert Claim(web, POD) in Claims(v, svcs);
  }

  lemma {:induction false} CountOne(c: Claim, f: Claim -> BKey)
    ensures CountBy({c}, f) == map[f(c) := 1]
  {
    assert Class({c}, f, f(c)) == {c};
    assert f(c) in CountBy({c}, f);
  }

  lemma {:induction false} ListedOne(b: Backend)
    ensures Listed(map[b.Key() := b.weight]) == [b]
  {
    assert [b][..0] == [];
    assert TallyOf([b]) == Plus(TallyOf([b][..0]), b.Key(), b.weight);
    ListedIs([b], map[b.Key() := b.weight]);
  }

  /** Without pods the default backend is wanted, as soon as some service has a port. */
  lemma {:induction false} DefaultVerdict(raw: map<Key, RawService>, u: UpKey, k: Key)
    requires Proper(u) && k in Managed(World(raw)) && Target(Managed(World(raw))[k]) == u
      && Managed(World(raw))[k].nodePort != 0
    requires forall s :: s in Sharing(World(raw), u) ==> s.nodePort == 0 || s.selector == map[]
    ensures BulkVerdict(Clean(World(raw)), Setting(), u) == Push([DEFAULT])
  {
    var v := World(raw);
    var svcs := Sharing(v, u);
    assert Managed(v)[k] in svcs;
    assert Claims(v, svcs) == {} by {
      forall s | s in svcs && s.nodePort != 0 ensures Serving(v, s) == {} {}
    }
    assert Demand(v, Setting(), svcs) == map[];
    ListedIs([], map[]);
    forall s | s in svcs ensures !LookupFails(Clean(v), s) { NothingMissing(raw, s); }
  }

  // ---------------------------------------------------------------- journeys

  /** A run to `s` from empty servers. It meets the condition on departures from `u` if `ports`, and the one on changes
      if `traced`. */
  ghost predicate Trip(run: seq<State>, steps: seq<Step>, s: State, u: UpKey, ports: bool, traced: bool) {
    && Run(Setting(), run, steps) && run[|steps|] == s && run[0].c.lbs == map[HERE := map[]]
    && StepsOk(run, steps, u, ports, traced)
  }

  ghost predicate StepsOk(run: seq<State>, steps: seq<Step>, u: UpKey, ports: bool, traced: bool)
    requires |run| == |steps| + 1
  {
    forall t :: 0 <= t < |steps| ==> StepOk(run[t], run[t + 1], steps[t], u, ports, traced)
  }

  ghost predicate StepOk(s: State, s': State, step: Step, u: UpKey, ports: bool, traced: bool) {
    && (ports && step.Work? ==> PortsWhenLeft(s.view, step.key, s.c.lastKnown, u))
    && (traced && step.ChangeService? && Lost(s, s', step.service, u) ==> Traced(s, step.service, u))
  }

  ghost predicate Comes(s: State, u: UpKey, ports: bool, traced: bool) {
    exists run, steps :: Trip(run, steps, s, u, ports, traced)
  }

  lemma {:induction false} RunOn(cfg: Config, run: seq<State>, steps: seq<Step>, s': State, step: Step)
    requires Run(cfg, run, steps) && Next(cfg, run[|steps|], s', step)
    ensures Run(cfg, run + [s'], steps + [step])
  {
    hide Next, Init;
    var n := |steps|;
    assert (run + [s'])[..n + 1] == run && (steps + [step])[..n] == steps;
  }

  lemma {:induction false} StepsOn(run: seq<State>, steps: seq<Step>, s': State, step: Step, u: UpKey, ports: bool,
      traced: bool)
    requires |run| == |steps| + 1 && StepsOk(run, steps, u, ports, traced)
    requires StepOk(run[|steps|], s', step, u, ports, traced)
    ensures StepsOk(run + [s'], steps + [step], u, ports, traced)
  {
    hide StepOk;
    var run', steps', n := run + [s'], steps + [step], |steps|;
    forall t | 0 <= t < |steps'| ensures StepOk(run'[t], run'[t + 1], steps'[t], u, ports, traced) {
      if t < n { assert run'[t] == run[t] && run'[t + 1] == run[t + 1] && steps'[t] == steps[t]; }
    }
  }

  lemma {:induction false} Onward(s: State, s': State, step: Step, u: UpKey, ports: bool, traced: bool)
    requires Comes(s, u, ports, traced) && Next(Setting(), s, s', step) && StepOk(s, s', step, u, ports, traced)
    ensures Comes(s', u, ports, traced)
  {
    hide Next, StepOk, Run, Setting, StepsOk;
    var run, steps :| Trip(run, steps, s, u, ports, traced);
    RunLength(Setting(), run, steps);
    RunOn(Setting(), run, steps, s', step);
    StepsOn(run, steps, s', step, u, ports, traced);
    assert Trip(run + [s'], steps + [step], s', u, ports, traced);
  }

  lemma {:induction false} AtStart(u: UpKey, ports: bool, traced: bool)
    ensures Comes(State(View(map[], map[], map[]), [], [], [],
      Ctl(map[], map[], map[], map[], map[], {}, map[HERE := map[]])), u, ports, traced)
  {
    var s := State(View(map[], map[], map[]), [], [], [],
      Ctl(map[], map[], map[], map[], map[], {}, map[HERE := map[]]));
    assert Init(s);
    assert Run(Setting(), [s], []);
    assert Trip([s], [], s, u, ports, traced);
  }

  /** The pod and its node are there, and cached, before any service. */
  lemma {:induction false} Prepared(u: UpKey, ports: bool, traced: bool)
    ensures Comes(St(map[], [], map[], map[], map[], {}, map[]), u, ports, traced)
  {
    hide Comes, Setting;
    var none := map[HERE := map[]];
    var pod, node := PODS[POD], NODES["n"];
    var s0 := State(View(map[], map[], map[]), [], [], [], Ctl(map[], map[], map[], map[], map[], {}, none));
    var s1 := State(View(map[], map[], NODES), [], [], [NodeEvent(Added, "n", node)], s0.c);
    var s2 := State(View(map[], PODS, NODES), [], [PodEvent(Added, POD, pod)], s1.nodeEvents, s0.c);
    var s3 := State(s2.view, [], s2.podEvents, [], s0.c.(nodes := NODES));
    var s4 := St(map[], [], map[], map[], map[], {}, map[]);
    AtStart(u, ports, traced);
    Onward(s0, s1, ChangeNode("n", Some(node)), u, ports, traced);
    Onward(s1, s2, ChangePod(POD, Some(pod)), u, ports, traced);
    assert MatchingNode(s2.c.services, s2.c.pods, "n") == {};
    assert s2.nodeEvents[1..] == [];
    Onward(s2, s3, HandleNode, u, ports, traced);
    assert Matching(s3.c.services, POD.ns, pod) == {};
    assert s3.podEvents[1..] == [];
    Onward(s3, s4, HandlePod, u, ports, traced);
  }

  // ------------------------------------------------------------ kinds of step

  lemma {:induction false} Here(srv: Server, u: UpKey)
    ensures LbAt(map[HERE := srv], u) == if u.lb == "cdn" then map[HERE := C(srv, u.up)] else map[]
  {
  }

  lemma {:induction false} PushedHere(srv: Server, u: UpKey, b: Backend)
    requires u.lb == "cdn" && b.weight >= 1
    ensures
      var lbs, lbs' := map[HERE := srv], map[HERE := srv[u.up := [b]]];
      && Reached(LbAt(lbs, u), Wanted([b]), true, LbAt(lbs', u))
      && forall w :: w != u ==> LbAt(lbs', w) == LbAt(lbs, w)
  {
    hide BackendKey, ContentOf, Wanted, LbAt, Outcome;
    OneHeld(b);
    var srv' := srv[u.up := [b]];
    forall w | w != u ensures LbAt(map[HERE := srv'], w) == LbAt(map[HERE := srv], w) {
      Here(srv, w);
      Here(srv', w);
      if w.lb == "cdn" { assert At(srv', w.up) == At(srv, w.up); }
    }
    Here(srv, u);
    Here(srv', u);
    Exactly(C(srv, u.up), Wanted([b]));
    assert At(srv', u.up) == [b];
  }

  lemma {:induction false} Exactly(c: Content, w: Content)
    ensures Outcome(c, w, true, w)
  {
  }

  /** A worker run, no departure being due, that sends one backend. */
  lemma {:induction false} WorkSends(s: State, k: Key, b: Backend, srv: Server)
    requires k in s.c.queue && k in Managed(s.view) && s.c.lbs == map[HERE := srv] && b.weight >= 1
    requires
      var svc := Managed(s.view)[k];
      && Target(svc).lb == "cdn" && Target(svc).up != "" && svc.nodePort != 0
      && !(k in s.c.lastKnown && Relabelled(s.c.lastKnown[k], svc))
      && BulkVerdict(Clean(s.view), Setting(), Target(svc)) == Push([b])
    ensures Next(Setting(), s, s.(c := Sent(s.c.(queue := s.c.queue - {k}), k, Managed(s.view)[k], b, srv)),
      Work(k, FINE, true))
  {
    var c, svc := s.c.(queue := s.c.queue - {k}), Managed(s.view)[k];
    hide ArriveStep, BulkVerdict, Setting;
    ArriveSends(s.view, k, c, b, srv);
    assert WorkerStep(Clean(s.view), Setting(), k, c, true, Sent(c, k, svc, b, srv));
    WorkIs(s, k, Sent(c, k, svc, b, srv));
  }

  ghost function Sent(c: Ctl, k: Key, svc: Service, b: Backend, srv: Server): Ctl {
    c.(lastKnown := c.lastKnown[k := svc], services := c.services[k := svc],
      upstreams := c.upstreams[Target(svc) := [b]],
       lbs := map[HERE := srv[Target(svc).up := [b]]])
  }

  lemma {:induction false} EventSends(v: View, svc: Service, b: Backend)
    requires svc in Sharing(v, Target(svc)) && Proper(Target(svc)) && svc.nodePort != 0
    requires BulkVerdict(Clean(v), Setting(), Target(svc)) == Push([b])
    ensures EventVerdict(Clean(v), Setting(), svc) == Push([b])
  {
    PathsAgree(Clean(v), Setting(), svc);
  }

  lemma {:induction false} SyncSends(v: View, svc: Service, c: Ctl, b: Backend, srv: Server)
    requires EventVerdict(Clean(v), Setting(), svc) == Push([b]) && Target(svc).lb == "cdn" && c.lbs == map[HERE := srv]
      && b.weight >= 1
    ensures
      var c' := c.(upstreams := c.upstreams[Target(svc) := [b]], lbs := map[HERE := srv[Target(svc).up := [b]]]);
      SyncStep(Clean(v), Setting(), svc, c, true, c')
  {
    hide EventVerdict, Target, Setting, Wanted, LbAt, Reached;
    PushedHere(srv, Target(svc), b);
    Configured();
  }

  lemma {:induction false} ArriveSends(v: View, k: Key, c: Ctl, b: Backend, srv: Server)
    requires k in Managed(v) && c.lbs == map[HERE := srv] && b.weight >= 1
    requires
      var svc := Managed(v)[k];
      && Target(svc).lb == "cdn" && Target(svc).up != "" && svc.nodePort != 0
      && BulkVerdict(Clean(v), Setting(), Target(svc)) == Push([b])
    ensures ArriveStep(Clean(v), Setting(), k, Managed(v)[k], c, true, Sent(c, k, Managed(v)[k], b, srv))
  {
    var svc := Managed(v)[k];
    assert svc in Sharing(v, Target(svc));
    hide Managed, Sharing, BulkVerdict, EventVerdict, SyncStep, Target, Setting;
    EventSends(v, svc, b);
    SyncSends(v, svc, c.(lastKnown := c.lastKnown[k := svc], services := c.services[k := svc]), b, srv);
  }

  /** An upstream without backends, drained. */
  lemma {:induction false} LeaveDrains(v: View, k: Key, last: Service, c: Ctl, srv: Server)
    requires Target(last).lb == "cdn" && Target(last).up != "" && Target(last).up !in srv && c.lbs == map[HERE := srv]
    requires Remaining(v, k, Target(last)) == {}
    ensures LeaveStep(Clean(v), Setting(), k, last, c, true, c.(upstreams := c.upstreams - {Target(last)}))
  {
    Here(srv, Target(last));
    assert Wanted([]) == map[];
  }

  lemma {:induction false} Changed(s: State, s': State, raw: map<Key, RawService>, k: Key, after: RawService)
    requires s.view == World(raw) && IsMLBService(after) && (k in raw ==> IsMLBService(raw[k]))
    requires s' == s.(view := World(raw[k := after]),
      svcEvents := s.svcEvents + [ServiceEvent(if k in raw then Updated else Added, MapService(k, after))])
    ensures Next(Setting(), s, s', ChangeService(k, Some(after)))
  {
  }

  /** A new service, and its event handled. */
  lemma {:induction false} Created(raw: map<Key, RawService>, services: map<Key, Service>,
      upstreams: map<UpKey, seq<Backend>>, lastKnown: map<Key, Service>, queue: set<Key>, srv: Server, k: Key,
      r: RawService, u: UpKey, ports: bool, traced: bool)
    requires Comes(St(raw, [], services, upstreams, lastKnown, queue, srv), u, ports, traced)
    requires k !in raw && k !in lastKnown && IsMLBService(r)
    ensures
      var svc := MapService(k, r);
      Comes(St(raw[k := r], [], services[k := svc], upstreams, lastKnown[k := svc], queue + {k}, srv), u, ports, traced)
  {
    hide Comes, IsMLBService, MapService;
    var svc := MapService(k, r);
    var s := St(raw, [], services, upstreams, lastKnown, queue, srv);
    var m := s.(view := World(raw[k := r]), svcEvents := [ServiceEvent(Added, svc)]);
    var s' := St(raw[k := r], [], services[k := svc], upstreams, lastKnown[k := svc], queue + {k}, srv);
    assert [] + [ServiceEvent(Added, svc)] == m.svcEvents;
    Changed(s, m, raw, k, r);
    assert k !in Managed(s.view);
    Onward(s, m, ChangeService(k, Some(r)), u, ports, traced);
    KeyIs(k, r);
    assert m.svcEvents[1..] == [];
    Onward(m, s', HandleService, u, ports, traced);
  }

  lemma {:induction false} KeyIs(k: Key, r: RawService)
    ensures MapService(k, r).key == k
  {
  }

  /** A service changed; its event stays pending. */
  lemma {:induction false} Edited(raw: map<Key, RawService>, events: seq<ServiceEvent>, services: map<Key, Service>,
      upstreams: map<UpKey, seq<Backend>>, lastKnown: map<Key, Service>, queue: set<Key>, srv: Server, k: Key,
      r: RawService, u: UpKey, ports: bool)
    requires Comes(St(raw, events, services, upstreams, lastKnown, queue, srv), u, ports, false)
    requires k in raw && IsMLBService(raw[k]) && IsMLBService(r)
    ensures
      var events' := events + [ServiceEvent(Updated, MapService(k, r))];
      Comes(St(raw[k := r], events', services, upstreams, lastKnown, queue, srv), u, ports, false)
  {
    var s := St(raw, events, services, upstreams, lastKnown, queue, srv);
    var s' := s.(view := World(raw[k := r]), svcEvents := events + [ServiceEvent(Updated, MapService(k, r))]);
    hide Comes, IsMLBService;
    Changed(s, s', raw, k, r);
    Onward(s, s', ChangeService(k, Some(r)), u, ports, false);
  }

  /** The first pending event, an update, handled. */
  lemma {:induction false} Noticed(raw: map<Key, RawService>, e: Service, events: seq<ServiceEvent>,
      services: map<Key, Service>, upstreams: map<UpKey, seq<Backend>>, lastKnown: map<Key, Service>, queue: set<Key>,
      srv: Server, u: UpKey, ports: bool, traced: bool)
    requires Comes(St(raw, [ServiceEvent(Updated, e)] + events, services, upstreams, lastKnown, queue, srv), u, ports,
      traced)
    ensures Comes(St(raw, events, services[e.key := e], upstreams, lastKnown, queue + {e.key}, srv), u, ports, traced)
  {
    hide Comes;
    var s := St(raw, [ServiceEvent(Updated, e)] + events, services, upstreams, lastKnown, queue, srv);
    assert s.svcEvents[1..] == events;
    Onward(s, St(raw, events, services[e.key := e], upstreams, lastKnown, queue + {e.key}, srv), HandleService, u,
      ports, traced);
  }

  lemma {:induction false} SvcOf(k: Key, up: string, port: string, selector: Labels)
    ensures MapService(k, Raw(up, port, selector)) == Svc(k, up, port, selector)
  {
  }

  // ------------------------------------------------ relabelled twice, shared

  /** The service is created under A and relabelled to B, which another service shares, before a worker has run on
      it. */
  lemma {:induction false} StrandedCreated()
    ensures
      var a, o, b := Svc(WEB, "a", PORT, SELECTOR), Svc(OTHER, "b", PORT, map[]), Svc(WEB, "b", PORT, SELECTOR);
      Comes(St(map[WEB := Raw("b", PORT, SELECTOR), OTHER := Raw("b", PORT, map[])], [ServiceEvent(Updated, b)],
        map[WEB := a, OTHER := o], map[], map[WEB := a, OTHER := o], {WEB, OTHER}, map[]), B, true, false)
  {
    var a, o, b := Svc(WEB, "a", PORT, SELECTOR), Svc(OTHER, "b", PORT, map[]), Svc(WEB, "b", PORT, SELECTOR);
    var ra, ro, rb := Raw("a", PORT, SELECTOR), Raw("b", PORT, map[]), Raw("b", PORT, SELECTOR);
    SvcIs(WEB, "a", PORT, SELECTOR);
    SvcIs(WEB, "b", PORT, SELECTOR);
    SvcIs(OTHER, "b", PORT, map[]);
    hide Comes, St, Raw, IsMLBService, MapService, Target;
    Prepared(B, true, false);
    var noRaw: map<Key, RawService>, none: map<Key, Service> := map[], map[];
    Created(noRaw, none, map[], none, {}, map[], WEB, ra, B, true, false);
    assert noRaw[WEB := ra] == map[WEB := ra] && none[WEB := a] == map[WEB := a];
    assert {} + {WEB} == {WEB};
    Created(map[WEB := ra], map[WEB := a], map[], map[WEB := a], {WEB}, map[], OTHER, ro, B, true, false);
    assert [] + [ServiceEvent(Updated, b)] == [ServiceEvent(Updated, b)];
    assert {WEB} + {OTHER} == {WEB, OTHER};
    var raw := map[WEB := ra, OTHER := ro];
    assert map[WEB := ra][OTHER := ro] == raw && raw[WEB := rb] == map[WEB := rb, OTHER := ro];
    assert map[WEB := a][OTHER := o] == map[WEB := a, OTHER := o];
    Edited(raw, [], map[WEB := a, OTHER := o], map[], map[WEB := a, OTHER := o], {WEB, OTHER}, map[], WEB, rb, B, true);
  }

  /** A run on the other service sends the pod to B, and then the service is relabelled again, to D. */
  lemma {:induction false} StrandedLeft()
    ensures
      var a, o, b, d := Svc(WEB, "a", PORT, SELECTOR), Svc(OTHER, "b", PORT, map[]), Svc(WEB, "b", PORT, SELECTOR),
        Svc(WEB, "d", PORT, SELECTOR);
      Comes(St(map[WEB := Raw("d", PORT, SELECTOR), OTHER := Raw("b", PORT, map[])],
        [ServiceEvent(Updated, b), ServiceEvent(Updated, d)],
        map[WEB := a, OTHER := o], map[B := [SERVING]], map[WEB := a, OTHER := o], {WEB}, map["b" := [SERVING]]), B,
          true, false)
  {
    var a, o, b, d := Svc(WEB, "a", PORT, SELECTOR), Svc(OTHER, "b", PORT, map[]), Svc(WEB, "b", PORT, SELECTOR),
      Svc(WEB, "d", PORT, SELECTOR);
    var rb, ro, rd := Raw("b", PORT, SELECTOR), Raw("b", PORT, map[]), Raw("d", PORT, SELECTOR);
    hide Comes, St, Raw, Svc, IsMLBService, Target, Managed, BulkVerdict, Setting, World;
    SvcIs(WEB, "b", PORT, SELECTOR);
    SvcIs(WEB, "d", PORT, SELECTOR);
    SvcIs(OTHER, "b", PORT, map[]);
    SvcOf(WEB, "d", PORT, SELECTOR);
    StrandedCreated();
    var raw, svcs := map[WEB := rb, OTHER := ro], map[WEB := a, OTHER := o];
    var es := [ServiceEvent(Updated, b)];
    var noUps: map<UpKey, seq<Backend>>, noSrv: Server := map[], map[];
    SharedServing();
    Processed(raw, es, svcs, noUps, svcs, {WEB, OTHER}, noSrv, OTHER, SERVING, B, true, false);
    assert {WEB, OTHER} - {OTHER} == {WEB};
    assert svcs[OTHER := o] == svcs && noUps[B := [SERVING]] == map[B := [SERVING]]
      && noSrv["b" := [SERVING]] == map["b" := [SERVING]];
    Edited(raw, es, svcs, map[B := [SERVING]], svcs, {WEB}, map["b" := [SERVING]], WEB, rd, B, true);
    assert raw[WEB := rd] == map[WEB := rd, OTHER := ro];
    assert es + [ServiceEvent(Updated, d)] == [ServiceEvent(Updated, b), ServiceEvent(Updated, d)];
  }

  lemma {:induction false} SharedServing()
    ensures
      var raw := map[WEB := Raw("b", PORT, SELECTOR), OTHER := Raw("b", PORT, map[])];
      && BulkVerdict(Clean(World(raw)), Setting(), B) == Push([SERVING])
      && Managed(World(raw)) == map[WEB := Svc(WEB, "b", PORT, SELECTOR), OTHER := Svc(OTHER, "b", PORT, map[])]
  {
    hide BulkVerdict, IsMLBService, MapService, Target, Setting, Managed;
    var raw := map[WEB := Raw("b", PORT, SELECTOR), OTHER := Raw("b", PORT, map[])];
    SvcIs(WEB, "b", PORT, SELECTOR);
    SvcIs(OTHER, "b", PORT, map[]);
    TwoManaged(raw[WEB], raw[OTHER]);
    ServingVerdict(raw, B);
  }

  /** A worker run that sends one backend, on a service that stays where it is. */
  lemma {:induction false} Processed(raw: map<Key, RawService>, events: seq<ServiceEvent>, services: map<Key, Service>,
      upstreams: map<UpKey, seq<Backend>>, lastKnown: map<Key, Service>, queue: set<Key>, srv: Server, k: Key,
      b: Backend, u: UpKey, ports: bool, traced: bool)
    requires Comes(St(raw, events, services, upstreams, lastKnown, queue, srv), u, ports, traced)
    requires k in queue && k in Managed(World(raw)) && b.weight >= 1 && k in lastKnown
      && lastKnown[k] == Managed(World(raw))[k]
    requires
      var svc := Managed(World(raw))[k];
      && Target(svc).lb == "cdn" && Target(svc).up != "" && svc.nodePort != 0
      && BulkVerdict(Clean(World(raw)), Setting(), Target(svc)) == Push([b])
    ensures
      var svc := Managed(World(raw))[k];
      Comes(St(raw, events, services[k := svc], upstreams[Target(svc) := [b]], lastKnown, queue - {k},
        srv[Target(svc).up := [b]]), u, ports, traced)
  {
    var svc := Managed(World(raw))[k];
    var s := St(raw, events, services, upstreams, lastKnown, queue, srv);
    hide Comes, BulkVerdict;
    WorkSends(s, k, b, srv);
    var s' := St(raw, events, services[k := svc], upstreams[Target(svc) := [b]], lastKnown, queue - {k},
      srv[Target(svc).up := [b]]);
    assert lastKnown[k := svc] == lastKnown;
    hide Managed, Target, Setting, Next;
    StaysOk(s, s', k, u, ports, traced);
    Onward(s, s', Work(k, FINE, true), u, ports, traced);
  }

  /** A worker run that leaves an upstream without backends and arrives at another one. */
  lemma {:induction false} WorkMoves(s: State, k: Key, b: Backend, srv: Server)
    requires k in s.c.queue && k in Managed(s.view) && k in s.c.lastKnown && s.c.lbs == map[HERE := srv]
      && b.weight >= 1
    requires
      var svc, last := Managed(s.view)[k], s.c.lastKnown[k];
      && Target(svc).lb == Target(last).lb == "cdn" && Target(svc).up != "" && Target(last).up != ""
      && svc.nodePort != 0
      && Relabelled(last, svc) && Target(last).up !in srv && Remaining(s.view, k, Target(last)) == {}
      && Target(last) !in s.c.upstreams && BulkVerdict(Clean(s.view), Setting(), Target(svc)) == Push([b])
    ensures Next(Setting(), s, s.(c := Sent(s.c.(queue := s.c.queue - {k}), k, Managed(s.view)[k], b, srv)),
      Work(k, FINE, true))
  {
    hide LeaveStep, ArriveStep, BulkVerdict, Managed, Target, Remaining, Relabelled, Setting;
    var c, svc := s.c.(queue := s.c.queue - {k}), Managed(s.view)[k];
    LeaveDrains(s.view, k, s.c.lastKnown[k], c, srv);
    assert c.upstreams - {Target(s.c.lastKnown[k])} == c.upstreams;
    assert c.(upstreams := c.upstreams) == c;
    ArriveSends(s.view, k, c, b, srv);
    MoveIs(s.view, k, c, Sent(c, k, svc, b, srv));
    WorkIs(s, k, Sent(c, k, svc, b, srv));
  }

  lemma {:induction false} MoveIs(v: View, k: Key, c: Ctl, c': Ctl)
    requires k in Managed(v) && k in c.lastKnown && Relabelled(c.lastKnown[k], Managed(v)[k])
    requires LeaveStep(Clean(v), Setting(), k, c.lastKnown[k], c, true, c)
      && ArriveStep(Clean(v), Setting(), k, Managed(v)[k], c, true, c')
    ensures WorkerStep(Clean(v), Setting(), k, c, true, c')
  {
    hide LeaveStep, ArriveStep, Managed, Relabelled, Setting;
  }

  lemma {:induction false} WorkIs(s: State, k: Key, c': Ctl)
    requires k in s.c.queue && WorkerStep(Clean(s.view), Setting(), k, s.c.(queue := s.c.queue - {k}), true, c')
    ensures Next(Setting(), s, s.(c := c'), Work(k, FINE, true))
  {
    hide WorkerStep, Setting;
  }

  lemma {:induction false} TwoManaged(web: RawService, other: RawService)
    requires IsMLBService(web) && IsMLBService(other)
    ensures Managed(World(map[WEB := web, OTHER := other])) == map[WEB := MapService(WEB, web),
      OTHER := MapService(OTHER, other)]
  {
    hide IsMLBService, MapService;
  }

  lemma {:induction false} Apart(raw: map<Key, RawService>)
    requires raw == map[WEB := Raw("d", PORT, SELECTOR), OTHER := Raw("b", PORT, map[])]
    ensures Managed(World(raw)) == map[WEB := Svc(WEB, "d", PORT, SELECTOR), OTHER := Svc(OTHER, "b", PORT, map[])]
    ensures Remaining(World(raw), WEB, A) == {}
    ensures BulkVerdict(Clean(World(raw)), Setting(), D) == Push([SERVING])
    ensures BulkVerdict(Clean(World(raw)), Setting(), B) == Push([DEFAULT])
  {
    hide BulkVerdict, IsMLBService, MapService, Target, Setting, Managed;
    SvcIs(WEB, "d", PORT, SELECTOR);
    SvcIs(OTHER, "b", PORT, map[]);
    TwoManaged(raw[WEB], raw[OTHER]);
    assert Svc(OTHER, "b", PORT, map[]).selector == map[] by { SelectorIs(OTHER, "b", PORT, map[]); }
    ServingVerdict(raw, D);
    DefaultVerdict(raw, B, OTHER);
  }

  lemma {:induction false} SelectorIs(k: Key, up: string, port: string, selector: Labels)
    ensures Svc(k, up, port, selector).selector == selector
  {
  }

  lemma {:induction false} Stale(v: View, c: Ctl, srv: Server)
    requires c.lbs == map[HERE := srv]
    requires BulkVerdict(Clean(v), Setting(), B) == Push([DEFAULT]) && "b" in srv && srv["b"] == [SERVING]
    ensures !Fresh(v, Setting(), c, B)
  {
    hide BulkVerdict, Wanted, ContentOf, BackendKey;
    DifferentBackends();
    OneHeld(SERVING);
    Here(srv, B);
    assert LbAt(map[HERE := srv], B)[HERE] == Wanted([SERVING]);
  }

  lemma {:induction false} StrandedNoticed()
    ensures
      var a, o, d := Svc(WEB, "a", PORT, SELECTOR), Svc(OTHER, "b", PORT, map[]), Svc(WEB, "d", PORT, SELECTOR);
      Comes(St(map[WEB := Raw("d", PORT, SELECTOR), OTHER := Raw("b", PORT, map[])], [], map[WEB := d, OTHER := o],
        map[B := [SERVING]],
        map[WEB := a, OTHER := o], {WEB}, map["b" := [SERVING]]), B, true, false)
  {
    hide Comes, Raw, Svc, St, MapService;
    var a, o, b, d := Svc(WEB, "a", PORT, SELECTOR), Svc(OTHER, "b", PORT, map[]), Svc(WEB, "b", PORT, SELECTOR),
      Svc(WEB, "d", PORT, SELECTOR);
    var raw, last := map[WEB := Raw("d", PORT, SELECTOR), OTHER := Raw("b", PORT, map[])], map[WEB := a, OTHER := o];
    var ups, srv := map[B := [SERVING]], map["b" := [SERVING]];
    KeyIs(WEB, Raw("b", PORT, SELECTOR));
    KeyIs(WEB, Raw("d", PORT, SELECTOR));
    SvcOf(WEB, "b", PORT, SELECTOR);
    SvcOf(WEB, "d", PORT, SELECTOR);
    StrandedLeft();
    assert [ServiceEvent(Updated, b)]
      + [ServiceEvent(Updated, d)] == [ServiceEvent(Updated, b), ServiceEvent(Updated, d)];
    assert [ServiceEvent(Updated, d)] + [] == [ServiceEvent(Updated, d)];
    assert {WEB} + {WEB} == {WEB};
    Noticed(raw, b, [ServiceEvent(Updated, d)], last, ups, last, {WEB}, srv, B, true, false);
    Noticed(raw, d, [], last[WEB := b], ups, last, {WEB}, srv, B, true, false);
    assert last[WEB := b][WEB := d] == map[WEB := d, OTHER := o];
  }

  /** A relabelled service stranded upstream B: at rest it holds the pod's backend, which no service that shares it
      selects, while the default backend is wanted, and the other service targets B still. The run meets the condition
      on departures. */
  lemma {:induction false} StrandedRun()
    ensures exists run, steps, s ::
      && Trip(run, steps, s, B, true, false) && Quiet(s) && !Fresh(s.view, Setting(), s.c, B)
      && Targets(s.view, OTHER, B)
  {
    hide Comes, BulkVerdict, Remaining, Raw, Svc, IsMLBService, MapService, Target, Setting, Managed, World, Wanted,
      ContentOf, Fresh, Trip, Next, StepOk;
    var a, o, d := Svc(WEB, "a", PORT, SELECTOR), Svc(OTHER, "b", PORT, map[]), Svc(WEB, "d", PORT, SELECTOR);
    var raw, srv := map[WEB := Raw("d", PORT, SELECTOR), OTHER := Raw("b", PORT, map[])], map["b" := [SERVING]];
    SvcIs(WEB, "a", PORT, SELECTOR);
    SvcIs(WEB, "d", PORT, SELECTOR);
    SvcIs(OTHER, "b", PORT, map[]);
    Apart(raw);
    StrandedNoticed();
    var s := St(raw, [], map[WEB := d, OTHER := o], map[B := [SERVING]], map[WEB := a, OTHER := o], {WEB}, srv);
    WorkMoves(s, WEB, SERVING, srv);
    var s' := s.(c := Sent(s.c.(queue := {WEB} - {WEB}), WEB, d, SERVING, srv));
    StaysOk(s, s', WEB, B, true, false);
    Onward(s, s', Work(WEB, FINE, true), B, true, false);
    Stale(s'.view, s'.c, srv["d" := [SERVING]]);
    AtLast(s', true, false);
  }

  lemma {:induction false} StaysOk(s: State, s': State, k: Key, u: UpKey, ports: bool, traced: bool)
    requires !Names(s.c.lastKnown, k, u) || Targets(s.view, k, u)
    ensures StepOk(s, s', Work(k, FINE, true), u, ports, traced)
  {
  }

  lemma {:induction false} AtLast(s: State, ports: bool, traced: bool)
    requires Comes(s, B, ports, traced)
    ensures exists run, steps :: Trip(run, steps, s, B, ports, traced)
  {
  }

  // ------------------------------------------- a port that becomes invalid

  /** A worker run on a service without a port sends nothing and succeeds. */
  lemma {:induction false} WorkSkips(s: State, k: Key)
    requires k in s.c.queue && k in Managed(s.view) && Managed(s.view)[k].nodePort == 0
    requires !(k in s.c.lastKnown && Relabelled(s.c.lastKnown[k], Managed(s.view)[k]))
    ensures
      var svc := Managed(s.view)[k];
      var c' := s.c.(queue := s.c.queue - {k}, lastKnown := s.c.lastKnown[k := svc],
        services := s.c.services[k := svc]);
      Next(Setting(), s, s.(c := c'), Work(k, FINE, true))
  {
    var svc, c := Managed(s.view)[k], s.c.(queue := s.c.queue - {k});
    var c' := c.(lastKnown := c.lastKnown[k := svc], services := c.services[k := svc]);
    assert ArriveStep(Clean(s.view), Setting(), k, svc, c, true, c');
    assert WorkerStep(Clean(s.view), Setting(), k, c, true, c');
    WorkIs(s, k, c');
  }

  /** Two services share B, one of them with the pod, and B is as wanted. */
  lemma {:induction false} SharedSynced()
    ensures
      var o, b := Svc(OTHER, "b", PORT, map[]), Svc(WEB, "b", PORT, SELECTOR);
      Comes(St(map[WEB := Raw("b", PORT, SELECTOR), OTHER := Raw("b", PORT, map[])], [], map[WEB := b, OTHER := o],
        map[B := [SERVING]],
        map[WEB := b, OTHER := o], {}, map["b" := [SERVING]]), B, true, false)
  {
    hide Comes, St, Raw, Svc, IsMLBService, MapService, Target, Managed, BulkVerdict, Setting, World;
    var o, b := Svc(OTHER, "b", PORT, map[]), Svc(WEB, "b", PORT, SELECTOR);
    var rb, ro := Raw("b", PORT, SELECTOR), Raw("b", PORT, map[]);
    var noRaw: map<Key, RawService>, none: map<Key, Service> := map[], map[];
    var noUps: map<UpKey, seq<Backend>>, noSrv: Server := map[], map[];
    SvcIs(WEB, "b", PORT, SELECTOR);
    SvcIs(OTHER, "b", PORT, map[]);
    SvcOf(WEB, "b", PORT, SELECTOR);
    SvcOf(OTHER, "b", PORT, map[]);
    SharedServing();
    Prepared(B, true, false);
    Created(noRaw, none, noUps, none, {}, noSrv, WEB, rb, B, true, false);
    assert noRaw[WEB := rb] == map[WEB := rb] && none[WEB := b] == map[WEB := b] && {} + {WEB} == {WEB};
    Created(map[WEB := rb], map[WEB := b], noUps, map[WEB := b], {WEB}, noSrv, OTHER, ro, B, true, false);
    var raw, svcs := map[WEB := rb, OTHER := ro], map[WEB := b, OTHER := o];
    assert map[WEB := rb][OTHER := ro] == raw && map[WEB := b][OTHER := o] == svcs && {WEB} + {OTHER} == {WEB, OTHER};
    Processed(raw, [], svcs, noUps, svcs, {WEB, OTHER}, noSrv, OTHER, SERVING, B, true, false);
    assert svcs[OTHER := o] == svcs && noUps[B := [SERVING]] == map[B := [SERVING]]
      && noSrv["b" := [SERVING]] == map["b" := [SERVING]];
    assert {WEB, OTHER} - {OTHER} == {WEB};
    Processed(raw, [], svcs, map[B := [SERVING]], svcs, {WEB}, map["b" := [SERVING]], WEB, SERVING, B, true, false);
    assert svcs[WEB := b] == svcs && {WEB} - {WEB} == {};
    assert map[B := [SERVING]][B := [SERVING]] == map[B := [SERVING]]
      && map["b" := [SERVING]]["b" := [SERVING]] == map["b" := [SERVING]];
  }

  lemma {:induction false} PortLost(raw: map<Key, RawService>)
    requires raw == map[WEB := Raw("b", "", SELECTOR), OTHER := Raw("b", PORT, map[])]
    ensures Managed(World(raw)) == map[WEB := Svc(WEB, "b", "", SELECTOR), OTHER := Svc(OTHER, "b", PORT, map[])]
    ensures BulkVerdict(Clean(World(raw)), Setting(), B) == Push([DEFAULT])
  {
    hide BulkVerdict, IsMLBService, MapService, Target, Setting, Managed;
    SvcIs(WEB, "b", "", SELECTOR);
    SvcIs(OTHER, "b", PORT, map[]);
    TwoManaged(raw[WEB], raw[OTHER]);
    assert Svc(OTHER, "b", PORT, map[]).selector == map[] by { SelectorIs(OTHER, "b", PORT, map[]); }
    DefaultVerdict(raw, B, OTHER);
  }

  /** The port of the service with the pod becomes invalid. Its own event triggers a sync that does nothing, and at rest
      B holds the pod's backend still. The run meets the condition on departures: no service leaves B. */
  lemma {:induction false} PortlessRun()
    ensures exists run, steps, s ::
      && Trip(run, steps, s, B, true, false) && Quiet(s) && !Fresh(s.view, Setting(), s.c, B)
  {
    hide Comes, BulkVerdict, Raw, Svc, IsMLBService, MapService, Target, Setting, Managed, World, Wanted, ContentOf,
      Fresh, Trip, Next;
    var o, b, p := Svc(OTHER, "b", PORT, map[]), Svc(WEB, "b", PORT, SELECTOR), Svc(WEB, "b", "", SELECTOR);
    var rb, ro, rp := Raw("b", PORT, SELECTOR), Raw("b", PORT, map[]), Raw("b", "", SELECTOR);
    var ups, srv := map[B := [SERVING]], map["b" := [SERVING]];
    SvcIs(WEB, "b", PORT, SELECTOR);
    SvcIs(WEB, "b", "", SELECTOR);
    SvcOf(WEB, "b", PORT, SELECTOR);
    SvcOf(WEB, "b", "", SELECTOR);
    KeyIs(WEB, rp);
    var raw, svcs := map[WEB := rp, OTHER := ro], map[WEB := b, OTHER := o];
    PortLost(raw);
    SharedSynced();
    Edited(map[WEB := rb, OTHER := ro], [], svcs, ups, svcs, {}, srv, WEB, rp, B, true);
    assert map[WEB := rb, OTHER := ro][WEB := rp] == raw;
    assert [] + [ServiceEvent(Updated, p)] == [ServiceEvent(Updated, p)] + [];
    Noticed(raw, p, [], svcs, ups, svcs, {}, srv, B, true, false);
    assert {} + {WEB} == {WEB};
    var s := St(raw, [], svcs[WEB := p], ups, svcs, {WEB}, srv);
    WorkSkips(s, WEB);
    var s' := St(raw, [], svcs[WEB := p], ups, svcs[WEB := p], {}, srv);
    assert svcs[WEB := p][WEB := p] == svcs[WEB := p] && {WEB} - {WEB} == {};
    Onward(s, s', Work(WEB, FINE, true), B, true, false);
    Stale(s'.view, s'.c, srv);
    AtLast(s', true, false);
  }

  // --------------------------------------- relabelled and deleted in between

  /** A periodic run that sends one backend to B, the only upstream with services. */
  lemma {:induction false} PeriodicSends(s: State, b: Backend)
    requires s.c.lbs == map[HERE := map[]] && s.c.upstreams == map[] && b.weight >= 1
    requires BulkVerdict(Clean(s.view), Setting(), B) == Push([b])
    requires (forall u: UpKey :: u != B ==> Sharing(s.view, u) == {})
      && forall k :: k in s.c.services ==> k in Managed(s.view)
    requires forall k :: k in Managed(s.view) ==> LbName(Managed(s.view)[k]) == "cdn"
    ensures
      var c' := s.c.(services := Managed(s.view), lastKnown := Managed(s.view) + s.c.lastKnown,
        upstreams := map[B := [b]],
        lbs := map[HERE := map["b" := [b]]]);
      Next(Setting(), s, s.(c := c'), Periodic("cdn", FINE, true, {}))
  {
    hide Managed, Sharing, LbName, BulkVerdict, RecordedAt, BulkOutcome, LbAt, Setting, PeriodicStep, Prunes;
    var v, c := s.view, s.c;
    var c' := c.(services := Managed(v), lastKnown := Managed(v) + c.lastKnown, upstreams := map[B := [b]],
      lbs := map[HERE := map["b" := [b]]]);
    assert OfLb(Managed(v), "cdn") == Managed(v);
    assert OffLb(c.services, "cdn") + Managed(v) == Managed(v);
    hide OfLb, OffLb;
    AllRecorded(v, b);
    AllSent(v, b);
    Configured();
    PeriodicIs(v, c, c');
  }

  /** What the periodic run says of an upstream; other load balancers are not concerned. */
  ghost function HereOrKept(v: View, u: UpKey): Verdict {
    if u.lb == "cdn" then BulkVerdict(Clean(v), Setting(), u) else Keep
  }

  lemma {:induction false} AllRecorded(v: View, b: Backend)
    requires BulkVerdict(Clean(v), Setting(), B) == Push([b]) && forall u: UpKey :: u != B ==> Sharing(v, u) == {}
    ensures forall u: UpKey :: RecordedAt(map[], HereOrKept(v, u), u, map[B := [b]])
  {
    hide BulkVerdict, RecordedAt, Sharing;
    forall u: UpKey ensures RecordedAt(map[], HereOrKept(v, u), u, map[B := [b]]) {
      RecordedHere(v, b, u);
    }
  }

  lemma {:induction false} AllSent(v: View, b: Backend)
    requires BulkVerdict(Clean(v), Setting(), B) == Push([b]) && (forall u: UpKey :: u != B ==> Sharing(v, u) == {})
      && b.weight >= 1
    ensures
      var lbs, lbs' := map[HERE := map[]], map[HERE := map["b" := [b]]];
      forall u: UpKey :: if u.lb == "cdn" && u.up != "" then
          BulkOutcome(LbAt(lbs, u), BulkVerdict(Clean(v), Setting(), u), Prunes(Setting(), "cdn"), true, true,
            LbAt(lbs', u))
        else LbAt(lbs', u) == LbAt(lbs, u)
  {
    hide BulkVerdict, BulkOutcome, LbAt, Sharing, Setting, Prunes;
    var none: Server := map[];
    var lbs, lbs' := map[HERE := none], map[HERE := map["b" := [b]]];
    PushedHere(none, B, b);
    assert none["b" := [b]] == map["b" := [b]];
    forall u: UpKey ensures if u.lb == "cdn" && u.up != "" then
        BulkOutcome(LbAt(lbs, u), BulkVerdict(Clean(v), Setting(), u), Prunes(Setting(), "cdn"), true, true,
          LbAt(lbs', u))
      else LbAt(lbs', u) == LbAt(lbs, u)
    {
      SentHere(v, b, u, LbAt(lbs, u), LbAt(lbs', u));
    }
  }

  lemma {:induction false} PeriodicIs(v: View, c: Ctl, c': Ctl)
    requires c'.pods == c.pods && c'.nodes == c.nodes && c'.queue == c.queue
    requires c'.services == OffLb(c.services, "cdn") + OfLb(Managed(v), "cdn")
      && c'.lastKnown == OfLb(Managed(v), "cdn") + c.lastKnown
    requires forall u: UpKey :: RecordedAt(c.upstreams, HereOrKept(v, u), u, c'.upstreams)
    requires forall u: UpKey :: if u.lb == "cdn" && u.up != "" then
        BulkOutcome(LbAt(c.lbs, u), BulkVerdict(Clean(v), Setting(), u), Prunes(Setting(), "cdn"), true, true,
          LbAt(c'.lbs, u))
      else LbAt(c'.lbs, u) == LbAt(c.lbs, u)
    ensures PeriodicStep(Clean(v), Setting(), "cdn", c, true, {}, c')
  {
    hide OffLb, OfLb, Managed, RecordedAt, BulkVerdict, BulkOutcome, LbAt, Setting, Prunes;
    forall u: UpKey
      ensures if u.lb == "cdn" then RecordedAt(c.upstreams, BulkVerdict(Clean(v), Setting(), u), u, c'.upstreams)
      else RecordedAt(c.upstreams, Keep, u, c'.upstreams)
    {
      assert RecordedAt(c.upstreams, HereOrKept(v, u), u, c'.upstreams);
    }
  }

  lemma {:induction false} Configured()
    ensures !Prunes(Setting(), "cdn") && "cdn" in Setting().adapters
  {
  }

  lemma {:induction false} RecordedHere(v: View, b: Backend, u: UpKey)
    requires BulkVerdict(Clean(v), Setting(), B) == Push([b]) && (u != B ==> Sharing(v, u) == {})
    ensures RecordedAt(map[], HereOrKept(v, u), u, map[B := [b]])
  {
  }

  lemma {:induction false} SentHere(v: View, b: Backend, u: UpKey, h: Holding, h': Holding)
    requires BulkVerdict(Clean(v), Setting(), B) == Push([b]) && (u != B ==> Sharing(v, u) == {})
    requires if u == B then Reached(h, Wanted([b]), true, h') else h' == h
    ensures if u.lb == "cdn" && u.up != "" then
        BulkOutcome(h, BulkVerdict(Clean(v), Setting(), u), Prunes(Setting(), "cdn"), true, true, h')
      else h' == h
  {
    hide Demand, LookupFails, Wanted, Reached;
    Configured();
  }

  /** Created under A, relabelled to B, and B filled by a periodic run before a worker has run on the service. */
  lemma {:induction false} ForgottenFilled()
    ensures
      var a, b := Svc(WEB, "a", PORT, map[]), Svc(WEB, "b", PORT, map[]);
      Comes(St(map[WEB := Raw("b", PORT, map[])], [ServiceEvent(Updated, b)], map[WEB := b], map[B := [DEFAULT]],
        map[WEB := a], {WEB},
        map["b" := [DEFAULT]]), B, true, false)
  {
    hide Comes, BulkVerdict, Raw, Svc, IsMLBService, MapService, Target, Setting, World, Sharing, LbName;
    var a, b := Svc(WEB, "a", PORT, map[]), Svc(WEB, "b", PORT, map[]);
    var ra, rb := Raw("a", PORT, map[]), Raw("b", PORT, map[]);
    var noRaw: map<Key, RawService>, none: map<Key, Service> := map[], map[];
    var noUps: map<UpKey, seq<Backend>>, noSrv: Server := map[], map[];
    SvcIs(WEB, "a", PORT, map[]);
    SvcIs(WEB, "b", PORT, map[]);
    SvcOf(WEB, "a", PORT, map[]);
    SvcOf(WEB, "b", PORT, map[]);
    Prepared(B, true, false);
    Created(noRaw, none, noUps, none, {}, noSrv, WEB, ra, B, true, false);
    assert noRaw[WEB := ra] == map[WEB := ra] && none[WEB := a] == map[WEB := a] && {} + {WEB} == {WEB};
    Edited(map[WEB := ra], [], map[WEB := a], noUps, map[WEB := a], {WEB}, noSrv, WEB, rb, B, true);
    assert map[WEB := ra][WEB := rb] == map[WEB := rb] && [] + [ServiceEvent(Updated, b)] == [ServiceEvent(Updated, b)];
    OneManaged();
    var s := St(map[WEB := rb], [ServiceEvent(Updated, b)], map[WEB := a], noUps, map[WEB := a], {WEB}, noSrv);
    PeriodicSends(s, DEFAULT);
    assert map[WEB := b] + map[WEB := a] == map[WEB := a];
    var s' := St(map[WEB := rb], [ServiceEvent(Updated, b)], map[WEB := b], map[B := [DEFAULT]], map[WEB := a], {WEB},
      map["b" := [DEFAULT]]);
    Onward(s, s', Periodic("cdn", FINE, true, {}), B, true, false);
  }

  lemma {:induction false} OneManaged()
    ensures
      var v, b := World(map[WEB := Raw("b", PORT, map[])]), Svc(WEB, "b", PORT, map[]);
      && Managed(v) == map[WEB := b] && LbName(b) == "cdn" && BulkVerdict(Clean(v), Setting(), B) == Push([DEFAULT])
      && forall u: UpKey :: u != B ==> Sharing(v, u) == {}
  {
    hide BulkVerdict, Setting;
    SvcIs(WEB, "b", PORT, map[]);
    var raw := map[WEB := Raw("b", PORT, map[])];
    assert Managed(World(raw)) == map[WEB := Svc(WEB, "b", PORT, map[])];
    DefaultVerdict(raw, B, WEB);
  }

  /** The service deleted, and both events handled. */
  lemma {:induction false} ForgottenDeleted()
    ensures
      var a := Svc(WEB, "a", PORT, map[]);
      Comes(St(map[], [], map[], map[B := [DEFAULT]], map[WEB := a], {WEB}, map["b" := [DEFAULT]]), B, true, false)
  {
    hide Comes, Raw, Svc, IsMLBService, MapService;
    var a, b, rb := Svc(WEB, "a", PORT, map[]), Svc(WEB, "b", PORT, map[]), Raw("b", PORT, map[]);
    var ups, srv := map[B := [DEFAULT]], map["b" := [DEFAULT]];
    SvcIs(WEB, "b", PORT, map[]);
    SvcOf(WEB, "b", PORT, map[]);
    KeyIs(WEB, rb);
    ForgottenFilled();
    var s := St(map[WEB := rb], [ServiceEvent(Updated, b)], map[WEB := b], ups, map[WEB := a], {WEB}, srv);
    var gone := ServiceEvent(Deleted, b);
    var m := St(map[], [ServiceEvent(Updated, b)] + [gone], map[WEB := b], ups, map[WEB := a], {WEB}, srv);
    assert map[WEB := rb] - {WEB} == map[];
    assert EventsOf(WEB, Some(rb), None) == [gone];
    Onward(s, m, ChangeService(WEB, None), B, true, false);
    Noticed(map[], b, [gone], map[WEB := b], ups, map[WEB := a], {WEB}, srv, B, true, false);
    assert map[WEB := b][WEB := b] == map[WEB := b] && {WEB} + {WEB} == {WEB};
    var n := St(map[], [gone], map[WEB := b], ups, map[WEB := a], {WEB}, srv);
    assert [gone][1..] == [] && map[WEB := b] - {WEB} == map[];
    Onward(n, St(map[], [], map[], ups, map[WEB := a], {WEB}, srv), HandleService, B, true, false);
  }

  lemma {:induction false} ForgetIs(v: View, k: Key, c: Ctl)
    requires k !in Managed(v) && k in c.lastKnown && LeaveStep(Clean(v), Setting(), k, c.lastKnown[k], c, true, c)
    ensures WorkerStep(Clean(v), Setting(), k, c, true,
      c.(lastKnown := c.lastKnown - {k}, services := c.services - {k}))
  {
    hide LeaveStep, Managed, Setting;
  }

  /** At rest B holds the default backend, and no service of the cluster or among the last known ones names it, so
      nothing but a periodic run that prunes will ever drain it. */
  lemma {:induction false} ForgottenRun()
    ensures exists run, steps, s ::
      && Trip(run, steps, s, B, true, false) && Quiet(s) && !Bare(LbAt(s.c.lbs, B)) && s.view.services == map[]
      && s.c.lastKnown == map[]
  {
    hide Comes, Raw, Svc, IsMLBService, MapService, Target, Setting, Wanted, ContentOf, BackendKey, WorkerStep,
      LeaveStep, LbAt, Trip;
    var a, ups, srv := Svc(WEB, "a", PORT, map[]), map[B := [DEFAULT]], map["b" := [DEFAULT]];
    SvcIs(WEB, "a", PORT, map[]);
    ForgottenDeleted();
    var s := St(map[], [], map[], ups, map[WEB := a], {WEB}, srv);
    var c := s.c.(queue := {WEB} - {WEB});
    LeaveDrains(s.view, WEB, a, c, srv);
    assert c.upstreams - {A} == c.upstreams && c.(upstreams := c.upstreams) == c;
    var c' := c.(lastKnown := map[WEB := a] - {WEB}, services := s.c.services - {WEB});
    ForgetIs(s.view, WEB, c);
    WorkIs(s, WEB, c');
    Onward(s, s.(c := c'), Work(WEB, FINE, true), B, true, false);
    OneHeld(DEFAULT);
    Here(srv, B);
    assert LbAt(c'.lbs, B)[HERE] != map[] by { assert BackendKey(DEFAULT) in LbAt(c'.lbs, B)[HERE]; }
    AtLast(s.(c := c'), true, false);
  }

  // --------------------------------- a departure beside one without a port

  /** A worker run on a service without a port that stays where it is. */
  lemma {:induction false} Skipped(raw: map<Key, RawService>, services: map<Key, Service>,
      upstreams: map<UpKey, seq<Backend>>, lastKnown: map<Key, Service>, queue: set<Key>, srv: Server, k: Key, u: UpKey,
      ports: bool, traced: bool)
    requires Comes(St(raw, [], services, upstreams, lastKnown, queue, srv), u, ports, traced)
    requires k in queue && k in Managed(World(raw)) && Managed(World(raw))[k].nodePort == 0
    requires k in lastKnown && k in services && lastKnown[k] == services[k] == Managed(World(raw))[k]
    ensures Comes(St(raw, [], services, upstreams, lastKnown, queue - {k}, srv), u, ports, traced)
  {
    hide Comes, Managed, Target, Setting, Next;
    var s := St(raw, [], services, upstreams, lastKnown, queue, srv);
    var s' := St(raw, [], services, upstreams, lastKnown, queue - {k}, srv);
    WorkSkips(s, k);
    assert lastKnown[k := lastKnown[k]] == lastKnown && services[k := services[k]] == services;
    StaysKnown(World(raw), lastKnown, k, u);
    StaysOk(s, s', k, u, ports, traced);
    Onward(s, s', Work(k, FINE, true), u, ports, traced);
  }

  lemma {:induction false} StaysKnown(v: View, lastKnown: map<Key, Service>, k: Key, u: UpKey)
    requires k in Managed(v) && k in lastKnown && lastKnown[k] == Managed(v)[k]
    ensures !Names(lastKnown, k, u) || Targets(v, k, u)
  {
  }

  /** A service deleted while its last known labels are its own, and the event handled. */
  lemma {:induction false} Removed(raw: map<Key, RawService>, services: map<Key, Service>,
      upstreams: map<UpKey, seq<Backend>>, lastKnown: map<Key, Service>, queue: set<Key>, srv: Server, k: Key, u: UpKey,
      ports: bool, traced: bool)
    requires Comes(St(raw, [], services, upstreams, lastKnown, queue, srv), u, ports, traced)
    requires k in raw && IsMLBService(raw[k]) && k in lastKnown && lastKnown[k] == MapService(k, raw[k])
    ensures Comes(St(raw - {k}, [], services - {k}, upstreams, lastKnown, queue + {k}, srv), u, ports, traced)
  {
    hide Comes, Setting, IsMLBService, MapService;
    var svc := MapService(k, raw[k]);
    var s := St(raw, [], services, upstreams, lastKnown, queue, srv);
    var m := s.(view := World(raw - {k}), svcEvents := [ServiceEvent(Deleted, svc)]);
    var s' := St(raw - {k}, [], services - {k}, upstreams, lastKnown, queue + {k}, srv);
    assert [] + [ServiceEvent(Deleted, svc)] == m.svcEvents && m.svcEvents[1..] == [];
    assert Next(Setting(), s, m, ChangeService(k, None));
    assert Managed(s.view)[k] == svc && k !in Managed(m.view);
    Onward(s, m, ChangeService(k, None), u, ports, traced);
    KeyIs(k, raw[k]);
    Onward(m, s', HandleService, u, ports, traced);
  }

  /** The worker run on it leaves the upstream to a service without a port, sends nothing, and forgets it. */
  lemma {:induction false} LeftBehind(raw: map<Key, RawService>, services: map<Key, Service>,
      upstreams: map<UpKey, seq<Backend>>, lastKnown: map<Key, Service>, srv: Server, k: Key, o: Service, ports: bool)
    requires Comes(St(raw, [], services, upstreams, lastKnown, {k}, srv), B, ports, true)
    requires k !in raw && k !in services && k in lastKnown && Target(lastKnown[k]) == B
    requires o in Sharing(World(raw), B) && o.nodePort == 0 && (ports ==> PortsAt(World(raw), B))
    ensures Comes(St(raw, [], services, upstreams, lastKnown - {k}, {}, srv), B, ports, true)
  {
    hide Comes, Setting, Target, Sharing, Managed, PortsAt, Remaining, Next, StepOk;
    var s := St(raw, [], services, upstreams, lastKnown, {k}, srv);
    var s' := St(raw, [], services, upstreams, lastKnown - {k}, {}, srv);
    AbsentIn(raw, k);
    RemainingAll(s.view, k, B);
    ForgottenBeside(s, k, o);
    assert {k} - {k} == {} && services - {k} == services;
    DepartureOk(s, s', k, ports);
    Onward(s, s', Work(k, FINE, true), B, ports, true);
  }

  lemma {:induction false} AbsentIn(raw: map<Key, RawService>, k: Key)
    requires k !in raw
    ensures k !in Managed(World(raw))
  {
  }

  lemma {:induction false} ForgottenBeside(s: State, k: Key, o: Service)
    requires k in s.c.queue && k !in Managed(s.view) && k in s.c.lastKnown && Proper(Target(s.c.lastKnown[k]))
    requires o in Remaining(s.view, k, Target(s.c.lastKnown[k])) && o.nodePort == 0
    ensures
      var c' := s.c.(queue := s.c.queue - {k}, lastKnown := s.c.lastKnown - {k}, services := s.c.services - {k});
      Next(Setting(), s, s.(c := c'), Work(k, FINE, true))
  {
    hide Setting, Target, Managed, Remaining, Next, WorkerStep, LeaveStep;
    var c := s.c.(queue := s.c.queue - {k});
    PortlessLeaves(Clean(s.view), Setting(), k, c.lastKnown[k], c, o);
    ForgetIs(s.view, k, c);
    WorkIs(s, k, c.(lastKnown := c.lastKnown - {k}, services := c.services - {k}));
  }

  lemma {:induction false} DepartureOk(s: State, s': State, k: Key, ports: bool)
    requires ports ==> PortsAt(s.view, B)
    ensures StepOk(s, s', Work(k, FINE, true), B, ports, true)
  {
  }

  lemma {:induction false} TwoSynced()
    ensures
      var b, o := Svc(WEB, "b", PORT, SELECTOR), Svc(OTHER, "b", "", map[]);
      var raw, svcs := map[WEB := Raw("b", PORT, SELECTOR), OTHER := Raw("b", "", map[])], map[WEB := b, OTHER := o];
      Comes(St(raw, [], svcs, map[B := [SERVING]], svcs, {}, map["b" := [SERVING]]), B, true, true)
  {
    hide Comes, St, Raw, Svc, IsMLBService, MapService, Target, Managed, BulkVerdict, Setting, World;
    var b, o := Svc(WEB, "b", PORT, SELECTOR), Svc(OTHER, "b", "", map[]);
    var rb, ro := Raw("b", PORT, SELECTOR), Raw("b", "", map[]);
    var noRaw: map<Key, RawService>, none: map<Key, Service> := map[], map[];
    var noUps: map<UpKey, seq<Backend>>, noSrv: Server := map[], map[];
    SvcIs(WEB, "b", PORT, SELECTOR);
    SvcIs(OTHER, "b", "", map[]);
    SvcOf(WEB, "b", PORT, SELECTOR);
    SvcOf(OTHER, "b", "", map[]);
    Prepared(B, true, true);
    Created(noRaw, none, noUps, none, {}, noSrv, WEB, rb, B, true, true);
    assert noRaw[WEB := rb] == map[WEB := rb] && none[WEB := b] == map[WEB := b] && {} + {WEB} == {WEB};
    Created(map[WEB := rb], map[WEB := b], noUps, map[WEB := b], {WEB}, noSrv, OTHER, ro, B, true, true);
    var raw, svcs := map[WEB := rb, OTHER := ro], map[WEB := b, OTHER := o];
    assert map[WEB := rb][OTHER := ro] == raw && map[WEB := b][OTHER := o] == svcs && {WEB} + {OTHER} == {WEB, OTHER};
    PortlessBeside();
    Processed(raw, [], svcs, noUps, svcs, {WEB, OTHER}, noSrv, WEB, SERVING, B, true, true);
    assert svcs[WEB := b] == svcs && noUps[B := [SERVING]] == map[B := [SERVING]]
      && noSrv["b" := [SERVING]] == map["b" := [SERVING]];
    assert {WEB, OTHER} - {WEB} == {OTHER} && {OTHER} - {OTHER} == {};
    Skipped(raw, svcs, map[B := [SERVING]], svcs, {OTHER}, map["b" := [SERVING]], OTHER, B, true, true);
  }

  lemma {:induction false} PortlessBeside()
    ensures
      var raw := map[WEB := Raw("b", PORT, SELECTOR), OTHER := Raw("b", "", map[])];
      && BulkVerdict(Clean(World(raw)), Setting(), B) == Push([SERVING])
      && Managed(World(raw)) == map[WEB := Svc(WEB, "b", PORT, SELECTOR), OTHER := Svc(OTHER, "b", "", map[])]
  {
    hide BulkVerdict, IsMLBService, MapService, Target, Setting, Managed;
    var raw := map[WEB := Raw("b", PORT, SELECTOR), OTHER := Raw("b", "", map[])];
    SvcIs(WEB, "b", PORT, SELECTOR);
    SvcIs(OTHER, "b", "", map[]);
    TwoManaged(raw[WEB], raw[OTHER]);
    ServingVerdict(raw, B);
  }

  lemma {:induction false} OnlyPortless(raw: map<Key, RawService>)
    requires raw == map[OTHER := Raw("b", "", map[])]
    ensures Sharing(World(raw), B) == {Svc(OTHER, "b", "", map[])} && Svc(OTHER, "b", "", map[]).nodePort == 0
      && PortsAt(World(raw), B)
    ensures forall k :: !Feeds(World(raw), k, B)
  {
    SvcIs(OTHER, "b", "", map[]);
    var o := Svc(OTHER, "b", "", map[]);
    assert Managed(World(raw)) == map[OTHER := o];
    assert Managed(World(raw))[OTHER] == o;
    hide IsMLBService, MapService, Svc, Managed;
    assert o in Sharing(World(raw), B);
  }

  /** A service with a port and one without share B. The first is deleted, the worker leaves B to the second, and at
      rest B holds the backend of the pod still, although no service with a port is there. The run meets all conditions
      of the convergence theorem: nothing definite is asked for. */
  lemma {:induction false} DepartedRun()
    ensures exists run, steps, s ::
      && Trip(run, steps, s, B, true, true) && Quiet(s) && !Bare(LbAt(s.c.lbs, B))
      && (forall k :: !Feeds(s.view, k, B)) && s.c.lastKnown.Keys == {OTHER}
  {
    hide Comes, Raw, Svc, IsMLBService, MapService, Target, Setting, Wanted, ContentOf, BackendKey, World, LbAt,
      Sharing, PortsAt, Feeds, Managed, Trip, Bare;
    var b, o := Svc(WEB, "b", PORT, SELECTOR), Svc(OTHER, "b", "", map[]);
    var rb, ro, ups, srv := Raw("b", PORT, SELECTOR), Raw("b", "", map[]), map[B := [SERVING]], map["b" := [SERVING]];
    var raw, svcs := map[WEB := rb, OTHER := ro], map[WEB := b, OTHER := o];
    SvcIs(WEB, "b", PORT, SELECTOR);
    SvcOf(WEB, "b", PORT, SELECTOR);
    TwoSynced();
    Removed(raw, svcs, ups, svcs, {}, srv, WEB, B, true, true);
    var left: map<Key, RawService> := map[OTHER := ro];
    assert raw - {WEB} == left && svcs - {WEB} == map[OTHER := o] && {} + {WEB} == {WEB};
    OnlyPortless(left);
    LeftBehind(left, map[OTHER := o], ups, svcs, srv, WEB, o, true);
    var s := St(left, [], map[OTHER := o], ups, map[OTHER := o], {}, srv);
    HereHeld(srv);
    AtLast(s, true, true);
  }

  lemma {:induction false} HereHeld(srv: Server)
    requires "b" in srv && srv["b"] == [SERVING]
    ensures !Bare(LbAt(map[HERE := srv], B))
  {
    hide BackendKey, ContentOf, Wanted;
    OneHeld(SERVING);
    Here(srv, B);
    assert BackendKey(SERVING) in LbAt(map[HERE := srv], B)[HERE];
  }

  // ------------------------------- and another service with a port remains

  lemma {:induction false} ThirdBeside()
    ensures
      var raw := map[WEB := Raw("b", PORT, SELECTOR), OTHER := Raw("b", "", map[])][THIRD := Raw("b", PORT, map[])];
      && BulkVerdict(Clean(World(raw)), Setting(), B) == Push([SERVING])
      && THIRD in Managed(World(raw)) && Managed(World(raw))[THIRD] == Svc(THIRD, "b", PORT, map[])
  {
    hide BulkVerdict, Target, Setting;
    SvcIs(THIRD, "b", PORT, map[]);
    ServingVerdict(map[WEB := Raw("b", PORT, SELECTOR), OTHER := Raw("b", "", map[])][THIRD := Raw("b", PORT, map[])],
      B);
  }

  lemma {:induction false} TwoLeft(raw: map<Key, RawService>)
    requires raw == map[OTHER := Raw("b", "", map[]), THIRD := Raw("b", PORT, map[])]
    ensures Svc(OTHER, "b", "", map[]) in Sharing(World(raw), B) && Svc(OTHER, "b", "", map[]).nodePort == 0
    ensures BulkVerdict(Clean(World(raw)), Setting(), B) == Push([DEFAULT])
  {
    hide BulkVerdict, Setting;
    SvcIs(OTHER, "b", "", map[]);
    SvcIs(THIRD, "b", PORT, map[]);
    var v := World(raw);
    assert Managed(v)[OTHER] == Svc(OTHER, "b", "", map[]) && Managed(v)[THIRD] == Svc(THIRD, "b", PORT, map[]);
    DefaultVerdict(raw, B, THIRD);
  }

  /** The three services synced. */
  lemma {:induction false} ThreeSynced(two: map<Key, RawService>, svcs: map<Key, Service>,
      ups: map<UpKey, seq<Backend>>, srv: Server)
    requires two == map[WEB := Raw("b", PORT, SELECTOR), OTHER := Raw("b", "", map[])]
    requires svcs == map[WEB := Svc(WEB, "b", PORT, SELECTOR), OTHER := Svc(OTHER, "b", "", map[])]
    requires ups == map[B := [SERVING]] && srv == map["b" := [SERVING]]
    ensures
      var raw, all := two[THIRD := Raw("b", PORT, map[])], svcs[THIRD := Svc(THIRD, "b", PORT, map[])];
      Comes(St(raw, [], all, ups, all, {}, srv), B, false, true)
  {
    hide Comes, Raw, Svc, IsMLBService, MapService, Target, Setting, World, Sharing, Managed, BulkVerdict, St;
    var t, rt := Svc(THIRD, "b", PORT, map[]), Raw("b", PORT, map[]);
    SvcIs(THIRD, "b", PORT, map[]);
    SvcOf(THIRD, "b", PORT, map[]);
    TwoSynced();
    Weaker(St(two, [], svcs, ups, svcs, {}, srv));
    Created(two, svcs, ups, svcs, {}, srv, THIRD, rt, B, false, true);
    assert {} + {THIRD} == {THIRD} && {THIRD} - {THIRD} == {};
    ThirdBeside();
    var raw, all := two[THIRD := rt], svcs[THIRD := t];
    Processed(raw, [], all, ups, all, {THIRD}, srv, THIRD, SERVING, B, false, true);
    assert all[THIRD := t] == all && ups[B := [SERVING]] == ups && srv["b" := [SERVING]] == srv;
  }

  /** As before, but a third service, with a port, shares B all the time: at rest B holds the backend of the pod of the
      deleted service, while the default backend is wanted. The run meets the condition on changes. */
  lemma {:induction false} MixedRun()
    ensures exists run, steps, s ::
      && Trip(run, steps, s, B, false, true) && Quiet(s) && !Fresh(s.view, Setting(), s.c, B)
  {
    hide Comes, Raw, Svc, IsMLBService, MapService, Target, Setting, Wanted, ContentOf, BackendKey, World, Sharing,
      Managed, BulkVerdict;
    var b, o, t := Svc(WEB, "b", PORT, SELECTOR), Svc(OTHER, "b", "", map[]), Svc(THIRD, "b", PORT, map[]);
    var rb, ro, rt := Raw("b", PORT, SELECTOR), Raw("b", "", map[]), Raw("b", PORT, map[]);
    var ups, srv := map[B := [SERVING]], map["b" := [SERVING]];
    var two, svcs := map[WEB := rb, OTHER := ro], map[WEB := b, OTHER := o];
    SvcIs(WEB, "b", PORT, SELECTOR);
    SvcOf(WEB, "b", PORT, SELECTOR);
    ThreeSynced(two, svcs, ups, srv);
    var raw, all := two[THIRD := rt], svcs[THIRD := t];
    Removed(raw, all, ups, all, {}, srv, WEB, B, false, true);
    var left: map<Key, RawService> := map[OTHER := ro, THIRD := rt];
    assert raw - {WEB} == left && {} + {WEB} == {WEB};
    TwoLeft(left);
    LeftBehind(left, all - {WEB}, ups, all, srv, WEB, o, false);
    var s := St(left, [], all - {WEB}, ups, all - {WEB}, {}, srv);
    Stale(s.view, s.c, srv);
    AtLast(s, false, true);
  }

  lemma {:induction false} Weaker(s: State)
    requires Comes(s, B, true, true)
    ensures Comes(s, B, false, true)
  {
    var run, steps :| Trip(run, steps, s, B, true, true);
    hide Next, Init, PortsWhenLeft, Lost, Traced;
    forall t | 0 <= t < |steps| ensures StepOk(run[t], run[t + 1], steps[t], B, false, true) {
      assert StepOk(run[t], run[t + 1], steps[t], B, true, true);
    }
    assert Trip(run, steps, s, B, false, true);
  }
}

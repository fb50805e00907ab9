/** What each step of the controller may do to its state and to the load balancers. */
module Steps {
  import opened Backends
  import opened Diff
  import opened Convergence
  import opened Cluster

  datatype Kind = Added | Updated | Deleted
  datatype ServiceEvent = ServiceEvent(kind: Kind, service: Service)
  datatype PodEvent = PodEvent(kind: Kind, key: Key, pod: Pod)
  datatype NodeEvent = NodeEvent(kind: Kind, name: string, node: Node)

  /** One server of one load balancer. */
  datatype Place = Place(lb: string, url: string)

  /** The controller's caches and queue, and the servers of the load balancers. */
  datatype Ctl = Ctl(services: map<Key, Service>, pods: map<Key, Pod>, nodes: map<string, Node>,
    upstreams: map<UpKey, seq<Backend>>, lastKnown: map<Key, Service>, queue: set<Key>, lbs: map<Place, Server>)

  /** What each server of the upstream's load balancer holds for it. */
  type Holding = map<Place, Content>

  ghost function LbAt(lbs: map<Place, Server>, u: UpKey): Holding {
    map p | p in lbs && p.lb == u.lb :: C(lbs[p], u.up)
  }

  ghost predicate AllHold(h: Holding, w: Content) { forall p :: p in h ==> h[p] == w }

  /** No server holds a backend. */
  ghost predicate Bare(h: Holding) { AllHold(h, map[]) }

  /** Of this upstream the servers hold what they held, and the controller has recorded what it had. */
  ghost predicate SameAt(c: Ctl, c': Ctl, u: UpKey) {
    && LbAt(c'.lbs, u) == LbAt(c.lbs, u)
    && (u in c'.upstreams <==> u in c.upstreams) && (u in c.upstreams ==> c'.upstreams[u] == c.upstreams[u])
  }

  /** Every server ends between what it held and what it should hold, and with exactly that if no request failed. */
  ghost predicate Reached(h: Holding, w: Content, ok: bool, h': Holding) {
    h'.Keys == h.Keys && forall p :: p in h ==> Outcome(h[p], w, ok, h'[p])
  }

  // ---------------------------------------------------------------- events

  function OnServiceEvent(c: Ctl, e: ServiceEvent): Ctl {
    var k := e.service.key;
    match e.kind
    case Added =>
      c.(services := c.services[k := e.service],
         lastKnown := if k in c.lastKnown then c.lastKnown else c.lastKnown[k := e.service],
         queue := c.queue + {k})
    case Updated => c.(services := c.services[k := e.service], queue := c.queue + {k})
    case Deleted => c.(services := c.services - {k}, queue := c.queue + {k})
  }

  predicate Concerns(s: Service, ns: string, p: Pod) { s.key.ns == ns && MatchLabels(p.labels, s.selector) }

  /** Services whose selector the pod satisfies, as the controller tests it. */
  ghost function Matching(services: map<Key, Service>, ns: string, p: Pod): set<Key> {
    set k | k in services && Concerns(services[k], ns, p) :: services[k].key
  }

  /** The services a pod wakes: those of its namespace with a non-empty selector all of whose labels it has, a missing
      label counting as an empty one. */
  lemma {:induction false} MatchingIff(services: map<Key, Service>, ns: string, p: Pod, k: Key)
    requires forall j :: j in services ==> services[j].key == j
    ensures k in Matching(services, ns, p) <==>
      && k in services && k.ns == ns && (exists l :: l in services[k].selector)
      && forall l :: l in services[k].selector ==>
        (l in p.labels && p.labels[l] == services[k].selector[l]) || (l !in p.labels && services[k].selector[l] == "")
  {
    hide MatchLabels;
    if k in services { MatchLabelsIff(p.labels, services[k].selector); }
  }

  ghost function OnPodEvent(c: Ctl, e: PodEvent): Ctl {
    c.(pods := if e.kind == Deleted then c.pods - {e.key} else c.pods[e.key := e.pod],
       queue := c.queue
         + (if e.kind == Updated && e.key in c.pods then Matching(c.services, e.key.ns, c.pods[e.key]) else {})
         + Matching(c.services, e.key.ns, e.pod))
  }

  ghost function MatchingNode(services: map<Key, Service>, pods: map<Key, Pod>, name: string): set<Key> {
    set p, k | p in pods && pods[p].nodeName == name && k in Matching(services, p.ns, pods[p]) :: k
  }

  ghost function OnNodeEvent(c: Ctl, e: NodeEvent): Ctl {
    c.(nodes := if e.kind == Deleted then c.nodes - {e.name} else c.nodes[e.name := e.node],
       queue := c.queue + MatchingNode(c.services, c.pods, e.name))
  }

  // ---------------------------------------------------------------- worker

  /** One `SyncUpstream` of the adapter: exact on success, in between on failure (see `NginxAdapter`). */
  ghost predicate PushStep(cfg: Config, u: UpKey, backends: seq<Backend>, c: Ctl, ok: bool, c': Ctl) {
    if u.lb !in cfg.adapters then !ok && c' == c
    else
      && c' == c.(lbs := c'.lbs)
      && (forall w :: w != u ==> LbAt(c'.lbs, w) == LbAt(c.lbs, w))
      && Reached(LbAt(c.lbs, u), Wanted(backends), ok, LbAt(c'.lbs, u))
  }

  ghost predicate SyncStep(snap: Snapshot, cfg: Config, s: Service, c: Ctl, ok: bool, c': Ctl) {
    match EventVerdict(snap, cfg, s)
    case Skip => ok && c' == c
    case Fail => !ok && c' == c
    case Keep => ok && c' == c
    case Push(b) => PushStep(cfg, Target(s), b, c.(upstreams := c.upstreams[Target(s) := b]), ok, c')
  }

  /** Services other than `k` that target the upstream. */
  ghost function Remaining(v: View, k: Key, u: UpKey): set<Service> { set o | o in Sharing(v, u) && o.key != k }

  /** The upstream that `s` leaves is resynced from any other service that targets it, or else drained. */
  ghost predicate LeaveStep(snap: Snapshot, cfg: Config, k: Key, s: Service, c: Ctl, ok: bool, c': Ctl) {
    var u := Target(s);
    if !Proper(u) then ok && c' == c
    else if snap.listFault then !ok && c' == c
    else if Remaining(snap.view, k, u) != {} then
      exists o :: o in Remaining(snap.view, k, u) && SyncStep(snap, cfg, o, c, ok, c')
    else PushStep(cfg, u, [], c.(upstreams := c.upstreams - {u}), ok, c')
  }

  predicate Relabelled(last: Service, s: Service) { Target(last) != Target(s) && Proper(Target(last)) }

  ghost predicate ArriveStep(snap: Snapshot, cfg: Config, k: Key, s: Service, c: Ctl, ok: bool, c': Ctl) {
    SyncStep(snap, cfg, s, c.(lastKnown := c.lastKnown[k := s], services := c.services[k := s]), ok, c')
  }

  ghost predicate WorkerStep(snap: Snapshot, cfg: Config, k: Key, c: Ctl, ok: bool, c': Ctl) {
    if k !in Managed(snap.view) then
      if k !in c.lastKnown then ok && c' == c
      else if ok then
        exists m ::
          && LeaveStep(snap, cfg, k, c.lastKnown[k], c, true, m)
          && c' == m.(lastKnown := m.lastKnown - {k}, services := m.services - {k})
      else LeaveStep(snap, cfg, k, c.lastKnown[k], c, false, c')
    else
      var s := Managed(snap.view)[k];
      if k in c.lastKnown && Relabelled(c.lastKnown[k], s) then
        || (!ok && LeaveStep(snap, cfg, k, c.lastKnown[k], c, false, c'))
        || (exists m :: LeaveStep(snap, cfg, k, c.lastKnown[k], c, true, m) && ArriveStep(snap, cfg, k, s, m, ok, c'))
      else ArriveStep(snap, cfg, k, s, c, ok, c')
  }

  /** One item taken off the queue; after an error it goes back, with a delay that is not modelled. */
  ghost predicate ProcessStep(snap: Snapshot, cfg: Config, k: Key, c: Ctl, ok: bool, c': Ctl) {
    k in c.queue
    && exists m ::
      && WorkerStep(snap, cfg, k, c.(queue := c.queue - {k}), ok, m)
      && c' == if ok then m else m.(queue := m.queue + {k})
  }

  // -------------------------------------------------------------- periodic

  function OfLb(managed: map<Key, Service>, lb: string): map<Key, Service> {
    map k | k in managed && LbName(managed[k]) == lb :: managed[k]
  }

  function OffLb(services: map<Key, Service>, lb: string): map<Key, Service> {
    map k | k in services && LbName(services[k]) != lb :: services[k]
  }

  /** What one `SyncAllUpstreams` may do to one upstream: `synced` if its own listings and requests succeeded, `ok` if
      all did. */
  ghost predicate BulkOutcome(h: Holding, v: Verdict, prune: bool, ok: bool, synced: bool, h': Holding) {
    match v
    case Push(b) => Reached(h, Wanted(b), synced, h')
    case Skip => if prune then Reached(h, map[], ok, h') else h' == h
    case _ => h' == h
  }

  ghost predicate RecordedAt(m: map<UpKey, seq<Backend>>, v: Verdict, u: UpKey, m': map<UpKey, seq<Backend>>) {
    match v
    case Push(b) => u in m' && m'[u] == b
    case Skip => u !in m'
    case _ => (u in m' <==> u in m) && (u in m ==> m'[u] == m[u])
  }

  /** A periodic run on `lb`; `bad` are the upstreams for which a listing or a request failed. */
  ghost predicate PeriodicStep(snap: Snapshot, cfg: Config, lb: string, c: Ctl, ok: bool, bad: set<string>, c': Ctl) {
    if !snap.synced then ok && c' == c
    else if snap.listFault then !ok && c' == c
    else
      && (ok ==> bad == {})
      && c'.pods == c.pods && c'.nodes == c.nodes && c'.queue == c.queue
      && c'.services == OffLb(c.services, lb) + OfLb(Managed(snap.view), lb)
      && c'.lastKnown == OfLb(Managed(snap.view), lb) + c.lastKnown
      && (forall u: UpKey :: if u.lb == lb then RecordedAt(c.upstreams, BulkVerdict(snap, cfg, u), u, c'.upstreams)
            else RecordedAt(c.upstreams, Keep, u, c'.upstreams))
      && (forall u: UpKey :: if u.lb == lb && u.up != "" then
              BulkOutcome(LbAt(c.lbs, u), BulkVerdict(snap, cfg, u), Prunes(cfg, lb), ok, u.up !in bad, LbAt(c'.lbs, u))
            else LbAt(c'.lbs, u) == LbAt(c.lbs, u))
  }
}

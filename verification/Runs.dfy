/** All interleavings of cluster changes, event handling, worker runs and periodic runs, and what holds in all of
    them. */
module Runs {
  import opened Text
  import opened Backends
  import opened Cluster
  import opened Steps

  // ----------------------------------------------------- the state machine

  /** The informer's view, the event channels, and the controller with its load balancers. */
  datatype State = State(view: View, svcEvents: seq<ServiceEvent>, podEvents: seq<PodEvent>, nodeEvents: seq<NodeEvent>,
      c: Ctl)

  /** Which lookups fail during one step. */
  datatype Faults = Faults(pods: set<Key>, list: bool, synced: bool)

  const FINE: Faults := Faults({}, false, true)

  datatype Step =
    | ChangeService(service: Key, rawAfter: Option<RawService>)
    | ChangePod(pod: Key, podAfter: Option<Pod>)
    | ChangeNode(node: string, nodeAfter: Option<Node>)
    | HandleService
    | HandlePod
    | HandleNode
    | Work(key: Key, faults: Faults, ok: bool)
    | Periodic(lb: string, faults: Faults, ok: bool, bad: set<string>)

  function Lookup<K, V>(m: map<K, V>, k: K): Option<V> { if k in m then Some(m[k]) else None }

  function Replaced<K, V>(m: map<K, V>, k: K, v: Option<V>): map<K, V> {
    match v case Some(x) => m[k := x] case None => m - {k}
  }

  /** The watcher's classification of a change to a service. */
  function EventsOf(k: Key, before: Option<RawService>, after: Option<RawService>): seq<ServiceEvent> {
    match (before, after)
    case (None, None) => []
    case (None, Some(n)) => if IsMLBService(n) then [ServiceEvent(Added, MapService(k, n))] else []
    case (Some(o), None) => if IsMLBService(o) then [ServiceEvent(Deleted, MapService(k, o))] else []
    case (Some(o), Some(n)) =>
      if IsMLBService(o) && !IsMLBService(n) then [ServiceEvent(Deleted, MapService(k, o))]
      else if IsMLBService(n) then [ServiceEvent(Updated, MapService(k, n))]
      else []
  }

  function PodEventsOf(k: Key, before: Option<Pod>, after: Option<Pod>): seq<PodEvent> {
    match (before, after)
    case (None, None) => []
    case (None, Some(n)) => [PodEvent(Added, k, n)]
    case (Some(o), None) => [PodEvent(Deleted, k, o)]
    case (Some(_), Some(n)) => [PodEvent(Updated, k, n)]
  }

  function NodeEventsOf(k: string, before: Option<Node>, after: Option<Node>): seq<NodeEvent> {
    match (before, after)
    case (None, None) => []
    case (None, Some(n)) => [NodeEvent(Added, k, n)]
    case (Some(o), None) => [NodeEvent(Deleted, k, o)]
    case (Some(_), Some(n)) => [NodeEvent(Updated, k, n)]
  }

  function Observed(v: View, f: Faults): Snapshot { Snapshot(v, f.pods, f.list, f.synced) }

  ghost predicate Init(s: State) {
    && s.view == View(map[], map[], map[]) && s.svcEvents == [] && s.podEvents == [] && s.nodeEvents == []
    && s.c == Ctl(map[], map[], map[], map[], map[], {}, s.c.lbs)
  }

  ghost predicate Next(cfg: Config, s: State, s': State, step: Step) {
    match step
    case ChangeService(k, after) =>
      s' == s.(view := s.view.(services := Replaced(s.view.services, k, after)),
               svcEvents := s.svcEvents + EventsOf(k, Lookup(s.view.services, k), after))
    case ChangePod(k, after) =>
      s' == s.(view := s.view.(pods := Replaced(s.view.pods, k, after)),
               podEvents := s.podEvents + PodEventsOf(k, Lookup(s.view.pods, k), after))
    case ChangeNode(k, after) =>
      s' == s.(view := s.view.(nodes := Replaced(s.view.nodes, k, after)),
               nodeEvents := s.nodeEvents + NodeEventsOf(k, Lookup(s.view.nodes, k), after))
    case HandleService => s.svcEvents != []
      && s' == s.(svcEvents := s.svcEvents[1..], c := OnServiceEvent(s.c, s.svcEvents[0]))
    case HandlePod => s.podEvents != [] && s' == s.(podEvents := s.podEvents[1..], c := OnPodEvent(s.c, s.podEvents[0]))
    case HandleNode => s.nodeEvents != []
      && s' == s.(nodeEvents := s.nodeEvents[1..], c := OnNodeEvent(s.c, s.nodeEvents[0]))
    case Work(k, f, ok) => ProcessStep(Observed(s.view, f), cfg, k, s.c, ok, s'.c) && s' == s.(c := s'.c)
    case Periodic(lb, f, ok, bad) =>
      lb != "" && lb in cfg.adapters && PeriodicStep(Observed(s.view, f), cfg, lb, s.c, ok, bad, s'.c)
        && s' == s.(c := s'.c)
  }

  /** A finite run from the start: `steps[i]` leads from `run[i]` to `run[i + 1]`. */
  ghost predicate Run(cfg: Config, run: seq<State>, steps: seq<Step>)
    decreases |steps|
  {
    && |run| == |steps| + 1
    && if steps == [] then Init(run[0])
       else
         var n := |steps| - 1;
         Run(cfg, run[..n + 1], steps[..n]) && Next(cfg, run[n], run[n + 1], steps[n])
  }

  lemma {:induction false} RunLength(cfg: Config, run: seq<State>, steps: seq<Step>)
    requires Run(cfg, run, steps)
    ensures |run| == |steps| + 1
  {
  }

  lemma {:induction false} RunNext(cfg: Config, run: seq<State>, steps: seq<Step>, i: nat)
    requires Run(cfg, run, steps) && i < |steps|
    ensures Next(cfg, run[i], run[i + 1], steps[i])
    decreases |steps|
  {
    hide Next;
    var n := |steps| - 1;
    if i < n { RunNext(cfg, run[..n + 1], steps[..n], i); }
  }

  // ----------------------------------------------- caches follow the cluster

  ghost predicate PendingService(s: State, k: Key) {
    exists i :: 0 <= i < |s.svcEvents| && s.svcEvents[i].service.key == k
  }

  function ServiceAfter(v: Option<Service>, e: ServiceEvent, k: Key): Option<Service> {
    if e.service.key != k then v else if e.kind == Deleted then None else Some(e.service)
  }

  /** A cached service after all pending events. */
  function Replay(v: Option<Service>, events: seq<ServiceEvent>, k: Key): Option<Service>
    decreases |events|
  {
    if events == [] then v else Replay(ServiceAfter(v, events[0], k), events[1..], k)
  }

  ghost predicate AppliesTo(e: PodEvent, pods: map<Key, Pod>) {
    match e.kind
    case Added => e.key !in pods
    case Updated => e.key in pods
    case Deleted => e.key in pods && pods[e.key] == e.pod
  }

  function PodsAfter(pods: map<Key, Pod>, e: PodEvent): map<Key, Pod> {
    if e.kind == Deleted then pods - {e.key} else pods[e.key := e.pod]
  }

  /** The pending pod events lead from the cached pods to the pods of the view. */
  ghost predicate PodsFollow(pods: map<Key, Pod>, events: seq<PodEvent>, view: map<Key, Pod>)
    decreases |events|
  {
    if events == [] then pods == view
    else AppliesTo(events[0], pods) && PodsFollow(PodsAfter(pods, events[0]), events[1..], view)
  }

  ghost predicate Caches(s: State) {
    && (forall k :: k in s.c.services ==> s.c.services[k].key == k)
    && (forall k :: Replay(Lookup(s.c.services, k), s.svcEvents, k) == Lookup(Managed(s.view), k))
    && PodsFollow(s.c.pods, s.podEvents, s.view.pods)
  }

  lemma {:induction false} ReplayAppend(v: Option<Service>, a: seq<ServiceEvent>, b: seq<ServiceEvent>, k: Key)
    ensures Replay(v, a + b, k) == Replay(Replay(v, a, k), b, k)
    decreases |a|
  {
    if a == [] { assert a + b == b; } else {
      assert (a + b)[1..] == a[1..] + b;
      ReplayAppend(ServiceAfter(v, a[0], k), a[1..], b, k);
    }
  }

  lemma {:induction false} ReplayForgets(v: Option<Service>, w: Option<Service>, events: seq<ServiceEvent>, k: Key)
    ensures (exists i :: 0 <= i < |events| && events[i].service.key == k) ==>
      Replay(v, events, k) == Replay(w, events, k)
    ensures !(exists i :: 0 <= i < |events| && events[i].service.key == k) ==> Replay(v, events, k) == v
    decreases |events|
  {
    if events != [] {
      ReplayForgets(ServiceAfter(v, events[0], k), ServiceAfter(w, events[0], k), events[1..], k);
      if events[0].service.key != k {
        if i :| 0 <= i < |events| && events[i].service.key == k { assert events[1..][i - 1].service.key == k; }
        ReplayForgets(v, w, events[1..], k);
      }
    }
  }

  lemma {:induction false} FollowAppend(pods: map<Key, Pod>, events: seq<PodEvent>, view: map<Key, Pod>, e: PodEvent)
    requires PodsFollow(pods, events, view) && AppliesTo(e, view)
    ensures PodsFollow(pods, events + [e], PodsAfter(view, e))
    decreases |events|
  {
    if events == [] {
      assert [e][1..] == [];
    } else {
      assert (events + [e])[1..] == events[1..] + [e];
      FollowAppend(PodsAfter(pods, events[0]), events[1..], view, e);
    }
  }

  /** A pod of the view is the cached one, or some pending event carries it. */
  lemma {:induction false} LastVersion(pods: map<Key, Pod>, events: seq<PodEvent>, view: map<Key, Pod>, p: Key)
    requires PodsFollow(pods, events, view) && p in view
    ensures (p in pods && pods[p] == view[p])
      || exists i :: 0 <= i < |events| && events[i].key == p && events[i].pod == view[p]
    decreases |events|
  {
    if events != [] {
      LastVersion(PodsAfter(pods, events[0]), events[1..], view, p);
      if i :| 0 <= i < |events[1..]| && events[1..][i].key == p && events[1..][i].pod == view[p] {
        assert events[i + 1].key == p && events[i + 1].pod == view[p];
      } else if events[0].key == p {
        assert events[0].pod == view[p];
      }
    }
  }

  lemma {:induction false} ManagedChange(v: View, k: Key, after: Option<RawService>)
    ensures
      var v' := v.(services := Replaced(v.services, k, after));
      && (forall j :: j != k ==> Lookup(Managed(v'), j) == Lookup(Managed(v), j))
      && (forall m: Option<Service> :: m == Lookup(Managed(v), k) ==>
            Replay(m, EventsOf(k, Lookup(v.services, k), after), k) == Lookup(Managed(v'), k))
      && (forall j, m: Option<Service> :: j != k ==> Replay(m, EventsOf(k, Lookup(v.services, k), after), j) == m)
  {
    var es := EventsOf(k, Lookup(v.services, k), after);
    assert |es| <= 1 && (|es| == 1 ==> es[1..] == []);
  }

  /** A pod change and its event agree. */
  lemma {:induction false} PodChange(view: map<Key, Pod>, k: Key, after: Option<Pod>)
    ensures
      var es := PodEventsOf(k, Lookup(view, k), after);
      if es == [] then Replaced(view, k, after) == view
      else es == [es[0]] && AppliesTo(es[0], view) && PodsAfter(view, es[0]) == Replaced(view, k, after)
  {
  }

  // ---------------------------------------------------- frames of the steps

  lemma {:induction false} PushFrame(cfg: Config, w: UpKey, b: seq<Backend>, c: Ctl, ok: bool, c': Ctl)
    requires PushStep(cfg, w, b, c, ok, c')
    ensures c' == c.(lbs := c'.lbs)
    ensures forall u :: u != w ==> LbAt(c'.lbs, u) == LbAt(c.lbs, u)
  {
    hide LbAt;
  }

  lemma {:induction false} SyncFrame(snap: Snapshot, cfg: Config, s: Service, c: Ctl, ok: bool, c': Ctl)
    requires SyncStep(snap, cfg, s, c, ok, c')
    ensures c' == c.(lbs := c'.lbs, upstreams := c'.upstreams)
    ensures forall u :: u != Target(s) ==> LbAt(c'.lbs, u) == LbAt(c.lbs, u)
    ensures forall u :: u != Target(s) ==> SameAt(c, c', u)
  {
    hide LbAt, PushStep, EventVerdict;
    if EventVerdict(snap, cfg, s).Push? {
      var b := EventVerdict(snap, cfg, s).backends;
      PushFrame(cfg, Target(s), b, c.(upstreams := c.upstreams[Target(s) := b]), ok, c');
    }
  }

  lemma {:induction false} LeaveFrame(snap: Snapshot, cfg: Config, k: Key, s: Service, c: Ctl, ok: bool, c': Ctl)
    requires LeaveStep(snap, cfg, k, s, c, ok, c')
    ensures c' == c.(lbs := c'.lbs, upstreams := c'.upstreams)
    ensures forall u :: u != Target(s) ==> LbAt(c'.lbs, u) == LbAt(c.lbs, u)
    ensures forall u :: u != Target(s) ==> SameAt(c, c', u)
  {
    hide LbAt, PushStep, SyncStep;
    var u := Target(s);
    if Proper(u) && !snap.listFault {
      if Remaining(snap.view, k, u) != {} {
        var o :| o in Remaining(snap.view, k, u) && SyncStep(snap, cfg, o, c, ok, c');
        SyncFrame(snap, cfg, o, c, ok, c');
      } else {
        PushFrame(cfg, u, [], c.(upstreams := c.upstreams - {u}), ok, c');
      }
    }
  }

  /** What a worker run does to everything but the load balancers. */
  ghost predicate WorkFrame(v: View, k: Key, c: Ctl, ok: bool, c': Ctl) {
    && c'.pods == c.pods && c'.nodes == c.nodes
    && c'.queue == (if ok then c.queue - {k} else c.queue)
    && (forall j :: j != k ==>
      Lookup(c'.services, j) == Lookup(c.services, j) && Lookup(c'.lastKnown, j) == Lookup(c.lastKnown, j))
    && (Lookup(c'.services, k) == Lookup(c.services, k) || Lookup(c'.services, k) == Lookup(Managed(v), k))
    && (Lookup(c'.lastKnown, k) == Lookup(c.lastKnown, k) || Lookup(c'.lastKnown, k) == Lookup(Managed(v), k))
    && (ok ==> Lookup(c'.lastKnown, k) == Lookup(Managed(v), k))
  }

  lemma {:induction false} ArriveFrame(snap: Snapshot, cfg: Config, k: Key, c: Ctl, m: Ctl, ok: bool, c': Ctl)
    requires k in Managed(snap.view) && m == c.(lbs := m.lbs, upstreams := m.upstreams)
    requires ArriveStep(snap, cfg, k, Managed(snap.view)[k], m, ok, c')
    ensures WorkFrame(snap.view, k, c, false, c') && Lookup(c'.lastKnown, k) == Lookup(Managed(snap.view), k)
  {
    hide SyncStep, Managed, LbAt;
    var s := Managed(snap.view)[k];
    SyncFrame(snap, cfg, s, m.(lastKnown := m.lastKnown[k := s], services := m.services[k := s]), ok, c');
  }

  lemma {:induction false} ForgetFrame(v: View, k: Key, c: Ctl, m: Ctl)
    requires k !in Managed(v) && m == c.(lbs := m.lbs, upstreams := m.upstreams)
    ensures
      var c' := m.(lastKnown := m.lastKnown - {k}, services := m.services - {k});
      WorkFrame(v, k, c, false, c') && Lookup(c'.lastKnown, k) == Lookup(Managed(v), k)
  {
  }

  lemma {:induction false} WorkerFrame(snap: Snapshot, cfg: Config, k: Key, c: Ctl, ok: bool, c': Ctl)
    requires WorkerStep(snap, cfg, k, c, ok, c')
    ensures WorkFrame(snap.view, k, c, false, c')
    ensures ok ==> Lookup(c'.lastKnown, k) == Lookup(Managed(snap.view), k)
  {
    if k !in Managed(snap.view) {
      if k in c.lastKnown {
        if ok {
          var m :| LeaveStep(snap, cfg, k, c.lastKnown[k], c, true, m)
            && c' == m.(lastKnown := m.lastKnown - {k}, services := m.services - {k});
          LeaveFrame(snap, cfg, k, c.lastKnown[k], c, true, m);
          ForgetFrame(snap.view, k, c, m);
        } else {
          LeaveFrame(snap, cfg, k, c.lastKnown[k], c, false, c');
        }
      }
    } else {
      var s := Managed(snap.view)[k];
      if k in c.lastKnown && Relabelled(c.lastKnown[k], s) {
        if !ok && LeaveStep(snap, cfg, k, c.lastKnown[k], c, false, c') {
          LeaveFrame(snap, cfg, k, c.lastKnown[k], c, false, c');
        } else {
          var m :| LeaveStep(snap, cfg, k, c.lastKnown[k], c, true, m) && ArriveStep(snap, cfg, k, s, m, ok, c');
          LeaveFrame(snap, cfg, k, c.lastKnown[k], c, true, m);
          ArriveFrame(snap, cfg, k, c, m, ok, c');
        }
      } else {
        ArriveFrame(snap, cfg, k, c, c, ok, c');
      }
    }
  }

  lemma {:induction false} ProcessFrame(snap: Snapshot, cfg: Config, k: Key, c: Ctl, ok: bool, c': Ctl)
    requires ProcessStep(snap, cfg, k, c, ok, c')
    ensures WorkFrame(snap.view, k, c, ok, c')
  {
    hide WorkerStep, Managed;
    var m :| WorkerStep(snap, cfg, k, c.(queue := c.queue - {k}), ok, m) && c' == if ok then m
      else m.(queue := m.queue + {k});
    WorkerFrame(snap, cfg, k, c.(queue := c.queue - {k}), ok, m);
    assert c.queue - {k} + {k} == c.queue;
  }

  lemma CachesAfterService(cfg: Config, s: State, s': State, k: Key, after: Option<RawService>)
    requires Caches(s) && Next(cfg, s, s', ChangeService(k, after))
    ensures Caches(s')
  {
    ManagedChange(s.view, k, after);
    forall j ensures Replay(Lookup(s'.c.services, j), s'.svcEvents, j) == Lookup(Managed(s'.view), j) {
      ReplayAppend(Lookup(s.c.services, j), s.svcEvents, EventsOf(k, Lookup(s.view.services, k), after), j);
    }
  }

  lemma CachesAfterPod(cfg: Config, s: State, s': State, k: Key, after: Option<Pod>)
    requires Caches(s) && Next(cfg, s, s', ChangePod(k, after))
    ensures Caches(s')
  {
    PodChange(s.view.pods, k, after);
    var es := PodEventsOf(k, Lookup(s.view.pods, k), after);
    if es != [] {
      FollowAppend(s.c.pods, s.podEvents, s.view.pods, es[0]);
    } else {
      assert s'.podEvents == s.podEvents;
    }
    assert Managed(s'.view) == Managed(s.view);
  }

  lemma {:induction false} ReplayFront(v: Option<Service>, events: seq<ServiceEvent>, k: Key)
    requires events != []
    ensures Replay(v, events, k) == Replay(ServiceAfter(v, events[0], k), events[1..], k)
  {
  }

  lemma {:induction false} ServicesHandled(s: State, c': Ctl, e: ServiceEvent, j: Key)
    requires Caches(s) && s.svcEvents != [] && e == s.svcEvents[0] && c' == OnServiceEvent(s.c, e)
    ensures Replay(Lookup(c'.services, j), s.svcEvents[1..], j) == Lookup(Managed(s.view), j)
  {
    HandledLookup(s.c, e, j);
    ReplayFront(Lookup(s.c.services, j), s.svcEvents, j);
  }

  lemma {:induction false} HandledFrame(c: Ctl, e: ServiceEvent)
    requires forall k :: k in c.services ==> c.services[k].key == k
    ensures OnServiceEvent(c, e).pods == c.pods
    ensures forall k :: k in OnServiceEvent(c, e).services ==> OnServiceEvent(c, e).services[k].key == k
  {
    var after := OnServiceEvent(c, e).services;
    assert after == if e.kind == Deleted then c.services - {e.service.key} else c.services[e.service.key := e.service];
    hide OnServiceEvent;
    forall k | k in after ensures after[k].key == k {
      if k != e.service.key { assert k in c.services; }
    }
  }

  lemma {:induction false} CachesHandled(s: State, s': State, e: ServiceEvent)
    requires Caches(s) && s.svcEvents != [] && e == s.svcEvents[0]
    requires s' == s.(svcEvents := s.svcEvents[1..], c := s'.c) && s'.c == OnServiceEvent(s.c, e)
    ensures Caches(s')
  {
    hide OnServiceEvent, Managed, Replay, PodsFollow, Lookup;
    HandledFrame(s.c, e);
    forall j ensures Replay(Lookup(s'.c.services, j), s'.svcEvents, j) == Lookup(Managed(s.view), j) {
      ServicesHandled(s, s'.c, e, j);
    }
  }

  lemma {:induction false} HandledLookup(c: Ctl, e: ServiceEvent, j: Key)
    ensures Lookup(OnServiceEvent(c, e).services, j) == ServiceAfter(Lookup(c.services, j), e, j)
  {
    if e.kind == Deleted {
      assert OnServiceEvent(c, e).services == c.services - {e.service.key};
    } else {
      assert OnServiceEvent(c, e).services == c.services[e.service.key := e.service];
    }
  }

  /** Writing what the view says into the cache is harmless, whatever events are pending. */
  lemma CachesWritten(s: State, s': State)
    requires Caches(s) && s' == s.(c := s'.c) && s'.c.pods == s.c.pods
    requires forall j ::
      || Lookup(s'.c.services, j) == Lookup(s.c.services, j) || Lookup(s'.c.services, j) == Lookup(Managed(s.view), j)
      || (Lookup(s'.c.services, j) == None && PendingService(s, j))
    ensures Caches(s')
  {
    forall j ensures Replay(Lookup(s'.c.services, j), s'.svcEvents, j) == Lookup(Managed(s'.view), j) {
      ReplayForgets(Lookup(s.c.services, j), Lookup(s'.c.services, j), s.svcEvents, j);
      ReplayForgets(Lookup(s'.c.services, j), Lookup(s.c.services, j), s.svcEvents, j);
    }
    forall j | j in s'.c.services ensures s'.c.services[j].key == j {
      assert Lookup(s'.c.services, j) == Some(s'.c.services[j]);
      if Lookup(s'.c.services, j) == Lookup(Managed(s.view), j) { assert Managed(s.view)[j].key == j; }
    }
  }

  lemma {:induction false} CachesPeriodic(cfg: Config, s: State, s': State, lb: string, f: Faults, ok: bool,
      bad: set<string>)
    requires Caches(s) && Next(cfg, s, s', Periodic(lb, f, ok, bad))
    ensures Caches(s')
  {
    forall j ensures Lookup(s'.c.services, j) == Lookup(s.c.services, j)
      || Lookup(s'.c.services, j) == Lookup(Managed(s.view), j)
      || (Lookup(s'.c.services, j) == None && PendingService(s, j))
    {
      ReplayForgets(Lookup(s.c.services, j), None, s.svcEvents, j);
      if f.synced && !f.list && j in s.c.services && LbName(s.c.services[j]) == lb && j !in OfLb(Managed(s.view), lb) {
        assert Lookup(Managed(s.view), j) != Lookup(s.c.services, j);
      }
    }
    CachesWritten(s, s');
  }

  /** The caches keep following the cluster. */
  lemma {:induction false} CachesKept(cfg: Config, s: State, s': State, step: Step)
    requires Caches(s) && Next(cfg, s, s', step)
    ensures Caches(s')
  {
    match step
    case ChangeService(k, after) => CachesAfterService(cfg, s, s', k, after);
    case ChangePod(k, after) => CachesAfterPod(cfg, s, s', k, after);
    case ChangeNode(k, after) => assert Managed(s'.view) == Managed(s.view);
    case HandleService => CachesHandled(s, s', s.svcEvents[0]);
    case HandlePod =>
    case HandleNode =>
    case Work(k, f, ok) =>
      ProcessFrame(Observed(s.view, f), cfg, k, s.c, ok, s'.c);
      CachesWritten(s, s');
    case Periodic(lb, f, ok, bad) => CachesPeriodic(cfg, s, s', lb, f, ok, bad);
  }

  // -------------------------------------------------------- no lost wakeup

  /** A pending pod event will put the service on the queue: by the pod it carries, or by the cached one it replaces. */
  ghost predicate WokenByPod(s: State, svc: Service, i: int) {
    && 0 <= i < |s.podEvents|
    && var e := s.podEvents[i];
      Concerns(svc, e.key.ns, e.pod) || (e.key in s.c.pods && Concerns(svc, e.key.ns, s.c.pods[e.key]))
  }

  /** A pending node event will put the service on the queue, through a cached pod on that node. */
  ghost predicate WokenByNode(s: State, svc: Service, i: int, p: Key) {
    && 0 <= i < |s.nodeEvents| && p in s.c.pods && s.c.pods[p].nodeName == s.nodeEvents[i].name
    && Concerns(svc, p.ns, s.c.pods[p])
  }

  /** The service is queued, or some pending event is going to queue it. */
  ghost predicate Awaited(s: State, k: Key)
    requires k in Managed(s.view)
  {
    var svc := Managed(s.view)[k];
    || k in s.c.queue
    || PendingService(s, k)
    || (exists i :: WokenByPod(s, svc, i))
    || (exists i, p :: WokenByNode(s, svc, i, p))
  }

  /** Without pending events only the queue is left. */
  lemma {:induction false} AwaitedQueued(s: State, k: Key)
    requires k in Managed(s.view) && Awaited(s, k)
    requires s.svcEvents == [] && s.podEvents == [] && s.nodeEvents == []
    ensures k in s.c.queue
  {
  }

  lemma CachedService(s: State, k: Key)
    requires Caches(s) && !PendingService(s, k)
    ensures Lookup(s.c.services, k) == Lookup(Managed(s.view), k)
  {
    ReplayForgets(Lookup(s.c.services, k), None, s.svcEvents, k);
  }

  /** Without pending events the caches are the filtered view: nothing is missing, and nothing stale is left. */
  lemma CachedWhenQuiet(s: State)
    requires Caches(s) && s.svcEvents == [] && s.podEvents == []
    ensures s.c.services == Managed(s.view) && s.c.pods == s.view.pods
  {
    var managed := Managed(s.view);
    hide Managed;
    forall k ensures k in s.c.services <==> k in managed
      ensures k in managed ==> s.c.services[k] == managed[k]
    {
      CachedService(s, k);
    }
    assert s.c.services == managed;
  }

  lemma {:induction false} PendingAfter(s: State, s': State, k: Key)
    requires PendingService(s, k) && s' == s.(svcEvents := s.svcEvents[1..], c := OnServiceEvent(s.c, s.svcEvents[0]))
    ensures k in s'.c.queue || PendingService(s', k)
  {
    var i :| 0 <= i < |s.svcEvents| && s.svcEvents[i].service.key == k;
    if i > 0 { assert s'.svcEvents[i - 1].service.key == k; }
  }

  lemma {:induction false} OnlyServicesAndQueue(c: Ctl, e: ServiceEvent)
    ensures OnServiceEvent(c, e).pods == c.pods && c.queue <= OnServiceEvent(c, e).queue
  {
    match e.kind
    case Added =>
    case Updated =>
    case Deleted =>
  }

  lemma AwaitedAfterService(cfg: Config, s: State, s': State, k: Key)
    requires Caches(s) && Next(cfg, s, s', HandleService) && k in Managed(s.view) && Awaited(s, k)
    ensures Awaited(s', k)
  {
    hide Managed, Replay, PodsFollow, Concerns, OnServiceEvent;
    OnlyServicesAndQueue(s.c, s.svcEvents[0]);
    var svc := Managed(s.view)[k];
    if PendingService(s, k) {
      PendingAfter(s, s', k);
    } else if i :| WokenByPod(s, svc, i) {
      assert WokenByPod(s', svc, i);
    } else if i, p :| WokenByNode(s, svc, i, p) {
      assert WokenByNode(s', svc, i, p);
    }
  }

  lemma EnqueuedByPod(s: State, k: Key, e: PodEvent)
    requires Caches(s) && k in Managed(s.view) && !PendingService(s, k) && s.podEvents != [] && e == s.podEvents[0]
    requires Concerns(Managed(s.view)[k], e.key.ns, e.pod)
      || (e.key in s.c.pods && Concerns(Managed(s.view)[k], e.key.ns, s.c.pods[e.key]))
    ensures k in OnPodEvent(s.c, e).queue
  {
    CachedService(s, k);
    assert AppliesTo(e, s.c.pods);
    if Concerns(Managed(s.view)[k], e.key.ns, e.pod) {
      assert k in Matching(s.c.services, e.key.ns, e.pod);
    } else {
      assert k in Matching(s.c.services, e.key.ns, s.c.pods[e.key]);
    }
  }

  lemma AwaitedAfterPod(cfg: Config, s: State, s': State, k: Key)
    requires Caches(s) && Next(cfg, s, s', HandlePod) && k in Managed(s.view) && Awaited(s, k)
    ensures Awaited(s', k)
  {
    hide Managed, Replay, Matching;
    var svc, e := Managed(s.view)[k], s.podEvents[0];
    if k in s.c.queue {
    } else if PendingService(s, k) {
      assert PendingService(s', k);
    } else if Concerns(svc, e.key.ns, e.pod) || (e.key in s.c.pods && Concerns(svc, e.key.ns, s.c.pods[e.key])) {
      EnqueuedByPod(s, k, e);
    } else if i :| WokenByPod(s, svc, i) {
      assert s'.podEvents[i - 1] == s.podEvents[i];
      assert WokenByPod(s', svc, i - 1);
    } else if i, p :| WokenByNode(s, svc, i, p) {
      assert p != e.key;
      assert WokenByNode(s', svc, i, p);
    }
  }

  lemma AwaitedAfterNode(cfg: Config, s: State, s': State, k: Key)
    requires Caches(s) && Next(cfg, s, s', HandleNode) && k in Managed(s.view) && Awaited(s, k)
    ensures Awaited(s', k)
  {
    var svc, e := Managed(s.view)[k], s.nodeEvents[0];
    if k in s.c.queue {
    } else if PendingService(s, k) {
      assert PendingService(s', k);
    } else if i :| WokenByPod(s, svc, i) {
      assert WokenByPod(s', svc, i);
    } else if i, p :| WokenByNode(s, svc, i, p) {
      if i == 0 {
        CachedService(s, k);
        assert k in Matching(s.c.services, p.ns, s.c.pods[p]);
        assert k in MatchingNode(s.c.services, s.c.pods, e.name);
      } else {
        assert s'.nodeEvents[i - 1] == s.nodeEvents[i];
        assert WokenByNode(s', svc, i - 1, p);
      }
    }
  }

  lemma AwaitedAfterChange(cfg: Config, s: State, s': State, step: Step, k: Key)
    requires Next(cfg, s, s', step) && (step.ChangeService? || step.ChangePod? || step.ChangeNode?)
    requires k in Managed(s.view) && k in Managed(s'.view) && Awaited(s, k)
    ensures Awaited(s', k)
  {
    if step.ChangeService? && step.service == k {
      ServiceChangePending(cfg, s, s', step, k);
    } else {
      assert Managed(s'.view)[k] == Managed(s.view)[k];
      var svc := Managed(s.view)[k];
      if i :| 0 <= i < |s.svcEvents| && s.svcEvents[i].service.key == k {
        assert s'.svcEvents[i].service.key == k;
      } else if i :| WokenByPod(s, svc, i) {
        assert s'.podEvents[i] == s.podEvents[i];
        assert WokenByPod(s', svc, i);
      } else if i, p :| WokenByNode(s, svc, i, p) {
        assert s'.nodeEvents[i] == s.nodeEvents[i];
        assert WokenByNode(s', svc, i, p);
      }
    }
  }

  /** Once awaited, a service stays awaited until a worker run on it succeeds. */
  lemma AwaitedPersists(cfg: Config, s: State, s': State, step: Step, k: Key)
    requires Caches(s) && Next(cfg, s, s', step) && !Served(step, k)
    requires k in Managed(s.view) && k in Managed(s'.view) && Awaited(s, k)
    ensures Awaited(s', k)
  {
    match step
    case ChangeService(_, _) => AwaitedAfterChange(cfg, s, s', step, k);
    case ChangePod(_, _) => AwaitedAfterChange(cfg, s, s', step, k);
    case ChangeNode(_, _) => AwaitedAfterChange(cfg, s, s', step, k);
    case HandleService => AwaitedAfterService(cfg, s, s', k);
    case HandlePod => AwaitedAfterPod(cfg, s, s', k);
    case HandleNode => AwaitedAfterNode(cfg, s, s', k);
    case Work(j, f, ok) =>
      ProcessFrame(Observed(s.view, f), cfg, j, s.c, ok, s'.c);
      AwaitedSameEvents(s, s', k);
    case Periodic(_, _, _, _) => AwaitedSameEvents(s, s', k);
  }

  lemma AwaitedSameEvents(s: State, s': State, k: Key)
    requires s' == s.(c := s'.c) && s'.c.pods == s.c.pods && (k in s.c.queue ==> k in s'.c.queue)
    requires k in Managed(s.view) && Awaited(s, k)
    ensures Awaited(s', k)
  {
    var svc := Managed(s.view)[k];
    if PendingService(s, k) { assert PendingService(s', k); }
    else if i :| WokenByPod(s, svc, i) { assert WokenByPod(s', svc, i); }
    else if i, p :| WokenByNode(s, svc, i, p) { assert WokenByNode(s', svc, i, p); }
  }

  /** Everything an upstream takes from one service: its pods, and the nodes of those pods. */
  ghost predicate SameInputs(v: View, v': View, s: Service) {
    && Selected(v, s) == Selected(v', s)
    && forall p :: p in Selected(v, s) ==>
      v.pods[p] == v'.pods[p] && Lookup(v.nodes, v.pods[p].nodeName) == Lookup(v'.nodes, v.pods[p].nodeName)
  }

  /** Every change of a service that is, or was until now, in the filtered view announces itself. */
  lemma ServiceChangePending(cfg: Config, s: State, s': State, step: Step, k: Key)
    requires Next(cfg, s, s', step) && step.ChangeService? && step.service == k
    requires k in Managed(s.view) || k in Managed(s'.view)
    ensures PendingService(s', k)
  {
    var es := EventsOf(k, Lookup(s.view.services, k), step.rawAfter);
    assert es[0].service.key == k;
    assert s'.svcEvents[|s.svcEvents|] == es[0];
  }

  lemma {:induction false} UnselectedPod(v: View, p: Key, after: Option<Pod>, svc: Service)
    requires !SelectedBy(v, svc, p) && !SelectedBy(v.(pods := Replaced(v.pods, p, after)), svc, p)
    ensures SameInputs(v, v.(pods := Replaced(v.pods, p, after)), svc)
  {
    var v' := v.(pods := Replaced(v.pods, p, after));
    assert forall q :: q != p ==> (SelectedBy(v, svc, q) <==> SelectedBy(v', svc, q));
  }

  lemma PodChangeAwaited(cfg: Config, s: State, s': State, step: Step, k: Key)
    requires Caches(s) && Next(cfg, s, s', step) && step.ChangePod? && k in Managed(s.view)
    requires !SameInputs(s.view, s'.view, Managed(s.view)[k])
    ensures k in Managed(s'.view) && Awaited(s', k)
  {
    assert Managed(s'.view) == Managed(s.view);
    var svc, p := Managed(s.view)[k], step.pod;
    var es := PodEventsOf(p, Lookup(s.view.pods, p), step.podAfter);
    var n := |s.podEvents|;
    if !SelectedBy(s.view, svc, p) && !SelectedBy(s'.view, svc, p) {
      UnselectedPod(s.view, p, step.podAfter, svc);
    }
    assert s'.podEvents[n] == es[0] && es[0].key == p;
    if SelectedBy(s'.view, svc, p) {
      SelectedMatch(svc.selector, s'.view.pods[p].labels);
      assert WokenByPod(s', svc, n);
    } else {
      SelectedMatch(svc.selector, s.view.pods[p].labels);
      LastVersion(s.c.pods, s.podEvents, s.view.pods, p);
      if i :| 0 <= i < n && s.podEvents[i].key == p && s.podEvents[i].pod == s.view.pods[p] {
        assert s'.podEvents[i] == s.podEvents[i];
        assert WokenByPod(s', svc, i);
      } else {
        assert WokenByPod(s', svc, n);
      }
    }
  }

  /** A pending event of a pod's node wakes the services that select the pod, through the cached pod or through its own
      event. */
  lemma {:induction false} WokenByNodeOf(s: State, k: Key, p: Key, n: nat)
    requires Caches(s) && k in Managed(s.view) && SelectedBy(s.view, Managed(s.view)[k], p)
    requires n < |s.nodeEvents| && s.nodeEvents[n].name == s.view.pods[p].nodeName
    ensures Awaited(s, k)
  {
    hide Managed, Replay, PendingService, IsMLBService, MapService;
    var svc := Managed(s.view)[k];
    SelectedMatch(svc.selector, s.view.pods[p].labels);
    LastVersion(s.c.pods, s.podEvents, s.view.pods, p);
    if i :| 0 <= i < |s.podEvents| && s.podEvents[i].key == p && s.podEvents[i].pod == s.view.pods[p] {
      assert WokenByPod(s, svc, i);
    } else {
      assert WokenByNode(s, svc, n, p);
    }
  }

  lemma {:induction false} NodeTouches(v: View, k: string, after: Option<Node>, svc: Service)
    requires !SameInputs(v, v.(nodes := Replaced(v.nodes, k, after)), svc)
    ensures exists p :: SelectedBy(v, svc, p) && p in v.pods && v.pods[p].nodeName == k
    ensures NodeEventsOf(k, Lookup(v.nodes, k), after) != []
  {
    var v' := v.(nodes := Replaced(v.nodes, k, after));
    assert Selected(v, svc) == Selected(v', svc);
    var p :| p in Selected(v, svc) && Lookup(v.nodes, v.pods[p].nodeName) != Lookup(v'.nodes, v.pods[p].nodeName);
    assert SelectedBy(v, svc, p) && v.pods[p].nodeName == k;
  }

  lemma NodeChangeAwaited(cfg: Config, s: State, s': State, step: Step, k: Key)
    requires Caches(s) && Next(cfg, s, s', step) && step.ChangeNode? && k in Managed(s.view)
    requires !SameInputs(s.view, s'.view, Managed(s.view)[k])
    ensures k in Managed(s'.view) && Awaited(s', k)
  {
    hide Awaited, SelectedBy, SameInputs, Replay, PodsFollow;
    assert Managed(s'.view) == Managed(s.view);
    var svc := Managed(s.view)[k];
    NodeTouches(s.view, step.node, step.nodeAfter, svc);
    var p :| SelectedBy(s.view, svc, p) && p in s.view.pods && s.view.pods[p].nodeName == step.node;
    SelectedSame(s.view, s'.view, svc, p);
    var es := NodeEventsOf(step.node, Lookup(s.view.nodes, step.node), step.nodeAfter);
    assert s'.nodeEvents[|s.nodeEvents|] == es[0] && es[0].name == step.node;
    WokenByNodeOf(s', k, p, |s.nodeEvents|);
  }

  lemma {:induction false} SelectedSame(v: View, v': View, svc: Service, p: Key)
    requires v'.pods == v.pods && SelectedBy(v, svc, p)
    ensures SelectedBy(v', svc, p)
  {
  }

  /** Any change to what a service stands for makes it awaited. */
  ghost predicate Touches(s: State, s': State, step: Step, k: Key) {
    || (step.ChangeService? && step.service == k)
    || ((step.ChangePod? || step.ChangeNode?) && k in Managed(s.view)
      && !SameInputs(s.view, s'.view, Managed(s.view)[k]))
  }

  lemma TouchedAwaited(cfg: Config, s: State, s': State, step: Step, k: Key)
    requires Caches(s) && Next(cfg, s, s', step) && Touches(s, s', step, k) && k in Managed(s'.view)
    ensures Awaited(s', k)
  {
    match step
    case ChangeService(_, _) => ServiceChangePending(cfg, s, s', step, k);
    case ChangePod(_, _) => PodChangeAwaited(cfg, s, s', step, k);
    case ChangeNode(_, _) => NodeChangeAwaited(cfg, s, s', step, k);
    case _ =>
  }

  lemma {:induction false} InitCaches(s: State)
    requires Init(s)
    ensures Caches(s)
  {
  }

  lemma {:induction false} RunStart(cfg: Config, run: seq<State>, steps: seq<Step>)
    requires Run(cfg, run, steps)
    ensures Init(run[0])
    decreases |steps|
  {
    if steps != [] { RunStart(cfg, run[..|steps|], steps[..|steps| - 1]); }
  }

  lemma {:induction false} RunCaches(cfg: Config, run: seq<State>, steps: seq<Step>, i: nat)
    requires Run(cfg, run, steps) && i < |run|
    ensures Caches(run[i])
  {
    if i == 0 {
      RunStart(cfg, run, steps);
      InitCaches(run[0]);
    } else {
      RunCaches(cfg, run, steps, i - 1);
      RunNext(cfg, run, steps, i - 1);
      CachesKept(cfg, run[i - 1], run[i], steps[i - 1]);
    }
  }

  /** A worker run on the service that succeeds. */
  predicate Served(step: Step, k: Key) { step.Work? && step.key == k && step.ok }

  /** The service exists from state `i + 1` to state `j`, and no worker run on it succeeds in between. */
  ghost predicate Unserved(run: seq<State>, steps: seq<Step>, k: Key, i: nat, j: nat)
    requires |run| == |steps| + 1 && i < j <= |steps|
    decreases j
  {
    && k in Managed(run[j].view)
    && (j > i + 1 ==> Unserved(run, steps, k, i, j - 1) && !Served(steps[j - 1], k))
  }

  lemma WakeupStep(cfg: Config, a: State, b: State, step: Step, k: Key, first: bool)
    requires Caches(a) && Next(cfg, a, b, step) && k in Managed(b.view)
    requires first ==> Touches(a, b, step, k)
    requires !first ==> k in Managed(a.view) && Awaited(a, k) && !Served(step, k)
    ensures Awaited(b, k)
  {
    if first { TouchedAwaited(cfg, a, b, step, k); } else { AwaitedPersists(cfg, a, b, step, k); }
  }

  lemma WakeupAt(cfg: Config, run: seq<State>, steps: seq<Step>, k: Key, j: nat, first: bool)
    requires Run(cfg, run, steps) && 0 < j <= |steps| && k in Managed(run[j].view)
    requires first ==> Touches(run[j - 1], run[j], steps[j - 1], k)
    requires !first ==> k in Managed(run[j - 1].view) && Awaited(run[j - 1], k) && !Served(steps[j - 1], k)
    ensures Awaited(run[j], k)
  {
    RunCaches(cfg, run, steps, j - 1);
    RunNext(cfg, run, steps, j - 1);
    WakeupStep(cfg, run[j - 1], run[j], steps[j - 1], k, first);
  }

  /** No lost wakeup, over every run: after a change to a service, its pods or their nodes, and until a worker run on it
      succeeds, the service is queued or a pending event will queue it. */
  lemma {:induction false} NoLostWakeup(cfg: Config, run: seq<State>, steps: seq<Step>, k: Key, i: nat, j: nat)
    requires Run(cfg, run, steps) && i < j <= |steps|
    requires Touches(run[i], run[i + 1], steps[i], k) && Unserved(run, steps, k, i, j)
    ensures k in Managed(run[j].view) && Awaited(run[j], k)
    decreases j
  {
    hide Next, Touches, Awaited, Managed, Init;
    if j > i + 1 { NoLostWakeup(cfg, run, steps, k, i, j - 1); }
    WakeupAt(cfg, run, steps, k, j, j == i + 1);
  }

  /** So once all events are handled the service is on the queue. */
  lemma WokenWhenQuiet(cfg: Config, run: seq<State>, steps: seq<Step>, k: Key, i: nat, j: nat)
    requires Run(cfg, run, steps) && i < j <= |steps|
    requires Touches(run[i], run[i + 1], steps[i], k) && Unserved(run, steps, k, i, j)
    requires run[j].svcEvents == [] && run[j].podEvents == [] && run[j].nodeEvents == []
    ensures k in run[j].c.queue
  {
    NoLostWakeup(cfg, run, steps, k, i, j);
    AwaitedQueued(run[j], k);
  }
}

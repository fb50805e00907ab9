/** Which upstreams may hold backends, and when they may lose their last one. */
module Remembered {
  import opened Backends
  import opened Diff
  import opened Cluster
  import opened Steps
  import opened Runs
  import opened Reconciled

  // --------------------------------------------------- no forgotten upstream

  ghost predicate Leaves(s: State, s': State, k: Key, u: UpKey) { Targets(s.view, k, u) && !Targets(s'.view, k, u) }

  /** Some service of the view, or some service's last known labels, name the upstream. */
  ghost predicate Known(v: View, lastKnown: map<Key, Service>, u: UpKey) {
    (exists k :: Targets(v, k, u)) || (exists k :: k in lastKnown && Target(lastKnown[k]) == u)
  }

  /** Some server holds backends for the upstream, or the controller has backends recorded for it. */
  ghost predicate Occupied(c: Ctl, u: UpKey) { !Bare(LbAt(c.lbs, u)) || u in c.upstreams }

  /** An occupied upstream is not forgotten. */
  ghost predicate Remembers(v: View, c: Ctl, u: UpKey) { Occupied(c, u) ==> Proper(u) && Known(v, c.lastKnown, u) }

  ghost predicate Remembered(s: State, u: UpKey) { Remembers(s.view, s.c, u) }

  lemma {:induction false} SyncFills(snap: Snapshot, cfg: Config, o: Service, c: Ctl, ok: bool, c': Ctl, u: UpKey)
    requires SyncStep(snap, cfg, o, c, ok, c') && Occupied(c', u) && !Occupied(c, u)
    ensures Target(o) == u && Proper(u)
  {
    SyncFrame(snap, cfg, o, c, ok, c');
  }

  lemma {:induction false} RemainingTargets(v: View, k: Key, w: UpKey, o: Service)
    requires o in Remaining(v, k, w)
    ensures Targets(v, o.key, w) && Target(o) == w
  {
  }

  lemma {:induction false} DrainFills(cfg: Config, w: UpKey, c: Ctl, ok: bool, c': Ctl, u: UpKey)
    requires PushStep(cfg, w, [], c, ok, c')
    ensures Bare(LbAt(c.lbs, u)) ==> Bare(LbAt(c'.lbs, u))
    ensures ok ==> Bare(LbAt(c'.lbs, w))
    ensures c'.upstreams == c.upstreams
  {
    assert Wanted([]) == map[];
  }

  lemma LeaveFills(snap: Snapshot, cfg: Config, k: Key, last: Service, c: Ctl, ok: bool, c': Ctl, u: UpKey)
    requires LeaveStep(snap, cfg, k, last, c, ok, c') && Occupied(c', u)
    ensures Occupied(c, u) || (Proper(u) && exists j :: Targets(snap.view, j, u))
    ensures ok && Target(last) == u && Proper(u) ==> exists j :: Targets(snap.view, j, u)
  {
    hide SyncStep, PushStep, Targets, Remaining, LbAt, Bare;
    LeaveFrame(snap, cfg, k, last, c, ok, c');
    var w := Target(last);
    if Proper(w) && !snap.listFault && Remaining(snap.view, k, w) != {} {
      var o :| o in Remaining(snap.view, k, w) && SyncStep(snap, cfg, o, c, ok, c');
      RemainingTargets(snap.view, k, w, o);
      if !Occupied(c, u) { SyncFills(snap, cfg, o, c, ok, c', u); }
    } else if Proper(w) && !snap.listFault {
      DrainFills(cfg, w, c.(upstreams := c.upstreams - {w}), ok, c', u);
    }
  }

  lemma {:induction false} ArriveFills(snap: Snapshot, cfg: Config, k: Key, m: Ctl, ok: bool, c': Ctl, u: UpKey)
    requires k in Managed(snap.view) && ArriveStep(snap, cfg, k, Managed(snap.view)[k], m, ok, c')
      && Occupied(c', u)
    ensures Occupied(m, u) || (Proper(u) && Targets(snap.view, k, u))
    ensures c'.lastKnown == m.lastKnown[k := Managed(snap.view)[k]]
  {
    var s := Managed(snap.view)[k];
    var m' := m.(lastKnown := m.lastKnown[k := s], services := m.services[k := s]);
    SyncFrame(snap, cfg, s, m', ok, c');
    if !Occupied(m, u) { SyncFills(snap, cfg, s, m', ok, c', u); }
  }

  /** Dropping or replacing the last known labels of `k` is harmless for upstreams they do not name. */
  lemma KnownWithout(v: View, lastKnown: map<Key, Service>, lastKnown': map<Key, Service>, k: Key, u: UpKey)
    requires Known(v, lastKnown, u) && !(k in lastKnown && Target(lastKnown[k]) == u)
    requires forall j :: j != k ==> Lookup(lastKnown', j) == Lookup(lastKnown, j)
    ensures Known(v, lastKnown', u)
  {
    if !exists j :: Targets(v, j, u) {
      var j :| j in lastKnown && Target(lastKnown[j]) == u;
      assert Lookup(lastKnown', j) == Lookup(lastKnown, j);
      assert j in lastKnown' && Target(lastKnown'[j]) == u;
    }
  }

  lemma {:induction false} LeftRemembers(snap: Snapshot, cfg: Config, k: Key, c: Ctl, m: Ctl,
      lastKnown': map<Key, Service>, u: UpKey)
    requires Remembers(snap.view, c, u) && k in c.lastKnown
    requires LeaveStep(snap, cfg, k, c.lastKnown[k], c, true, m) && Occupied(m, u)
    requires forall j :: j != k ==> Lookup(lastKnown', j) == Lookup(c.lastKnown, j)
    ensures Proper(u) && Known(snap.view, lastKnown', u)
  {
    LeaveFills(snap, cfg, k, c.lastKnown[k], c, true, m, u);
    if !exists j :: Targets(snap.view, j, u) {
      KnownWithout(snap.view, c.lastKnown, lastKnown', k, u);
    }
  }

  lemma {:induction false} WorkRemembers(snap: Snapshot, cfg: Config, k: Key, c: Ctl, ok: bool, c': Ctl, u: UpKey)
    requires Remembers(snap.view, c, u) && WorkerStep(snap, cfg, k, c, ok, c')
      && Occupied(c', u)
    ensures Proper(u) && Known(snap.view, c'.lastKnown, u)
  {
    hide Bare, LbAt, LeaveStep, ArriveStep, Remaining, MapService, IsMLBService;
    WorkerFrame(snap, cfg, k, c, ok, c');
    if k !in Managed(snap.view) {
      if k in c.lastKnown {
        if ok {
          var m :| LeaveStep(snap, cfg, k, c.lastKnown[k], c, true, m)
            && c' == m.(lastKnown := m.lastKnown - {k}, services := m.services - {k});
          LeftRemembers(snap, cfg, k, c, m, c'.lastKnown, u);
        } else {
          LeaveFrame(snap, cfg, k, c.lastKnown[k], c, false, c');
          LeaveFills(snap, cfg, k, c.lastKnown[k], c, false, c', u);
        }
      }
    } else {
      var s := Managed(snap.view)[k];
      if k in c.lastKnown && Relabelled(c.lastKnown[k], s) {
        if !ok && LeaveStep(snap, cfg, k, c.lastKnown[k], c, false, c') {
          LeaveFrame(snap, cfg, k, c.lastKnown[k], c, false, c');
          LeaveFills(snap, cfg, k, c.lastKnown[k], c, false, c', u);
        } else {
          var m :| LeaveStep(snap, cfg, k, c.lastKnown[k], c, true, m) && ArriveStep(snap, cfg, k, s, m, ok, c');
          ArriveFills(snap, cfg, k, m, ok, c', u);
          if Occupied(m, u) { LeftRemembers(snap, cfg, k, c, m, c'.lastKnown, u); }
        }
      } else {
        ArriveFills(snap, cfg, k, c, ok, c', u);
        if Occupied(c, u) && !Targets(snap.view, k, u) {
          KnownWithout(snap.view, c.lastKnown, c'.lastKnown, k, u);
        }
      }
    }
  }

  lemma {:induction false} PeriodicOccupies(snap: Snapshot, cfg: Config, lb: string, c: Ctl, ok: bool, bad: set<string>,
      c': Ctl, u: UpKey)
    requires PeriodicStep(snap, cfg, lb, c, ok, bad, c') && !Occupied(c, u) && Occupied(c', u)
    ensures BulkVerdict(snap, cfg, u).Push?
  {
    hide BulkVerdict, LbAt;
    PeriodicRecords(snap, cfg, lb, c, ok, bad, c', u);
    if u.lb == lb && u.up != "" {
      assert BulkOutcome(LbAt(c.lbs, u), BulkVerdict(snap, cfg, u), Prunes(cfg, lb), ok, u.up !in bad, LbAt(c'.lbs, u));
    }
  }

  lemma {:induction false} PeriodicRecords(snap: Snapshot, cfg: Config, lb: string, c: Ctl, ok: bool, bad: set<string>,
      c': Ctl, u: UpKey)
    requires PeriodicStep(snap, cfg, lb, c, ok, bad, c') && snap.synced && !snap.listFault
    ensures RecordedAt(c.upstreams, if u.lb == lb then BulkVerdict(snap, cfg, u) else Keep, u, c'.upstreams)
  {
    hide BulkVerdict, RecordedAt, BulkOutcome, LbAt;
  }

  lemma {:induction false} PushTargets(snap: Snapshot, cfg: Config, u: UpKey)
    requires BulkVerdict(snap, cfg, u).Push?
    ensures Proper(u) && exists k :: Targets(snap.view, k, u)
  {
    hide Demand, LookupFails, Settle;
    var s :| s in Sharing(snap.view, u) && s.nodePort != 0;
    assert Targets(snap.view, s.key, u);
  }

  lemma {:induction false} PeriodicRemembers(snap: Snapshot, cfg: Config, lb: string, c: Ctl, ok: bool,
      bad: set<string>, c': Ctl, u: UpKey)
    requires Remembers(snap.view, c, u) && PeriodicStep(snap, cfg, lb, c, ok, bad, c') && Occupied(c', u)
    ensures Proper(u) && Known(snap.view, c'.lastKnown, u)
  {
    hide Occupied, BulkVerdict, RecordedAt, BulkOutcome, LbAt;
    if Occupied(c, u) {
      KnownGrows(snap.view, c.lastKnown, c'.lastKnown, u);
    } else {
      PeriodicOccupies(snap, cfg, lb, c, ok, bad, c', u);
      PushTargets(snap, cfg, u);
    }
  }

  lemma {:induction false} KnownGrows(v: View, lastKnown: map<Key, Service>, lastKnown': map<Key, Service>, u: UpKey)
    requires Known(v, lastKnown, u)
    requires forall k :: k in lastKnown ==> k in lastKnown' && lastKnown'[k] == lastKnown[k]
    ensures Known(v, lastKnown', u)
  {
    if !exists k :: Targets(v, k, u) {
      var k :| k in lastKnown && Target(lastKnown[k]) == u;
      assert k in lastKnown' && Target(lastKnown'[k]) == u;
    }
  }

  /** Every step but a change to a service keeps the upstream remembered, whatever fails. */
  lemma {:induction false} RememberedKept(cfg: Config, s: State, s': State, step: Step, u: UpKey)
    requires Remembered(s, u) && Next(cfg, s, s', step) && !step.ChangeService?
    ensures Remembered(s', u)
  {
    match step
    case Work(k, f, ok) =>
      var snap, c := Observed(s.view, f), s.c.(queue := s.c.queue - {k});
      var m :| WorkerStep(snap, cfg, k, c, ok, m) && s'.c == if ok then m else m.(queue := m.queue + {k});
      if Occupied(m, u) { WorkRemembers(snap, cfg, k, c, ok, m, u); }
    case Periodic(lb, f, ok, bad) =>
      if Occupied(s'.c, u) { PeriodicRemembers(Observed(s.view, f), cfg, lb, s.c, ok, bad, s'.c, u); }
    case _ =>
      RememberedQuietly(cfg, s, s', step, u);
  }

  lemma RememberedQuietly(cfg: Config, s: State, s': State, step: Step, u: UpKey)
    requires Remembered(s, u) && Next(cfg, s, s', step) && !step.ChangeService? && !step.Work? && !step.Periodic?
    ensures Remembered(s', u)
  {
    assert Managed(s'.view) == Managed(s.view);
    if step.HandleService? || step.HandlePod? || step.HandleNode? { EventFrame(cfg, s, s', step); }
    RememberedGrows(s, s', u);
  }

  lemma RememberedGrows(s: State, s': State, u: UpKey)
    requires Remembered(s, u) && Managed(s'.view) == Managed(s.view) && s'.c.lbs == s.c.lbs
    requires s'.c.upstreams == s.c.upstreams
    requires forall k :: k in s.c.lastKnown ==> Lookup(s'.c.lastKnown, k) == Lookup(s.c.lastKnown, k)
    ensures Remembered(s', u)
  {
    if Occupied(s'.c, u) {
      assert forall k :: Targets(s'.view, k, u) <==> Targets(s.view, k, u);
      assert Known(s'.view, s.c.lastKnown, u);
      forall k | k in s.c.lastKnown ensures k in s'.c.lastKnown && s'.c.lastKnown[k] == s.c.lastKnown[k] {
        assert Lookup(s'.c.lastKnown, k) == Lookup(s.c.lastKnown, k);
      }
      KnownGrows(s'.view, s.c.lastKnown, s'.c.lastKnown, u);
    }
  }

  /** What must hold of a change to the service `k`: it does not leave the upstream, or no server holds backends for it
      and none are recorded, or somebody else targets it or is last known to. */
  ghost predicate Handed(s: State, s': State, k: Key, u: UpKey) {
    Leaves(s, s', k, u) && Occupied(s.c, u) ==>
      (exists j :: j != k && Targets(s.view, j, u)) || exists j :: Names(s.c.lastKnown, j, u)
  }

  /** Exactly such changes do not make an upstream forgotten. A service relabelled or deleted before a worker has caught
      up with its previous labels is the case that does: its last known labels still name the upstream before. */
  lemma ChangeRemembersIff(cfg: Config, s: State, s': State, step: Step, u: UpKey)
    requires Remembered(s, u) && Next(cfg, s, s', step) && step.ChangeService?
    ensures Remembered(s', u) <==> Handed(s, s', step.service, u)
  {
    var k := step.service;
    ManagedChange(s.view, k, step.rawAfter);
    forall j | j != k ensures Targets(s'.view, j, u) <==> Targets(s.view, j, u) {
      assert Lookup(Managed(s'.view), j) == Lookup(Managed(s.view), j);
    }
    if Handed(s, s', k, u) && Occupied(s.c, u) {
      if j :| Targets(s.view, j, u) && (j != k || Targets(s'.view, k, u)) {
        assert Targets(s'.view, j, u);
      } else if Targets(s.view, k, u) {
        var j :| Names(s.c.lastKnown, j, u);
        assert j in s'.c.lastKnown && Target(s'.c.lastKnown[j]) == u;
      }
    }
    if Remembered(s', u) && Leaves(s, s', k, u) && Occupied(s.c, u) {
      if j :| Targets(s'.view, j, u) {
        assert j != k && Targets(s.view, j, u);
      } else {
        var j :| j in s'.c.lastKnown && Target(s'.c.lastKnown[j]) == u;
        assert Names(s.c.lastKnown, j, u);
      }
    }
  }

  // --------------------------------------------------------------- whole runs

  /** A service leaves the upstream only when its own last known labels name it, or another service targets it. */
  ghost predicate CarefulStep(s: State, s': State, step: Step, u: UpKey) {
    step.ChangeService? && Leaves(s, s', step.service, u) ==>
      Names(s.c.lastKnown, step.service, u) || exists o :: o != step.service && Targets(s.view, o, u)
  }

  ghost predicate Careful(run: seq<State>, steps: seq<Step>, i: nat, j: nat, u: UpKey)
    requires |run| == |steps| + 1 && i <= j <= |steps|
  {
    forall t :: i <= t < j ==> CarefulStep(run[t], run[t + 1], steps[t], u)
  }

  lemma {:induction false} RememberedAt(cfg: Config, run: seq<State>, steps: seq<Step>, i: nat, u: UpKey)
    requires Run(cfg, run, steps) && i < |steps|
    requires Remembered(run[i], u) && CarefulStep(run[i], run[i + 1], steps[i], u)
    ensures Remembered(run[i + 1], u)
  {
    RunNext(cfg, run, steps, i);
    if steps[i].ChangeService? {
      ChangeRemembersIff(cfg, run[i], run[i + 1], steps[i], u);
    } else {
      RememberedKept(cfg, run[i], run[i + 1], steps[i], u);
    }
  }

  lemma {:induction false} CarefulBefore(run: seq<State>, steps: seq<Step>, i: nat, j: nat, u: UpKey)
    requires |run| == |steps| + 1 && i < j <= |steps| && Careful(run, steps, i, j, u)
    ensures Careful(run, steps, i, j - 1, u) && CarefulStep(run[j - 1], run[j], steps[j - 1], u)
  {
    hide CarefulStep;
    var t := j - 1;
    assert CarefulStep(run[t], run[t + 1], steps[t], u);
  }

  /** No forgotten upstream: once named by a service, with a port or without one, or by a last known entry, or empty, it
      stays so. */
  lemma {:induction false} RunRemembered(cfg: Config, run: seq<State>, steps: seq<Step>, i: nat, j: nat, u: UpKey)
    requires Run(cfg, run, steps) && i <= j <= |steps| && Careful(run, steps, i, j, u) && Remembered(run[i], u)
    ensures Remembered(run[j], u)
    decreases j
  {
    hide *;
    RunLength(cfg, run, steps);
    if i < j {
      CarefulBefore(run, steps, i, j, u);
      RunRemembered(cfg, run, steps, i, j - 1, u);
      RememberedAt(cfg, run, steps, j - 1, u);
    }
  }

  lemma QuietTargeted(s: State, u: UpKey)
    requires Remembered(s, u) && Departures(s) && Quiet(s) && Occupied(s.c, u)
    ensures exists k :: Targets(s.view, k, u)
  {
    if !exists k :: Targets(s.view, k, u) {
      var k :| k in s.c.lastKnown && Target(s.c.lastKnown[k]) == u;
      assert Leaving(s, k, u);
    }
  }

  /** At rest every backend on a load balancer, and every recorded one, belongs to an upstream some service targets,
      with a port or without one (`Drained` says when it is one with a port). */
  lemma {:induction false} TargetedWhenQuiet(cfg: Config, run: seq<State>, steps: seq<Step>, i: nat, j: nat, u: UpKey)
    requires Run(cfg, run, steps) && i <= j <= |steps| && Careful(run, steps, i, j, u) && Remembered(run[i], u)
    requires Quiet(run[j]) && Occupied(run[j].c, u)
    ensures exists k :: Targets(run[j].view, k, u)
  {
    RunRemembered(cfg, run, steps, i, j, u);
    RunDepartures(cfg, run, steps, j);
    QuietTargeted(run[j], u);
  }

  // -------------------------------------------------------------- safety net

  /** One of the two paths asks for the backends `b`. */
  ghost predicate Asked(snap: Snapshot, cfg: Config, u: UpKey, b: seq<Backend>) {
    BulkVerdict(snap, cfg, u) == Push(b)
      || exists o :: o in Sharing(snap.view, u) && EventVerdict(snap, cfg, o) == Push(b)
  }

  /** The servers were left alone, or moved toward a non-empty list that one of the paths asks for, and all the way if
      no request failed; so a server that loses its last backend has seen a failed request. */
  ghost predicate NotDrained(snap: Snapshot, cfg: Config, u: UpKey, h: Holding, ok: bool, h': Holding) {
    && (h' == h || exists b :: b != [] && Asked(snap, cfg, u, b) && Reached(h, Wanted(b), ok, h'))
    && forall p :: p in h && h[p] != map[] ==> p in h' && (h'[p] == map[] ==> !ok)
  }

  lemma {:induction false} NotMoved(snap: Snapshot, cfg: Config, u: UpKey, h: Holding, ok: bool)
    ensures NotDrained(snap, cfg, u, h, ok, h)
  {
  }

  lemma {:induction false} PushNotDrained(snap: Snapshot, cfg: Config, u: UpKey, b: seq<Backend>, h: Holding, ok: bool,
      h': Holding)
    requires b != [] && Asked(snap, cfg, u, b) && Reached(h, Wanted(b), ok, h')
    ensures NotDrained(snap, cfg, u, h, ok, h')
  {
    WantedNotEmpty(b);
  }

  lemma {:induction false} SyncNotDrained(snap: Snapshot, cfg: Config, o: Service, c: Ctl, ok: bool, c': Ctl, u: UpKey)
    requires SyncStep(snap, cfg, o, c, ok, c') && !AllowEmpty(cfg, u.lb) && o in Sharing(snap.view, Target(o))
    ensures NotDrained(snap, cfg, u, LbAt(c.lbs, u), ok, LbAt(c'.lbs, u))
  {
    SyncFrame(snap, cfg, o, c, ok, c');
    if Target(o) == u && EventVerdict(snap, cfg, o).Push? && u.lb in cfg.adapters {
      FlagsIff(cfg, u.lb);
      NeverPushesEmpty(snap, cfg, u, o);
      PushNotDrained(snap, cfg, u, EventVerdict(snap, cfg, o).backends, LbAt(c.lbs, u), ok, LbAt(c'.lbs, u));
    }
  }

  lemma LeaveNotDrained(snap: Snapshot, cfg: Config, k: Key, last: Service, c: Ctl, ok: bool, c': Ctl, u: UpKey, j: Key)
    requires LeaveStep(snap, cfg, k, last, c, ok, c') && !AllowEmpty(cfg, u.lb) && j != k && Targets(snap.view, j, u)
    ensures NotDrained(snap, cfg, u, LbAt(c.lbs, u), ok, LbAt(c'.lbs, u))
  {
    LeaveFrame(snap, cfg, k, last, c, ok, c');
    if Target(last) == u && Proper(u) && !snap.listFault {
      assert Managed(snap.view)[j] in Remaining(snap.view, k, u);
      var o :| o in Remaining(snap.view, k, u) && SyncStep(snap, cfg, o, c, ok, c');
      SyncNotDrained(snap, cfg, o, c, ok, c', u);
    }
  }

  lemma {:induction false} ArriveNotDrained(snap: Snapshot, cfg: Config, k: Key, m: Ctl, ok: bool, c': Ctl, u: UpKey)
    requires k in Managed(snap.view) && ArriveStep(snap, cfg, k, Managed(snap.view)[k], m, ok, c')
      && !AllowEmpty(cfg, u.lb)
    ensures NotDrained(snap, cfg, u, LbAt(m.lbs, u), ok, LbAt(c'.lbs, u))
    ensures Target(Managed(snap.view)[k]) != u ==> LbAt(c'.lbs, u) == LbAt(m.lbs, u)
    ensures c'.lastKnown == m.lastKnown[k := Managed(snap.view)[k]]
  {
    var s := Managed(snap.view)[k];
    var m' := m.(lastKnown := m.lastKnown[k := s], services := m.services[k := s]);
    SyncFrame(snap, cfg, s, m', ok, c');
    SyncNotDrained(snap, cfg, s, m', ok, c', u);
  }

  /** After a failed worker run the last known labels name the upstream it failed at. */
  ghost predicate FailedFor(k: Key, ok: bool, lastKnown: map<Key, Service>, u: UpKey) { !ok && Names(lastKnown, k, u) }

  lemma {:induction false} WorkNotDrained(snap: Snapshot, cfg: Config, k: Key, c: Ctl, ok: bool, c': Ctl, u: UpKey,
      j: Key)
    requires WorkerStep(snap, cfg, k, c, ok, c') && !AllowEmpty(cfg, u.lb) && Targets(snap.view, j, u)
    ensures NotDrained(snap, cfg, u, LbAt(c.lbs, u), !FailedFor(k, ok, c'.lastKnown, u), LbAt(c'.lbs, u))
  {
    NotMoved(snap, cfg, u, LbAt(c.lbs, u), !FailedFor(k, ok, c'.lastKnown, u));
    hide NotDrained, SyncStep, PushStep, AllowEmpty, LbAt, Remaining, MapService, IsMLBService, Proper;
    if k !in Managed(snap.view) {
      if k in c.lastKnown {
        if ok {
          var m :| LeaveStep(snap, cfg, k, c.lastKnown[k], c, true, m)
            && c' == m.(lastKnown := m.lastKnown - {k}, services := m.services - {k});
          LeaveNotDrained(snap, cfg, k, c.lastKnown[k], c, true, m, u, j);
        } else {
          LeftNotDrained(snap, cfg, k, c, c', u, j);
        }
      }
    } else {
      var s := Managed(snap.view)[k];
      if k in c.lastKnown && Relabelled(c.lastKnown[k], s) {
        if !ok && LeaveStep(snap, cfg, k, c.lastKnown[k], c, false, c') {
          if j != k {
            LeftNotDrained(snap, cfg, k, c, c', u, j);
          } else {
            LeaveFrame(snap, cfg, k, c.lastKnown[k], c, false, c');
          }
        } else {
          var m :| LeaveStep(snap, cfg, k, c.lastKnown[k], c, true, m) && ArriveStep(snap, cfg, k, s, m, ok, c');
          LeaveFrame(snap, cfg, k, c.lastKnown[k], c, true, m);
          ArriveNotDrained(snap, cfg, k, m, ok, c', u);
          if Target(s) != u { LeaveNotDrained(snap, cfg, k, c.lastKnown[k], c, true, m, u, j); }
        }
      } else {
        ArriveNotDrained(snap, cfg, k, c, ok, c', u);
      }
    }
  }

  lemma {:induction false} LeftNotDrained(snap: Snapshot, cfg: Config, k: Key, c: Ctl, c': Ctl, u: UpKey, j: Key)
    requires k in c.lastKnown && LeaveStep(snap, cfg, k, c.lastKnown[k], c, false, c')
    requires !AllowEmpty(cfg, u.lb) && j != k && Targets(snap.view, j, u)
    ensures NotDrained(snap, cfg, u, LbAt(c.lbs, u), !FailedFor(k, false, c'.lastKnown, u), LbAt(c'.lbs, u))
  {
    LeaveFrame(snap, cfg, k, c.lastKnown[k], c, false, c');
    LeaveNotDrained(snap, cfg, k, c.lastKnown[k], c, false, c', u, j);
  }

  lemma {:induction false} TargetShares(v: View, k: Key, u: UpKey)
    requires Targets(v, k, u)
    ensures Managed(v)[k] in Sharing(v, u)
  {
  }

  lemma {:induction false} PeriodicNotDrained(snap: Snapshot, cfg: Config, lb: string, c: Ctl, ok: bool,
      bad: set<string>, c': Ctl, u: UpKey, j: Key)
    requires PeriodicStep(snap, cfg, lb, c, ok, bad, c') && Proper(u) && !AllowEmpty(cfg, u.lb)
    requires Targets(snap.view, j, u) && Managed(snap.view)[j].nodePort != 0
    ensures NotDrained(snap, cfg, u, LbAt(c.lbs, u), u.up !in bad, LbAt(c'.lbs, u))
  {
    hide FirstNamed, AllowEmpty, FindLb, Managed, Sharing, NotDrained, LbAt, BulkVerdict;
    FlagsIff(cfg, u.lb);
    TargetShares(snap.view, j, u);
    NeverPushesEmpty(snap, cfg, u, Managed(snap.view)[j]);
    NotMoved(snap, cfg, u, LbAt(c.lbs, u), u.up !in bad);
    if snap.synced && !snap.listFault && u.lb == lb {
      assert BulkOutcome(LbAt(c.lbs, u), BulkVerdict(snap, cfg, u), Prunes(cfg, lb), ok, u.up !in bad, LbAt(c'.lbs, u));
      if BulkVerdict(snap, cfg, u).Push? {
        PushNotDrained(snap, cfg, u, BulkVerdict(snap, cfg, u).backends, LbAt(c.lbs, u), u.up !in bad, LbAt(c'.lbs, u));
      }
    }
  }

  lemma {:induction false} WorkSafe(cfg: Config, s: State, s': State, k: Key, f: Faults, ok: bool, u: UpKey, j: Key)
    requires Next(cfg, s, s', Work(k, f, ok)) && !AllowEmpty(cfg, u.lb) && Targets(s.view, j, u)
    ensures NotDrained(Observed(s.view, f), cfg, u, LbAt(s.c.lbs, u), !FailedFor(k, ok, s'.c.lastKnown, u),
      LbAt(s'.c.lbs, u))
  {
    hide WorkerStep, NotDrained, AllowEmpty, FailedFor, Targets, LbAt;
    var snap, c := Observed(s.view, f), s.c.(queue := s.c.queue - {k});
    var m :| WorkerStep(snap, cfg, k, c, ok, m) && s'.c == if ok then m else m.(queue := m.queue + {k});
    WorkNotDrained(snap, cfg, k, c, ok, m, u, j);
  }

  /** Safety net, over every step: while a service with a port targets an upstream that must not be empty, no step
      drains or prunes it. All its requests go toward a non-empty list that one of the paths asks for, and a server
      loses its last backend only when a request for this very upstream failed (`Convergence.EmptiedIff` says when such
      a run does that). */
  lemma {:induction false} SafetyNet(cfg: Config, s: State, s': State, step: Step, u: UpKey, j: Key)
    requires Next(cfg, s, s', step) && Proper(u)
    requires !cfg.allowEmpty && forall i :: FirstNamed(cfg.lbs, u.lb, i) ==> !cfg.lbs[i].allowEmpty
    requires Targets(s.view, j, u) && Managed(s.view)[j].nodePort != 0
    ensures match step
      case Work(k, f, ok) =>
        NotDrained(Observed(s.view, f), cfg, u, LbAt(s.c.lbs, u), !FailedFor(k, ok, s'.c.lastKnown, u),
          LbAt(s'.c.lbs, u))
      case Periodic(_, f, _, bad) =>
        NotDrained(Observed(s.view, f), cfg, u, LbAt(s.c.lbs, u), u.up !in bad, LbAt(s'.c.lbs, u))
      case _ => LbAt(s'.c.lbs, u) == LbAt(s.c.lbs, u)
  {
    hide ProcessStep, NotDrained, AllowEmpty, Managed, PeriodicStep, Replaced, EventsOf, PodEventsOf, NodeEventsOf,
      FailedFor, Proper, LbAt;
    FlagsIff(cfg, u.lb);
    match step
    case Work(k, f, ok) => WorkSafe(cfg, s, s', k, f, ok, u, j);
    case Periodic(lb, f, ok, bad) => PeriodicNotDrained(Observed(s.view, f), cfg, lb, s.c, ok, bad, s'.c, u, j);
    case _ =>
  }

  // ----------------------------------------------------------------- orphans

  /** A periodic run never acts on caches that are not filled yet, nor without the list of services: nothing is sent,
      pruned or recorded, and only the missing list is an error. */
  lemma {:induction false} UnsyncedIdle(snap: Snapshot, cfg: Config, lb: string, c: Ctl, ok: bool, bad: set<string>,
      c': Ctl)
    requires PeriodicStep(snap, cfg, lb, c, ok, bad, c') && (!snap.synced || snap.listFault)
    ensures c' == c && (ok <==> !snap.synced)
  {
  }

  /** A periodic run and an upstream that no service with a port targets, with all pods of its services readable: it is
      left alone unless the first entry of its load balancer's name has orphans pruned, and then emptied on success. */
  lemma {:induction false} OrphansPruned(snap: Snapshot, cfg: Config, u: UpKey, c: Ctl, ok: bool, bad: set<string>,
      c': Ctl)
    requires PeriodicStep(snap, cfg, u.lb, c, ok, bad, c') && Proper(u) && snap.synced && !snap.listFault
    requires forall s :: s in Sharing(snap.view, u) ==> s.nodePort == 0 && !PodsFail(snap, s)
    ensures (forall i :: FirstNamed(cfg.lbs, u.lb, i) ==> !cfg.lbs[i].pruneOrphans) ==>
      LbAt(c'.lbs, u) == LbAt(c.lbs, u)
    ensures ok && (exists i :: FirstNamed(cfg.lbs, u.lb, i) && cfg.lbs[i].pruneOrphans) ==> Bare(LbAt(c'.lbs, u))
    ensures u !in c'.upstreams
  {
    hide FirstNamed, Prunes, LbAt;
    FlagsIff(cfg, u.lb);
    assert BulkVerdict(snap, cfg, u) == Skip;
    assert RecordedAt(c.upstreams, BulkVerdict(snap, cfg, u), u, c'.upstreams);
    assert BulkOutcome(LbAt(c.lbs, u), BulkVerdict(snap, cfg, u), Prunes(cfg, u.lb), ok, u.up !in bad, LbAt(c'.lbs, u));
  }

  // ------------------------------------------------------------- fail-static

  /** A failed lookup for any service sharing an upstream freezes it: the periodic pass neither syncs nor prunes it and
      keeps its recorded backends, and the event path sends nothing; it reports an error, unless the service that
      triggers it has no port and its own pods could be read. */
  lemma {:induction false} FailStatic(snap: Snapshot, cfg: Config, u: UpKey, c: Ctl, ok: bool, bad: set<string>,
      c': Ctl)
    requires PeriodicStep(snap, cfg, u.lb, c, ok, bad, c') && Proper(u) && snap.synced && !snap.listFault
    requires exists s :: s in Sharing(snap.view, u) && LookupFails(snap, s)
    ensures LbAt(c'.lbs, u) == LbAt(c.lbs, u) && Lookup(c'.upstreams, u) == Lookup(c.upstreams, u)
    ensures forall s :: s in Sharing(snap.view, u) ==>
      EventVerdict(snap, cfg, s) == if s.nodePort != 0 || PodsFail(snap, s) then Fail else Skip
  {
    assert BulkVerdict(snap, cfg, u) == Keep;
    assert RecordedAt(c.upstreams, BulkVerdict(snap, cfg, u), u, c'.upstreams);
    assert BulkOutcome(LbAt(c.lbs, u), BulkVerdict(snap, cfg, u), Prunes(cfg, u.lb), ok, u.up !in bad, LbAt(c'.lbs, u));
    forall s | s in Sharing(snap.view, u) && s.nodePort != 0 ensures EventVerdict(snap, cfg, s) == Fail {
      PathsAgree(snap, cfg, s);
    }
  }

  // -------------------------------------------------- services without a port

  /** A successful worker run leaves its upstream as wanted exactly when the service has a port, or it was so
      already. */
  lemma {:induction false} SyncFreshIff(snap: Snapshot, cfg: Config, o: Service, c: Ctl, c': Ctl)
    requires SyncStep(snap, cfg, o, c, true, c') && o in Sharing(snap.view, Target(o)) && Proper(Target(o))
    ensures Fresh(snap.view, cfg, c', Target(o)) <==> o.nodePort != 0 || Fresh(snap.view, cfg, c, Target(o))
  {
    if o.nodePort != 0 { SyncMakesFresh(snap, cfg, o, c, c'); }
  }

  lemma WantedNotEmpty(b: seq<Backend>)
    requires b != []
    ensures Wanted(b) != map[]
  {
    WantedConserves(b);
    assert BackendKey(b[0]) in KeysOf(b);
  }
}

/** Rest is reached: what the controller can do once the cluster stops changing, and when it can be done with it. */
module Rest {
  import opened Backends
  import opened Diff
  import opened Convergence
  import opened Cluster
  import opened Steps
  import opened Runs
  import opened Reconciled

  // ------------------------------------------------- when a run can succeed

  /** No pod counted at the service's upstream is on an unknown node, and there is an adapter if anything is to be
      sent. */
  ghost predicate CanSync(v: View, cfg: Config, s: Service) {
    Proper(Target(s)) && s.nodePort != 0 ==>
      && (forall o :: o in Feeding(v, Target(s)) ==> !NodeMissing(v, o))
      && (BulkVerdict(Clean(v), cfg, Target(s)).Push? ==> LbName(s) in cfg.adapters)
  }

  /** Some service that remains can be synced, or there is an adapter to drain the upstream with. */
  ghost predicate CanLeave(v: View, cfg: Config, k: Key, last: Service) {
    var u := Target(last);
    Proper(u) ==>
      if Remaining(v, k, u) == {} then u.lb in cfg.adapters
      else exists o :: o in Remaining(v, k, u) && CanSync(v, cfg, o)
  }

  /** A worker run on `k` waits neither on a node nor on an adapter. */
  ghost predicate CanWork(v: View, cfg: Config, lastKnown: map<Key, Service>, k: Key) {
    if k !in Managed(v) then k in lastKnown ==> CanLeave(v, cfg, k, lastKnown[k])
    else
      && (k in lastKnown && Relabelled(lastKnown[k], Managed(v)[k]) ==> CanLeave(v, cfg, k, lastKnown[k]))
      && CanSync(v, cfg, Managed(v)[k])
  }

  // ----------------------------------------------------- a run that succeeds

  lemma {:induction false} FilledUpstream(bs: seq<Backend>)
    ensures exists held :: ContentOf(held) == Wanted(bs)
  {
    hide *;
    WantedIs(bs);
    FilledWith(Desired(bs));
  }

  lemma {:induction false} WantedIs(bs: seq<Backend>)
    ensures Wanted(bs) == Weights(Desired(bs))
  {
  }

  /** What a run without failures makes of an empty server. */
  lemma {:induction false} FilledWith(d: map<string, Backend>)
    requires Keyed(d)
    ensures exists held :: ContentOf(held) == Weights(d)
  {
    hide ContentOf, Weights, Keyed, RequestsFor, Synced, At;
    var none: Server := map[];
    var oks := seq(|RequestsFor(none, "any", d)|, _ => true);
    RunProgress(none, "any", d, oks);
    assert ContentOf(At(Synced(none, "any", d, oks), "any")) == Weights(d);
  }

  /** All servers of the upstream's load balancer with `held` stored for it. */
  function StoredAll(lbs: map<Place, Server>, u: UpKey, held: seq<Backend>): map<Place, Server> {
    map p | p in lbs :: if p.lb == u.lb then Store(lbs[p], u.up, held) else lbs[p]
  }

  lemma {:induction false} StoredOthers(lbs: map<Place, Server>, u: UpKey, held: seq<Backend>, w: UpKey)
    requires w != u
    ensures LbAt(StoredAll(lbs, u, held), w) == LbAt(lbs, w)
  {
    hide ContentOf;
    assert forall p :: p in lbs && p.lb == w.lb ==> At(StoredAll(lbs, u, held)[p], w.up) == At(lbs[p], w.up);
  }

  lemma {:induction false} StoredThere(lbs: map<Place, Server>, u: UpKey, held: seq<Backend>)
    ensures LbAt(StoredAll(lbs, u, held), u).Keys == LbAt(lbs, u).Keys
    ensures AllHold(LbAt(StoredAll(lbs, u, held), u), ContentOf(held))
  {
    hide ContentOf;
    assert forall p :: p in lbs && p.lb == u.lb ==> At(StoredAll(lbs, u, held)[p], u.up) == held;
  }

  lemma {:induction false} CanPush(cfg: Config, u: UpKey, bs: seq<Backend>, c: Ctl)
    requires u.lb in cfg.adapters
    ensures exists c' :: PushStep(cfg, u, bs, c, true, c')
  {
    hide ContentOf, Wanted, LbAt, StoredAll;
    FilledUpstream(bs);
    var held :| ContentOf(held) == Wanted(bs);
    var lbs := StoredAll(c.lbs, u, held);
    forall w | w != u ensures LbAt(lbs, w) == LbAt(c.lbs, w) { StoredOthers(c.lbs, u, held, w); }
    StoredThere(c.lbs, u, held);
    assert PushStep(cfg, u, bs, c, true, c.(lbs := lbs));
  }

  lemma {:induction false} SyncSucceeds(v: View, cfg: Config, s: Service, c: Ctl)
    requires s in Sharing(v, Target(s)) && CanSync(v, cfg, s)
    ensures exists c' :: SyncStep(Clean(v), cfg, s, c, true, c')
  {
    hide Sharing, BulkVerdict, NodeMissing;
    var u := Target(s);
    if !Proper(u) || s.nodePort == 0 {
      assert SyncStep(Clean(v), cfg, s, c, true, c);
    } else {
      VerdictByFeeding(v, cfg, u);
      PathsAgree(Clean(v), cfg, s);
      if EventVerdict(Clean(v), cfg, s).Push? {
        var b := EventVerdict(Clean(v), cfg, s).backends;
        var d := c.(upstreams := c.upstreams[u := b]);
        CanPush(cfg, u, b, d);
        var c' :| PushStep(cfg, u, b, d, true, c');
        assert SyncStep(Clean(v), cfg, s, c, true, c');
      } else {
        assert SyncStep(Clean(v), cfg, s, c, true, c);
      }
    }
  }

  lemma {:induction false} SyncSucceeded(snap: Snapshot, cfg: Config, s: Service, c: Ctl, c': Ctl)
    requires s in Sharing(snap.view, Target(s)) && SyncStep(snap, cfg, s, c, true, c')
    ensures CanSync(snap.view, cfg, s)
  {
    hide Sharing, BulkVerdict, NodeMissing;
    if Proper(Target(s)) && s.nodePort != 0 {
      SyncMakesFresh(snap, cfg, s, c, c');
      VerdictByFeeding(snap.view, cfg, Target(s));
      EventIsClean(snap, cfg, s);
    }
  }

  lemma {:induction false} LeaveSucceeds(v: View, cfg: Config, k: Key, last: Service, c: Ctl)
    requires CanLeave(v, cfg, k, last)
    ensures exists c' :: LeaveStep(Clean(v), cfg, k, last, c, true, c')
  {
    hide CanSync, SyncStep, PushStep;
    var u := Target(last);
    if !Proper(u) {
      assert LeaveStep(Clean(v), cfg, k, last, c, true, c);
    } else if Remaining(v, k, u) == {} {
      var d := c.(upstreams := c.upstreams - {u});
      CanPush(cfg, u, [], d);
      var c' :| PushStep(cfg, u, [], d, true, c');
      assert LeaveStep(Clean(v), cfg, k, last, c, true, c');
    } else {
      var o :| o in Remaining(v, k, u) && CanSync(v, cfg, o);
      SyncSucceeds(v, cfg, o, c);
      var c' :| SyncStep(Clean(v), cfg, o, c, true, c');
      assert LeaveStep(Clean(v), cfg, k, last, c, true, c');
    }
  }

  lemma {:induction false} LeaveSucceeded(snap: Snapshot, cfg: Config, k: Key, last: Service, c: Ctl, c': Ctl)
    requires LeaveStep(snap, cfg, k, last, c, true, c')
    ensures CanLeave(snap.view, cfg, k, last)
  {
    hide CanSync, SyncStep;
    var u := Target(last);
    if Proper(u) && Remaining(snap.view, k, u) != {} {
      var o :| o in Remaining(snap.view, k, u) && SyncStep(snap, cfg, o, c, true, c');
      SyncSucceeded(snap, cfg, o, c, c');
    }
  }

  lemma {:induction false} ArriveSucceeds(v: View, cfg: Config, k: Key, m: Ctl)
    requires k in Managed(v) && CanSync(v, cfg, Managed(v)[k])
    ensures exists c' :: ArriveStep(Clean(v), cfg, k, Managed(v)[k], m, true, c')
  {
    hide CanSync, SyncStep;
    var s := Managed(v)[k];
    var m' := m.(lastKnown := m.lastKnown[k := s], services := m.services[k := s]);
    SyncSucceeds(v, cfg, s, m');
    var c' :| SyncStep(Clean(v), cfg, s, m', true, c');
    assert ArriveStep(Clean(v), cfg, k, s, m, true, c');
  }

  lemma {:induction false} WorkerSucceeds(v: View, cfg: Config, k: Key, c: Ctl)
    requires CanWork(v, cfg, c.lastKnown, k)
    ensures exists c' :: WorkerStep(Clean(v), cfg, k, c, true, c')
  {
    hide CanSync, CanLeave, LeaveStep, ArriveStep, Relabelled, Managed;
    if k !in Managed(v) && k !in c.lastKnown {
      assert WorkerStep(Clean(v), cfg, k, c, true, c);
    } else if k !in Managed(v) {
      LeaveSucceeds(v, cfg, k, c.lastKnown[k], c);
      var m :| LeaveStep(Clean(v), cfg, k, c.lastKnown[k], c, true, m);
      assert WorkerStep(Clean(v), cfg, k, c, true, m.(lastKnown := m.lastKnown - {k}, services := m.services - {k}));
    } else {
      var m := c;
      if k in c.lastKnown && Relabelled(c.lastKnown[k], Managed(v)[k]) {
        LeaveSucceeds(v, cfg, k, c.lastKnown[k], c);
        m :| LeaveStep(Clean(v), cfg, k, c.lastKnown[k], c, true, m);
      }
      ArriveSucceeds(v, cfg, k, m);
      var c' :| ArriveStep(Clean(v), cfg, k, Managed(v)[k], m, true, c');
      assert WorkerStep(Clean(v), cfg, k, c, true, c');
    }
  }

  lemma {:induction false} ArriveSucceeded(snap: Snapshot, cfg: Config, k: Key, m: Ctl, c': Ctl)
    requires k in Managed(snap.view) && ArriveStep(snap, cfg, k, Managed(snap.view)[k], m, true, c')
    ensures CanSync(snap.view, cfg, Managed(snap.view)[k])
  {
    hide CanSync, SyncStep;
    var s := Managed(snap.view)[k];
    SyncSucceeded(snap, cfg, s, m.(lastKnown := m.lastKnown[k := s], services := m.services[k := s]), c');
  }

  /** A run that succeeds did not have to wait, and one that fails waits for nothing less than before. */
  lemma {:induction false} WorkerWaits(snap: Snapshot, cfg: Config, k: Key, c: Ctl, ok: bool, c': Ctl)
    requires WorkerStep(snap, cfg, k, c, ok, c')
    requires ok || CanWork(snap.view, cfg, c'.lastKnown, k)
    ensures CanWork(snap.view, cfg, c.lastKnown, k)
  {
    hide CanSync, CanLeave, LeaveStep, ArriveStep, Managed;
    if k !in Managed(snap.view) {
      if k in c.lastKnown {
        if ok {
          var m :|
            LeaveStep(snap, cfg, k, c.lastKnown[k], c, true, m)
              && c' == m.(lastKnown := m.lastKnown - {k}, services := m.services - {k});
          LeaveSucceeded(snap, cfg, k, c.lastKnown[k], c, m);
        } else {
          LeaveFrame(snap, cfg, k, c.lastKnown[k], c, false, c');
        }
      }
    } else {
      var s := Managed(snap.view)[k];
      if k in c.lastKnown && Relabelled(c.lastKnown[k], s) {
        if !ok && LeaveStep(snap, cfg, k, c.lastKnown[k], c, false, c') {
          LeaveFrame(snap, cfg, k, c.lastKnown[k], c, false, c');
        } else {
          var m :| LeaveStep(snap, cfg, k, c.lastKnown[k], c, true, m) && ArriveStep(snap, cfg, k, s, m, ok, c');
          LeaveSucceeded(snap, cfg, k, c.lastKnown[k], c, m);
          if ok { ArriveSucceeded(snap, cfg, k, m, c'); }
        }
      } else if ok {
        ArriveSucceeded(snap, cfg, k, c, c');
      }
    }
  }

  /** Exactly when a fault-free run on a queued service can succeed. */
  lemma {:induction false} WorkSucceedsIff(cfg: Config, s: State, k: Key)
    requires k in s.c.queue
    ensures (exists s' :: Next(cfg, s, s', Work(k, FINE, true))) <==> CanWork(s.view, cfg, s.c.lastKnown, k)
  {
    hide WorkerStep, CanWork;
    var c := s.c.(queue := s.c.queue - {k});
    if CanWork(s.view, cfg, s.c.lastKnown, k) {
      WorkerSucceeds(s.view, cfg, k, c);
      var m :| WorkerStep(Clean(s.view), cfg, k, c, true, m);
      assert Next(cfg, s, s.(c := m), Work(k, FINE, true));
    }
    if s' :| Next(cfg, s, s', Work(k, FINE, true)) { WorkerWaits(Clean(s.view), cfg, k, c, true, s'.c); }
  }

  // ------------------------------------------------------------ continuations

  /** The steps lead from `s` to `s'`. */
  ghost predicate Leads(cfg: Config, s: State, steps: seq<Step>, s': State)
    decreases |steps|
  {
    if steps == [] then s' == s
    else exists m :: Next(cfg, s, m, steps[0]) && Leads(cfg, m, steps[1..], s')
  }

  /** The cluster does not change. */
  predicate Calm(step: Step) { !step.ChangeService? && !step.ChangePod? && !step.ChangeNode? }

  predicate Handles(step: Step) { step.HandleService? || step.HandlePod? || step.HandleNode? }

  predicate Succeeds(step: Step) { step.Work? && step.faults == FINE && step.ok }

  predicate NoEvents(s: State) { s.svcEvents == [] && s.podEvents == [] && s.nodeEvents == [] }

  function Pending(s: State): nat { |s.svcEvents| + |s.podEvents| + |s.nodeEvents| }

  lemma {:induction false} LeadsOn(cfg: Config, s: State, step: Step, m: State, steps: seq<Step>, s': State)
    requires Next(cfg, s, m, step) && Leads(cfg, m, steps, s')
    ensures Leads(cfg, s, [step] + steps, s')
  {
    hide Next;
    assert ([step] + steps)[1..] == steps;
  }

  /** The events can be handled, one after the other. */
  lemma {:induction false} EventsHandled(cfg: Config, s: State)
    ensures exists steps, s' ::
      && Leads(cfg, s, steps, s') && NoEvents(s') && |steps| == Pending(s)
      && forall i :: 0 <= i < |steps| ==> Handles(steps[i])
    decreases Pending(s)
  {
    hide OnServiceEvent, OnPodEvent, OnNodeEvent;
    if NoEvents(s) {
      assert Leads(cfg, s, [], s);
    } else {
      var step, m := HandleNode, s;
      if s.svcEvents != [] {
        step, m := HandleService, s.(svcEvents := s.svcEvents[1..], c := OnServiceEvent(s.c, s.svcEvents[0]));
      } else if s.podEvents != [] {
        step, m := HandlePod, s.(podEvents := s.podEvents[1..], c := OnPodEvent(s.c, s.podEvents[0]));
      } else {
        m := s.(nodeEvents := s.nodeEvents[1..], c := OnNodeEvent(s.c, s.nodeEvents[0]));
      }
      EventsHandled(cfg, m);
      var steps, s' :|
        Leads(cfg, m, steps, s') && NoEvents(s') && |steps| == Pending(m)
          && forall i :: 0 <= i < |steps| ==> Handles(steps[i]);
      LeadsOn(cfg, s, step, m, steps, s');
      assert |[step] + steps| == Pending(s);
    }
  }

  /** A run on another service does not make this one wait. */
  lemma {:induction false} OthersKeepWork(cfg: Config, s: State, s': State, k: Key, j: Key)
    requires Next(cfg, s, s', Work(k, FINE, true)) && j != k && CanWork(s.view, cfg, s.c.lastKnown, j)
    ensures CanWork(s'.view, cfg, s'.c.lastKnown, j)
  {
    hide ProcessStep, CanLeave, CanSync, Managed;
    ProcessFrame(Clean(s.view), cfg, k, s.c, true, s'.c);
    assert Lookup(s'.c.lastKnown, j) == Lookup(s.c.lastKnown, j);
  }

  ghost predicate AllCanWork(cfg: Config, s: State) {
    forall k :: k in s.c.queue ==> CanWork(s.view, cfg, s.c.lastKnown, k)
  }

  /** The queue is worked off with one successful run for each service in it. */
  lemma {:induction false} QueueWorkedOff(cfg: Config, s: State)
    requires NoEvents(s) && AllCanWork(cfg, s)
    ensures exists steps, s' ::
      && Leads(cfg, s, steps, s') && Quiet(s') && |steps| == |s.c.queue|
      && forall i :: 0 <= i < |steps| ==> Succeeds(steps[i])
    decreases |s.c.queue|
  {
    hide CanWork, Next;
    if s.c.queue == {} {
      assert Leads(cfg, s, [], s);
    } else {
      var k :| k in s.c.queue;
      WorkSucceedsIff(cfg, s, k);
      var m :| Next(cfg, s, m, Work(k, FINE, true));
      QueueShrinks(cfg, s, m, k);
      QueueWorkedOff(cfg, m);
      var steps, s' :|
        Leads(cfg, m, steps, s') && Quiet(s') && |steps| == |m.c.queue|
          && forall i :: 0 <= i < |steps| ==> Succeeds(steps[i]);
      LeadsOn(cfg, s, Work(k, FINE, true), m, steps, s');
      assert |[Work(k, FINE, true)] + steps| == |s.c.queue|;
    }
  }

  lemma {:induction false} QueueShrinks(cfg: Config, s: State, m: State, k: Key)
    requires NoEvents(s) && AllCanWork(cfg, s) && k in s.c.queue && Next(cfg, s, m, Work(k, FINE, true))
    ensures NoEvents(m) && AllCanWork(cfg, m) && m.c.queue == s.c.queue - {k}
  {
    hide CanWork, ProcessStep;
    ProcessFrame(Clean(s.view), cfg, k, s.c, true, m.c);
    forall j | j in m.c.queue ensures CanWork(m.view, cfg, m.c.lastKnown, j) { OthersKeepWork(cfg, s, m, k, j); }
  }

  /** Whoever waits goes on waiting, in the queue, through any step that is not a change of the cluster. */
  lemma {:induction false} StillWaiting(cfg: Config, s: State, s': State, step: Step, k: Key)
    requires NoEvents(s) && Next(cfg, s, s', step) && Calm(step)
    requires k in s.c.queue && !CanWork(s.view, cfg, s.c.lastKnown, k)
    ensures NoEvents(s') && k in s'.c.queue && !CanWork(s'.view, cfg, s'.c.lastKnown, k)
  {
    if step.Work? {
      WaitingAfterWork(cfg, s, s', step, k);
    } else {
      hide CanLeave, CanSync, Managed;
      assert step.Periodic?;
      assert Lookup(s'.c.lastKnown, k) == Lookup(s.c.lastKnown, k)
        || (k !in s.c.lastKnown && Lookup(s'.c.lastKnown, k) == Lookup(Managed(s.view), k));
    }
  }

  lemma {:induction false} WaitingAfterWork(cfg: Config, s: State, s': State, step: Step, k: Key)
    requires Next(cfg, s, s', step) && step.Work?
    requires k in s.c.queue && !CanWork(s.view, cfg, s.c.lastKnown, k)
    ensures k in s'.c.queue && !CanWork(s'.view, cfg, s'.c.lastKnown, k)
  {
    hide CanLeave, CanSync, Managed, WorkerStep;
    var snap, c := Observed(s.view, step.faults), s.c.(queue := s.c.queue - {step.key});
    ProcessFrame(snap, cfg, step.key, s.c, step.ok, s'.c);
    if step.key == k {
      hide CanWork;
      var m :| WorkerStep(snap, cfg, k, c, step.ok, m) && s'.c == if step.ok then m else m.(queue := m.queue + {k});
      if step.ok || CanWork(s.view, cfg, m.lastKnown, k) { WorkerWaits(snap, cfg, k, c, step.ok, m); }
    } else {
      assert Lookup(s'.c.lastKnown, k) == Lookup(s.c.lastKnown, k);
    }
  }

  lemma {:induction false} WaitingAlong(cfg: Config, s: State, steps: seq<Step>, s': State, k: Key)
    requires NoEvents(s) && Leads(cfg, s, steps, s') && forall i :: 0 <= i < |steps| ==> Calm(steps[i])
    requires k in s.c.queue && !CanWork(s.view, cfg, s.c.lastKnown, k)
    ensures k in s'.c.queue
    decreases |steps|
  {
    hide CanWork, Next;
    if steps != [] {
      var m :| Next(cfg, s, m, steps[0]) && Leads(cfg, m, steps[1..], s');
      StillWaiting(cfg, s, m, steps[0], k);
      WaitingAlong(cfg, m, steps[1..], s', k);
    }
  }

  /** Exactly when rest can be reached once all events are handled and the cluster does not change any more, with
      lookups and requests failing or not and periodic runs in between: no queued service waits on a missing node or a
      missing adapter. */
  lemma {:induction false} RestIff(cfg: Config, s: State)
    requires NoEvents(s)
    ensures AllCanWork(cfg, s) <==>
      exists steps, s' :: Leads(cfg, s, steps, s') && Quiet(s') && forall i :: 0 <= i < |steps| ==> Calm(steps[i])
  {
    hide CanWork, Leads;
    if AllCanWork(cfg, s) {
      QueueWorkedOff(cfg, s);
      var steps, s' :|
        Leads(cfg, s, steps, s') && Quiet(s') && |steps| == |s.c.queue|
          && forall i :: 0 <= i < |steps| ==> Succeeds(steps[i]);
      assert forall i :: 0 <= i < |steps| ==> Calm(steps[i]);
    } else if steps, s' :| Leads(cfg, s, steps, s') && Quiet(s') && forall i :: 0 <= i < |steps| ==> Calm(steps[i]) {
      var k :| k in s.c.queue && !CanWork(s.view, cfg, s.c.lastKnown, k);
      WaitingAlong(cfg, s, steps, s', k);
    }
  }

  // ------------------------------------------------------------ what is there

  lemma {:induction false} CalmStep(cfg: Config, s: State, m: State, step: Step, u: UpKey)
    requires Caches(s) && Departures(s) && Reconciling(cfg, s, u) && PortsAt(s.view, u) && Proper(u)
    requires Next(cfg, s, m, step) && Calm(step)
    ensures Caches(m) && Departures(m) && Reconciling(cfg, m, u) && m.view == s.view
  {
    CachesKept(cfg, s, m, step);
    DeparturesKept(cfg, s, m, step);
    ReconcilingKept(cfg, s, m, step, u);
  }

  lemma {:induction false} CalmAlong(cfg: Config, s: State, steps: seq<Step>, s': State, u: UpKey)
    requires Caches(s) && Departures(s) && Reconciling(cfg, s, u) && PortsAt(s.view, u) && Proper(u)
    requires Leads(cfg, s, steps, s') && forall i :: 0 <= i < |steps| ==> Calm(steps[i])
    ensures Caches(s') && Departures(s') && Reconciling(cfg, s', u) && s'.view == s.view
    decreases |steps|
  {
    hide Next, Caches, Departures, Reconciling, PortsAt, Proper;
    if steps != [] {
      var m :| Next(cfg, s, m, steps[0]) && Leads(cfg, m, steps[1..], s');
      CalmStep(cfg, s, m, steps[0], u);
      CalmAlong(cfg, m, steps[1..], s', u);
    }
  }

  /** The end of any run, with all events handled and nobody waiting: one successful run for each queued service leads
      to rest, and there every upstream that was fresh or dirty and whose services have ports all or none is as the
      cluster asks. */
  lemma {:induction false} SettlesFresh(cfg: Config, run: seq<State>, past: seq<Step>)
    requires Run(cfg, run, past) && NoEvents(run[|past|]) && AllCanWork(cfg, run[|past|])
    ensures
      var s := run[|past|];
      exists steps, s' ::
        && Leads(cfg, s, steps, s') && Quiet(s') && |steps| == |s.c.queue|
        && (forall i :: 0 <= i < |steps| ==> Succeeds(steps[i]))
        && forall u :: Proper(u) && PortsAt(s.view, u) && Reconciling(cfg, s, u) ==> Fresh(s.view, cfg, s'.c, u)
  {
    hide Run, CanWork, Leads, Caches, Departures, Reconciling, PortsAt, Proper, Fresh, Init, Next;
    RunLength(cfg, run, past);
    var s := run[|past|];
    RunCaches(cfg, run, past, |past|);
    RunDepartures(cfg, run, past, |past|);
    QueueWorkedOff(cfg, s);
    var steps, s' :|
      Leads(cfg, s, steps, s') && Quiet(s') && |steps| == |s.c.queue|
        && forall i :: 0 <= i < |steps| ==> Succeeds(steps[i]);
    assert forall i :: 0 <= i < |steps| ==> Calm(steps[i]);
    forall u | Proper(u) && PortsAt(s.view, u) && Reconciling(cfg, s, u) ensures Fresh(s.view, cfg, s'.c, u) {
      CalmAlong(cfg, s, steps, s', u);
      QuietFresh(cfg, s', u);
    }
  }
}

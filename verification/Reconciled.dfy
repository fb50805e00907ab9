/** What every run keeps true of the load balancers, and what they hold once nothing is left to do. */
module Reconciled {
  import opened Text
  import opened Backends
  import opened Diff
  import opened Cluster
  import opened Steps
  import opened Runs

  // ------------------------------------------------- what is wanted, by view

  function Clean(v: View): Snapshot { Snapshot(v, {}, false, true) }

  /** Nothing keeps the upstream from being built, and every server holds what the view asks for, and the controller has
      recorded it, if the view asks for anything definite. */
  ghost predicate Fresh(v: View, cfg: Config, c: Ctl, u: UpKey) {
    && (forall s :: s in Sharing(v, u) ==> !BuildFails(Clean(v), s))
    && match BulkVerdict(Clean(v), cfg, u)
      case Push(b) => AllHold(LbAt(c.lbs, u), Wanted(b)) && u in c.upstreams && c.upstreams[u] == b
      case _ => true
  }

  ghost predicate Targets(v: View, k: Key, u: UpKey) { k in Managed(v) && Target(Managed(v)[k]) == u }

  /** A service that asks for backends at the upstream: it targets it, and has a port. */
  ghost predicate Feeds(v: View, k: Key, u: UpKey) { Targets(v, k, u) && Managed(v)[k].nodePort != 0 }

  /** The services that ask for backends at the upstream. */
  ghost function Feeding(v: View, u: UpKey): set<Service> { set s | s in Sharing(v, u) && s.nodePort != 0 }

  ghost predicate Names(lastKnown: map<Key, Service>, k: Key, u: UpKey) { k in lastKnown && Target(lastKnown[k]) == u }

  /** The service's last known labels name an upstream it does not target any more. */
  ghost predicate Leaving(s: State, k: Key, u: UpKey) { Names(s.c.lastKnown, k, u) && !Targets(s.view, k, u) }

  ghost predicate Dirty(s: State, u: UpKey) {
    (exists k :: Feeds(s.view, k, u) && Awaited(s, k)) || (exists k :: Leaving(s, k, u))
  }

  /** The upstream is fresh, or some service that asks for backends there or leaves it is yet to be processed. */
  ghost predicate Reconciling(cfg: Config, s: State, u: UpKey) { Fresh(s.view, cfg, s.c, u) || Dirty(s, u) }

  ghost predicate Departures(s: State) {
    forall k, u :: Leaving(s, k, u) ==> k in s.c.queue || PendingService(s, k)
  }

  /** Of the services sharing the upstream all have a valid port, or none has. */
  ghost predicate PortsAt(v: View, u: UpKey) {
    forall s, o :: s in Sharing(v, u) && o in Sharing(v, u) && s.nodePort == 0 ==> o.nodePort == 0
  }

  /** The service asked for backends at the upstream or was leaving it, and does neither any more. */
  ghost predicate Lost(s: State, s': State, k: Key, u: UpKey) {
    (Feeds(s.view, k, u) || Leaving(s, k, u)) && !Feeds(s'.view, k, u) && !Leaving(s', k, u)
  }

  /** The controller will look at the upstream all the same, because of another service. */
  ghost predicate Traced(s: State, k: Key, u: UpKey) {
    (exists j :: j != k && Feeds(s.view, j, u) && Awaited(s, j)) || (exists j :: j != k && Leaving(s, j, u))
  }

  // ------------------------------------------------------------- congruence

  lemma SameLookups(v: View, v': View, s: Service)
    requires SameInputs(v, v', s)
    ensures Serving(v, s) == Serving(v', s)
    ensures NodeMissing(v, s) <==> NodeMissing(v', s)
  {
    forall p ensures p in Serving(v, s) <==> p in Serving(v', s) {
      assert p in Selected(v, s) <==> p in Selected(v', s);
    }
    forall p | p in Selected(v, s)
      ensures Scheduled(v.pods[p]) && v.pods[p].nodeName !in v.nodes <==>
        Scheduled(v'.pods[p]) && v'.pods[p].nodeName !in v'.nodes
    {
      assert Lookup(v.nodes, v.pods[p].nodeName) == Lookup(v'.nodes, v.pods[p].nodeName);
    }
  }

  lemma {:induction false} SameClaim(v: View, v': View, cfg: Config, c: Claim)
    requires SameInputs(v, v', c.service) && c.pod in Serving(v, c.service)
    ensures KeyOf(v, cfg)(c) == KeyOf(v', cfg)(c)
  {
    assert c.pod in Selected(v, c.service);
    assert v.pods[c.pod] == v'.pods[c.pod];
    assert Lookup(v.nodes, v.pods[c.pod].nodeName) == Lookup(v'.nodes, v.pods[c.pod].nodeName);
  }

  lemma SameDemand(v: View, v': View, cfg: Config, svcs: set<Service>)
    requires forall s :: s in svcs ==> SameInputs(v, v', s)
    ensures Demand(v, cfg, svcs) == Demand(v', cfg, svcs)
  {
    forall s | s in svcs ensures Serving(v, s) == Serving(v', s) { SameLookups(v, v', s); }
    forall c ensures c in Claims(v, svcs) <==> c in Claims(v', svcs) {
      assert c in Claims(v, svcs) <==> c.service in svcs && c.service.nodePort != 0 && c.pod in Serving(v, c.service);
      assert c in Claims(v', svcs) <==> c.service in svcs && c.service.nodePort != 0 && c.pod in Serving(v', c.service);
    }
    assert Claims(v, svcs) == Claims(v', svcs);
    forall c | c in Claims(v, svcs) ensures KeyOf(v, cfg)(c) == KeyOf(v', cfg)(c) { SameClaim(v, v', cfg, c); }
    CountCongruent(Claims(v, svcs), KeyOf(v, cfg), KeyOf(v', cfg));
  }

  /** The verdict without failed lookups, by the services with a port alone. */
  ghost function FeedVerdict(v: View, cfg: Config, u: UpKey, feeding: set<Service>): Verdict {
    if !Proper(u) then Skip
    else if exists s :: s in feeding && NodeMissing(v, s) then Keep
    else if feeding == {} then Skip
    else Settle(cfg, u.lb, Listed(Demand(v, cfg, feeding)))
  }

  lemma {:induction false} FeedingDemand(v: View, cfg: Config, u: UpKey)
    ensures Demand(v, cfg, Sharing(v, u)) == Demand(v, cfg, Feeding(v, u))
  {
    assert Claims(v, Sharing(v, u)) == Claims(v, Feeding(v, u));
  }

  lemma {:induction false} VerdictByFeeding(v: View, cfg: Config, u: UpKey)
    ensures BulkVerdict(Clean(v), cfg, u) == FeedVerdict(v, cfg, u, Feeding(v, u))
    ensures (forall s :: s in Sharing(v, u) ==> !BuildFails(Clean(v), s)) <==>
      forall s :: s in Feeding(v, u) ==> !NodeMissing(v, s)
  {
    hide Demand, Sharing, NodeMissing;
    FeedingDemand(v, cfg, u);
    var svcs, feeding := Sharing(v, u), Feeding(v, u);
    forall s | s in svcs ensures LookupFails(Clean(v), s) <==> s in feeding && NodeMissing(v, s) {}
    assert (forall s :: s in svcs ==> s.nodePort == 0) <==> feeding == {} by {
      if s :| s in svcs && s.nodePort != 0 { assert s in feeding; }
    }
    assert (exists s :: s in svcs && LookupFails(Clean(v), s)) <==> exists s :: s in feeding && NodeMissing(v, s) by {
      if s :| s in feeding && NodeMissing(v, s) { assert s in svcs && LookupFails(Clean(v), s); }
    }
    forall s | s in svcs ensures BuildFails(Clean(v), s) <==> s in feeding && NodeMissing(v, s) {}
  }

  /** What is wanted of an upstream follows from the inputs of the services with a port that share it. */
  lemma {:induction false} VerdictCongruent(v: View, v': View, cfg: Config, u: UpKey)
    requires Feeding(v, u) == Feeding(v', u)
    requires forall s :: s in Feeding(v, u) ==> SameInputs(v, v', s)
    ensures BulkVerdict(Clean(v), cfg, u) == BulkVerdict(Clean(v'), cfg, u)
    ensures forall c :: Fresh(v, cfg, c, u) <==> Fresh(v', cfg, c, u)
  {
    hide Feeding, Demand, BulkVerdict, NodeMissing;
    var feeding := Feeding(v, u);
    VerdictByFeeding(v, cfg, u);
    VerdictByFeeding(v', cfg, u);
    forall s | s in feeding ensures NodeMissing(v, s) <==> NodeMissing(v', s) { SameLookups(v, v', s); }
    SameDemand(v, v', cfg, feeding);
  }

  // ------------------------------------------------ a successful sync is fresh

  lemma {:induction false} FaultFree(snap: Snapshot, cfg: Config, u: UpKey)
    ensures BulkVerdict(snap, cfg, u).Push? ==> BulkVerdict(Clean(snap.view), cfg, u) == BulkVerdict(snap, cfg, u)
    ensures BulkVerdict(snap, cfg, u) == Skip ==> BulkVerdict(Clean(snap.view), cfg, u) == Skip
  {
    var svcs := Sharing(snap.view, u);
    forall s | s in svcs && !LookupFails(snap, s) ensures !LookupFails(Clean(snap.view), s) {}
  }

  lemma {:induction false} SyncMakesFresh(snap: Snapshot, cfg: Config, o: Service, c: Ctl, c': Ctl)
    requires SyncStep(snap, cfg, o, c, true, c')
    requires o in Sharing(snap.view, Target(o)) && Proper(Target(o)) && o.nodePort != 0
    ensures Fresh(snap.view, cfg, c', Target(o))
  {
    if !snap.listFault { PathsAgree(snap, cfg, o); }
    EventIsClean(snap, cfg, o);
  }

  lemma {:induction false} EventIsClean(snap: Snapshot, cfg: Config, o: Service)
    requires o in Sharing(snap.view, Target(o)) && Proper(Target(o)) && o.nodePort != 0
    ensures EventVerdict(snap, cfg, o) != Skip
    ensures EventVerdict(snap, cfg, o) != Fail ==>
      EventVerdict(snap, cfg, o) == BulkVerdict(Clean(snap.view), cfg, Target(o))
  {
    if EventVerdict(snap, cfg, o) != Fail {
      PathsAgree(snap, cfg, o);
      FaultFree(snap, cfg, Target(o));
      forall s | s in Sharing(snap.view, Target(o)) ensures !LookupFails(Clean(snap.view), s) {
        assert !LookupFails(snap, s);
      }
    }
  }

  /** Nobody with a port there, nothing definite is wanted. */
  lemma {:induction false} UnfedFresh(v: View, cfg: Config, c: Ctl, u: UpKey)
    requires Feeding(v, u) == {}
    ensures Fresh(v, cfg, c, u)
  {
    hide Demand, Sharing, NodeMissing;
    VerdictByFeeding(v, cfg, u);
  }

  // ------------------------------------------------------------- a departure

  lemma {:induction false} RemainingAll(v: View, k: Key, u: UpKey)
    requires !Targets(v, k, u)
    ensures Remaining(v, k, u) == Sharing(v, u)
  {
    assert forall s :: s in Sharing(v, u) ==> s.key in Managed(v) && Managed(v)[s.key] == s;
  }

  lemma {:induction false} SkipsUnported(snap: Snapshot, cfg: Config, o: Service, c: Ctl, ok: bool, c': Ctl)
    requires SyncStep(snap, cfg, o, c, ok, c') && o.nodePort == 0
    ensures c' == c
  {
  }

  /** A departure leaves its upstream to any service that remains; one without a port does nothing for it, and the
      worker forgets. */
  lemma {:induction false} PortlessLeaves(snap: Snapshot, cfg: Config, k: Key, last: Service, c: Ctl, o: Service)
    requires Proper(Target(last)) && !snap.listFault
    requires o in Remaining(snap.view, k, Target(last)) && o.nodePort == 0 && !PodsFail(snap, o)
    ensures LeaveStep(snap, cfg, k, last, c, true, c)
  {
    assert SyncStep(snap, cfg, o, c, true, c);
  }

  /** A successful departure makes its upstream fresh, unless services with and without a port remain there. */
  lemma {:induction false} LeaveMakesFresh(snap: Snapshot, cfg: Config, k: Key, last: Service, c: Ctl, c': Ctl)
    requires LeaveStep(snap, cfg, k, last, c, true, c') && Proper(Target(last)) && !Targets(snap.view, k, Target(last))
    requires PortsAt(snap.view, Target(last)) || Fresh(snap.view, cfg, c, Target(last))
    ensures Fresh(snap.view, cfg, c', Target(last))
  {
    hide Sharing, Remaining, SyncStep, PushStep, Targets, Fresh;
    var v, u := snap.view, Target(last);
    RemainingAll(v, k, u);
    if Feeding(v, u) == {} {
      UnfedFresh(v, cfg, c', u);
    } else {
      var o :| o in Remaining(v, k, u) && SyncStep(snap, cfg, o, c, true, c');
      SharingTarget(v, u, o);
      if o.nodePort == 0 { SkipsUnported(snap, cfg, o, c, true, c'); } else { SyncMakesFresh(snap, cfg, o, c, c'); }
    }
  }

  lemma {:induction false} SharingTarget(v: View, u: UpKey, o: Service)
    requires o in Sharing(v, u)
    ensures Target(o) == u && Targets(v, o.key, u) && Managed(v)[o.key] == o
  {
  }

  /** Exactly when every successful departure leaves its upstream fresh: the services that remain all have a port or
      none has, or it was fresh before. */
  lemma {:induction false} DepartureFreshIff(snap: Snapshot, cfg: Config, k: Key, last: Service, c: Ctl)
    requires Proper(Target(last)) && !Targets(snap.view, k, Target(last))
    requires !snap.listFault && forall o :: o in Remaining(snap.view, k, Target(last)) ==> !PodsFail(snap, o)
    ensures (forall c' :: LeaveStep(snap, cfg, k, last, c, true, c') ==>
      Fresh(snap.view, cfg, c', Target(last))) <==>
      PortsAt(snap.view, Target(last)) || Fresh(snap.view, cfg, c, Target(last))
  {
    hide Sharing, Remaining, LeaveStep, Targets, Fresh, PodsFail;
    var v, u := snap.view, Target(last);
    RemainingAll(v, k, u);
    if PortsAt(v, u) || Fresh(v, cfg, c, u) {
      forall c' | LeaveStep(snap, cfg, k, last, c, true, c') ensures Fresh(v, cfg, c', u) {
        LeaveMakesFresh(snap, cfg, k, last, c, c');
      }
    } else {
      var o :| o in Sharing(v, u) && o.nodePort == 0;
      PortlessLeaves(snap, cfg, k, last, c, o);
    }
  }

  // -------------------------------------------------------- worker runs

  /** What a worker run on `k` means for one upstream. */
  ghost predicate Worked(v: View, cfg: Config, k: Key, c: Ctl, ok: bool, c': Ctl, u: UpKey) {
    || Fresh(v, cfg, c', u)
    || (!ok && Feeds(v, k, u))
    || (!ok && Names(c'.lastKnown, k, u) && !Targets(v, k, u))
    || (SameAt(c, c', u) && !Feeds(v, k, u) && (Names(c.lastKnown, k, u) ==> Targets(v, k, u)))
  }

  /** The condition for a worker run on `k`: if it is due to leave the upstream, the others there all have a port or
      none has. */
  ghost predicate PortsWhenLeft(v: View, k: Key, lastKnown: map<Key, Service>, u: UpKey) {
    Names(lastKnown, k, u) && !Targets(v, k, u) ==> PortsAt(v, u)
  }

  lemma {:induction false} WorkedGone(snap: Snapshot, cfg: Config, k: Key, c: Ctl, ok: bool, c': Ctl, u: UpKey)
    requires WorkerStep(snap, cfg, k, c, ok, c') && Proper(u) && k !in Managed(snap.view)
    requires PortsWhenLeft(snap.view, k, c.lastKnown, u)
    ensures Worked(snap.view, cfg, k, c, ok, c', u)
  {
    hide Fresh, LeaveStep, LbAt, PortsAt;
    if k in c.lastKnown {
      if ok {
        var m :|
          LeaveStep(snap, cfg, k, c.lastKnown[k], c, true, m)
            && c' == m.(lastKnown := m.lastKnown - {k}, services := m.services - {k});
        LeaveFrame(snap, cfg, k, c.lastKnown[k], c, true, m);
        if Target(c.lastKnown[k]) == u {
          LeaveMakesFresh(snap, cfg, k, c.lastKnown[k], c, m);
          FreshSame(snap.view, cfg, m, c', u);
        } else {
          assert SameAt(c, m, u);
        }
      } else {
        LeaveFrame(snap, cfg, k, c.lastKnown[k], c, false, c');
      }
    }
  }

  lemma {:induction false} WorkedArrived(snap: Snapshot, cfg: Config, k: Key, s: Service, m: Ctl, ok: bool, c': Ctl,
      u: UpKey)
    requires k in Managed(snap.view) && s == Managed(snap.view)[k] && Proper(u)
    requires ArriveStep(snap, cfg, k, s, m, ok, c')
    ensures Target(s) != u || s.nodePort == 0 ==> SameAt(m, c', u)
    ensures Target(s) == u && s.nodePort != 0 && ok ==> Fresh(snap.view, cfg, c', u)
    ensures c'.lastKnown == m.lastKnown[k := s]
  {
    hide SyncStep, Fresh, LbAt;
    var m' := m.(lastKnown := m.lastKnown[k := s], services := m.services[k := s]);
    SyncFrame(snap, cfg, s, m', ok, c');
    assert Target(s) != u ==> SameAt(m', c', u);
    if s.nodePort == 0 { SkipsUnported(snap, cfg, s, m', ok, c'); }
    if Target(s) == u && s.nodePort != 0 && ok { SyncMakesFresh(snap, cfg, s, m', c'); }
  }

  lemma {:induction false} FreshSame(v: View, cfg: Config, c: Ctl, c': Ctl, u: UpKey)
    requires Fresh(v, cfg, c, u) && SameAt(c, c', u)
    ensures Fresh(v, cfg, c', u)
  {
  }

  lemma {:induction false} WorkedMoved(snap: Snapshot, cfg: Config, k: Key, s: Service, c: Ctl, m: Ctl, ok: bool,
      c': Ctl, u: UpKey)
    requires k in Managed(snap.view) && s == Managed(snap.view)[k] && Proper(u)
    requires PortsWhenLeft(snap.view, k, c.lastKnown, u)
    requires k in c.lastKnown && Relabelled(c.lastKnown[k], s)
    requires LeaveStep(snap, cfg, k, c.lastKnown[k], c, true, m) && ArriveStep(snap, cfg, k, s, m, ok, c')
    ensures Worked(snap.view, cfg, k, c, ok, c', u)
  {
    hide Fresh, LeaveStep, ArriveStep, LbAt, PortsAt;
    LeaveFrame(snap, cfg, k, c.lastKnown[k], c, true, m);
    WorkedArrived(snap, cfg, k, s, m, ok, c', u);
    if Target(c.lastKnown[k]) == u {
      LeaveMakesFresh(snap, cfg, k, c.lastKnown[k], c, m);
      FreshSame(snap.view, cfg, m, c', u);
    } else {
      assert SameAt(c, m, u);
    }
  }

  lemma {:induction false} WorkedAt(snap: Snapshot, cfg: Config, k: Key, c: Ctl, ok: bool, c': Ctl, u: UpKey)
    requires WorkerStep(snap, cfg, k, c, ok, c') && Proper(u) && PortsWhenLeft(snap.view, k, c.lastKnown, u)
    ensures Worked(snap.view, cfg, k, c, ok, c', u)
  {
    hide Fresh, LeaveStep, ArriveStep, LbAt, PortsWhenLeft;
    if k !in Managed(snap.view) {
      WorkedGone(snap, cfg, k, c, ok, c', u);
    } else {
      var s := Managed(snap.view)[k];
      if k in c.lastKnown && Relabelled(c.lastKnown[k], s) {
        if !ok && LeaveStep(snap, cfg, k, c.lastKnown[k], c, false, c') {
          LeaveFrame(snap, cfg, k, c.lastKnown[k], c, false, c');
        } else {
          var m :|
            LeaveStep(snap, cfg, k, c.lastKnown[k], c, true, m) && ArriveStep(snap, cfg, k, s, m, ok, c');
          WorkedMoved(snap, cfg, k, s, c, m, ok, c', u);
        }
      } else {
        WorkedArrived(snap, cfg, k, s, c, ok, c', u);
      }
    }
  }

  lemma {:induction false} ReconcilingAfterWork(cfg: Config, s: State, s': State, step: Step, u: UpKey)
    requires Caches(s) && Reconciling(cfg, s, u) && Proper(u) && Next(cfg, s, s', step) && step.Work?
    requires PortsWhenLeft(s.view, step.key, s.c.lastKnown, u)
    ensures Reconciling(cfg, s', u)
  {
    var snap, k, ok := Observed(s.view, step.faults), step.key, step.ok;
    ProcessFrame(snap, cfg, k, s.c, ok, s'.c);
    var c := s.c.(queue := s.c.queue - {k});
    var m :| WorkerStep(snap, cfg, k, c, ok, m) && s'.c == if ok then m else m.(queue := m.queue + {k});
    WorkedAt(snap, cfg, k, c, ok, m, u);
    AfterWorked(cfg, s, s', step, m, u);
  }

  lemma {:induction false} AfterWorked(cfg: Config, s: State, s': State, step: Step, m: Ctl, u: UpKey)
    requires Caches(s) && Next(cfg, s, s', step) && step.Work?
    requires Reconciling(cfg, s, u)
    requires WorkFrame(s.view, step.key, s.c, step.ok, s'.c)
    requires Worked(s.view, cfg, step.key, s.c.(queue := s.c.queue - {step.key}), step.ok, m, u)
    requires s'.c == if step.ok then m else m.(queue := m.queue + {step.key})
    ensures Reconciling(cfg, s', u)
  {
    hide Fresh, LbAt, Managed, ProcessStep;
    var k := step.key;
    if Fresh(s.view, cfg, m, u) {
      FreshSame(s.view, cfg, m, s'.c, u);
    } else if !step.ok && Feeds(s.view, k, u) {
      assert Feeds(s'.view, k, u) && Awaited(s', k);
    } else if !step.ok && Names(m.lastKnown, k, u) && !Targets(s.view, k, u) {
      assert Leaving(s', k, u);
    } else if Fresh(s.view, cfg, s.c, u) {
      FreshSame(s.view, cfg, s.c, s'.c, u);
    } else {
      DirtyPersists(cfg, s, s', step, u);
    }
  }

  /** A worker run on another service leaves an upstream as dirty as it was. */
  lemma DirtyPersists(cfg: Config, s: State, s': State, step: Step, u: UpKey)
    requires Caches(s) && Next(cfg, s, s', step) && Dirty(s, u) && s'.view == s.view
    requires step.Work? ==> !Feeds(s.view, step.key, u) && !Leaving(s, step.key, u)
    requires forall k :: Leaving(s, k, u) ==> Lookup(s'.c.lastKnown, k) == Lookup(s.c.lastKnown, k)
    ensures Dirty(s', u)
  {
    if k :| Feeds(s.view, k, u) && Awaited(s, k) {
      AwaitedPersists(cfg, s, s', step, k);
    } else {
      var k :| Leaving(s, k, u);
      assert Leaving(s', k, u);
    }
  }

  // ------------------------------------------------ the other controller steps

  lemma {:induction false} ReconcilingAfterEvent(cfg: Config, s: State, s': State, step: Step, u: UpKey)
    requires Caches(s) && Reconciling(cfg, s, u) && Next(cfg, s, s', step)
    requires step.HandleService? || step.HandlePod? || step.HandleNode?
    ensures Reconciling(cfg, s', u)
  {
    EventFrame(cfg, s, s', step);
    if !Fresh(s.view, cfg, s.c, u) { DirtyPersists(cfg, s, s', step, u); }
  }

  lemma {:induction false} EventFrame(cfg: Config, s: State, s': State, step: Step)
    requires Next(cfg, s, s', step) && (step.HandleService? || step.HandlePod? || step.HandleNode?)
    ensures s'.view == s.view && s'.c.lbs == s.c.lbs && s'.c.upstreams == s.c.upstreams
    ensures forall k :: k in s.c.lastKnown ==> Lookup(s'.c.lastKnown, k) == Lookup(s.c.lastKnown, k)
  {
    hide Matching, MatchingNode, Replaced, EventsOf, ProcessStep, PeriodicStep;
  }

  lemma {:induction false} PeriodicFresh(snap: Snapshot, cfg: Config, lb: string, c: Ctl, ok: bool, bad: set<string>,
      c': Ctl, u: UpKey)
    requires PeriodicStep(snap, cfg, lb, c, ok, bad, c') && Proper(u) && Fresh(snap.view, cfg, c, u)
    ensures Fresh(snap.view, cfg, c', u)
  {
    if snap.synced && !snap.listFault && u.lb == lb {
      FaultFree(snap, cfg, u);
      assert BulkOutcome(LbAt(c.lbs, u), BulkVerdict(snap, cfg, u), Prunes(cfg, lb), ok, u.up !in bad, LbAt(c'.lbs, u));
    }
  }

  /** A periodic run makes every upstream of its load balancer fresh for which no lookup and no request failed. */
  lemma {:induction false} PeriodicMakesFresh(snap: Snapshot, cfg: Config, lb: string, c: Ctl, ok: bool,
      bad: set<string>, c': Ctl, u: UpKey)
    requires PeriodicStep(snap, cfg, lb, c, ok, bad, c') && snap.synced && !snap.listFault
    requires Proper(u) && u.lb == lb && u.up !in bad
    requires forall s :: s in Sharing(snap.view, u) ==> !LookupFails(snap, s)
    ensures Fresh(snap.view, cfg, c', u)
  {
    forall s | s in Sharing(snap.view, u) ensures !LookupFails(Clean(snap.view), s) { assert !LookupFails(snap, s); }
    assert BulkVerdict(Clean(snap.view), cfg, u) == BulkVerdict(snap, cfg, u);
    assert BulkOutcome(LbAt(c.lbs, u), BulkVerdict(snap, cfg, u), Prunes(cfg, lb), ok, u.up !in bad, LbAt(c'.lbs, u));
  }

  lemma {:induction false} ReconcilingAfterPeriodic(cfg: Config, s: State, s': State, step: Step, u: UpKey)
    requires Caches(s) && Reconciling(cfg, s, u) && Proper(u) && Next(cfg, s, s', step) && step.Periodic?
    ensures Reconciling(cfg, s', u)
  {
    if Fresh(s.view, cfg, s.c, u) {
      PeriodicFresh(Observed(s.view, step.faults), cfg, step.lb, s.c, step.ok, step.bad, s'.c, u);
    } else {
      DirtyPersists(cfg, s, s', step, u);
    }
  }

  // --------------------------------------------------------- cluster changes

  lemma {:induction false} ReconcilingAfterPodOrNode(cfg: Config, s: State, s': State, step: Step, u: UpKey)
    requires Caches(s) && Reconciling(cfg, s, u) && Next(cfg, s, s', step) && (step.ChangePod? || step.ChangeNode?)
    ensures Reconciling(cfg, s', u)
  {
    hide Fresh;
    assert Managed(s'.view) == Managed(s.view);
    if !Fresh(s.view, cfg, s.c, u) {
      if k :| Feeds(s.view, k, u) && Awaited(s, k) {
        AwaitedPersists(cfg, s, s', step, k);
        assert Feeds(s'.view, k, u);
      } else {
        var k :| Leaving(s, k, u);
        assert Leaving(s', k, u);
      }
    } else if svc :| svc in Feeding(s.view, u) && !SameInputs(s.view, s'.view, svc) {
      assert Feeds(s'.view, svc.key, u) && Touches(s, s', step, svc.key);
      TouchedAwaited(cfg, s, s', step, svc.key);
    } else {
      assert Feeding(s'.view, u) == Feeding(s.view, u);
      VerdictCongruent(s.view, s'.view, cfg, u);
    }
  }

  lemma FeedingUnchanged(v: View, k: Key, after: Option<RawService>, u: UpKey)
    requires !Feeds(v, k, u) && !Feeds(v.(services := Replaced(v.services, k, after)), k, u)
    ensures Feeding(v.(services := Replaced(v.services, k, after)), u) == Feeding(v, u)
  {
    var v' := v.(services := Replaced(v.services, k, after));
    ManagedChange(v, k, after);
    forall s ensures s in Feeding(v', u) <==> s in Feeding(v, u) {
      assert s.key != k ==> Lookup(Managed(v'), s.key) == Lookup(Managed(v), s.key);
    }
  }

  /** A service that is awaited or leaving is so after a change to another one. */
  lemma {:induction false} TracedStays(cfg: Config, s: State, s': State, step: Step, u: UpKey)
    requires Caches(s) && Next(cfg, s, s', step) && step.ChangeService? && Traced(s, step.service, u)
    ensures Dirty(s', u)
  {
    var k := step.service;
    ManagedChange(s.view, k, step.rawAfter);
    if j :| j != k && Feeds(s.view, j, u) && Awaited(s, j) {
      assert Lookup(Managed(s'.view), j) == Lookup(Managed(s.view), j);
      AwaitedPersists(cfg, s, s', step, j);
      assert Feeds(s'.view, j, u);
    } else {
      var j :| j != k && Leaving(s, j, u);
      assert Lookup(Managed(s'.view), j) == Lookup(Managed(s.view), j);
      assert Leaving(s', j, u);
    }
  }

  /** The upstream stays fresh or dirty when the change does not lose a service there, or the controller can still trace
      it. */
  lemma ReconcilingAfterService(cfg: Config, s: State, s': State, step: Step, u: UpKey)
    requires Caches(s) && Reconciling(cfg, s, u) && Next(cfg, s, s', step) && step.ChangeService?
    requires Lost(s, s', step.service, u) ==> Traced(s, step.service, u)
    ensures Reconciling(cfg, s', u)
  {
    hide Fresh;
    var k := step.service;
    if Feeds(s'.view, k, u) {
      TouchedAwaited(cfg, s, s', step, k);
    } else if Leaving(s', k, u) {
    } else if Traced(s, k, u) {
      TracedStays(cfg, s, s', step, u);
    } else {
      FeedingUnchanged(s.view, k, step.rawAfter, u);
      SamePodsAndNodes(s.view, s'.view);
      VerdictCongruent(s.view, s'.view, cfg, u);
    }
  }

  lemma {:induction false} SamePodsAndNodes(v: View, v': View)
    requires v'.pods == v.pods && v'.nodes == v.nodes
    ensures forall s :: SameInputs(v, v', s)
  {
  }

  /** A change to another service makes no service awaited. */
  lemma AwaitedBefore(cfg: Config, s: State, s': State, step: Step, j: Key)
    requires Next(cfg, s, s', step) && step.ChangeService? && j != step.service
    requires j in Managed(s.view) && j in Managed(s'.view) && Awaited(s', j)
    ensures Awaited(s, j)
  {
    ManagedChange(s.view, step.service, step.rawAfter);
    assert Lookup(Managed(s'.view), j) == Lookup(Managed(s.view), j);
    var svc := Managed(s.view)[j];
    if i :| 0 <= i < |s'.svcEvents| && s'.svcEvents[i].service.key == j {
      assert i < |s.svcEvents| && s.svcEvents[i].service.key == j;
    } else if i :| WokenByPod(s', svc, i) {
      assert WokenByPod(s, svc, i);
    } else if i, p :| WokenByNode(s', svc, i, p) {
      assert WokenByNode(s, svc, i, p);
    }
  }

  lemma {:induction false} DirtyBefore(cfg: Config, s: State, s': State, step: Step, u: UpKey)
    requires Next(cfg, s, s', step) && step.ChangeService? && Dirty(s', u)
    requires !Feeds(s'.view, step.service, u) && !Leaving(s', step.service, u)
    ensures Traced(s, step.service, u)
  {
    ManagedChange(s.view, step.service, step.rawAfter);
    if j :| Feeds(s'.view, j, u) && Awaited(s', j) {
      assert Lookup(Managed(s'.view), j) == Lookup(Managed(s.view), j);
      AwaitedBefore(cfg, s, s', step, j);
      assert j != step.service && Feeds(s.view, j, u);
    } else {
      var j :| Leaving(s', j, u);
      assert Lookup(Managed(s'.view), j) == Lookup(Managed(s.view), j);
      assert j != step.service && Leaving(s, j, u);
    }
  }

  /** Exactly when a change to a service keeps an upstream fresh or dirty: no service with a port or leaving is lost
      there, or the controller looks at it because of another one, or its servers hold by chance what is wanted without
      the service. */
  lemma {:induction false} ChangeReconcilesIff(cfg: Config, s: State, s': State, step: Step, u: UpKey)
    requires Caches(s) && Reconciling(cfg, s, u) && Next(cfg, s, s', step) && step.ChangeService?
    ensures Reconciling(cfg, s', u) <==>
      (Lost(s, s', step.service, u) ==> Traced(s, step.service, u) || Fresh(s'.view, cfg, s.c, u))
  {
    hide Fresh, Traced, Dirty;
    var k := step.service;
    if Lost(s, s', k, u) && !Fresh(s'.view, cfg, s.c, u) && Reconciling(cfg, s', u) {
      DirtyBefore(cfg, s, s', step, u);
    } else if Lost(s, s', k, u) ==> Traced(s, k, u) {
      ReconcilingAfterService(cfg, s, s', step, u);
    }
  }

  lemma {:induction false} ReconcilingKept(cfg: Config, s: State, s': State, step: Step, u: UpKey)
    requires Caches(s) && Reconciling(cfg, s, u) && Next(cfg, s, s', step) && Proper(u) && OrderlyStep(s, s', step, u)
    ensures Reconciling(cfg, s', u)
  {
    if step.ChangeService? { ReconcilingAfterService(cfg, s, s', step, u); }
    else if step.ChangePod? || step.ChangeNode? { ReconcilingAfterPodOrNode(cfg, s, s', step, u); }
    else if step.Work? { ReconcilingAfterWork(cfg, s, s', step, u); }
    else if step.Periodic? { ReconcilingAfterPeriodic(cfg, s, s', step, u); }
    else { ReconcilingAfterEvent(cfg, s, s', step, u); }
  }

  // ------------------------------------------------------------- departures

  lemma DeparturesAfterService(cfg: Config, s: State, s': State, step: Step)
    requires Departures(s) && Next(cfg, s, s', step) && step.ChangeService?
    ensures Departures(s')
  {
    ManagedChange(s.view, step.service, step.rawAfter);
    forall k, u | Leaving(s', k, u) ensures k in s'.c.queue || PendingService(s', k) {
      if Leaving(s, k, u) {
        if PendingService(s, k) {
          var i :| 0 <= i < |s.svcEvents| && s.svcEvents[i].service.key == k;
          assert s'.svcEvents[i].service.key == k;
        }
      } else {
        assert Targets(s.view, k, u);
        assert k == step.service || Lookup(Managed(s'.view), k) == Lookup(Managed(s.view), k);
        assert s'.svcEvents[|s.svcEvents|].service.key == k;
      }
    }
  }

  lemma {:induction false} HandledOthers(c: Ctl, e: ServiceEvent, k: Key)
    ensures k != e.service.key ==> Lookup(OnServiceEvent(c, e).lastKnown, k) == Lookup(c.lastKnown, k)
    ensures OnServiceEvent(c, e).queue == c.queue + {e.service.key}
  {
  }

  lemma {:induction false} LeavingHandled(cfg: Config, s: State, s': State, k: Key, u: UpKey)
    requires Departures(s) && Next(cfg, s, s', HandleService) && Leaving(s', k, u)
    ensures k in s'.c.queue || PendingService(s', k)
  {
    hide Managed, Target, Feeds, OnServiceEvent;
    HandledOthers(s.c, s.svcEvents[0], k);
    if k != s.svcEvents[0].service.key {
      assert Leaving(s, k, u);
      if PendingService(s, k) { PendingAfter(s, s', k); }
    }
  }

  lemma DeparturesHandled(cfg: Config, s: State, s': State)
    requires Departures(s) && Next(cfg, s, s', HandleService)
    ensures Departures(s')
  {
    hide Next, Leaving, PendingService;
    forall k, u | Leaving(s', k, u) ensures k in s'.c.queue || PendingService(s', k) {
      LeavingHandled(cfg, s, s', k, u);
    }
  }

  lemma DeparturesKept(cfg: Config, s: State, s': State, step: Step)
    requires Departures(s) && Next(cfg, s, s', step)
    ensures Departures(s')
  {
    match step
    case ChangeService(_, _) => DeparturesAfterService(cfg, s, s', step);
    case HandleService => DeparturesHandled(cfg, s, s');
    case Work(k, f, ok) =>
      ProcessFrame(Observed(s.view, f), cfg, k, s.c, ok, s'.c);
      forall j, u | Leaving(s', j, u) ensures j in s'.c.queue || PendingService(s', j) {
        assert Lookup(s'.c.lastKnown, j) == Lookup(s.c.lastKnown, j)
          || Lookup(s'.c.lastKnown, j) == Lookup(Managed(s.view), j);
        assert Leaving(s, j, u);
        if j == k && !ok { assert k in s.c.queue; }
        if PendingService(s, j) { assert PendingService(s', j); }
      }
    case Periodic(lb, f, ok, bad) =>
      forall j, u | Leaving(s', j, u) ensures j in s'.c.queue || PendingService(s', j) {
        assert Leaving(s, j, u);
        if PendingService(s, j) { assert PendingService(s', j); }
      }
    case _ =>
      assert Managed(s'.view) == Managed(s.view);
      forall j, u | Leaving(s', j, u) ensures j in s'.c.queue || PendingService(s', j) {
        assert Leaving(s, j, u);
        if PendingService(s, j) { assert PendingService(s', j); }
      }
  }

  // --------------------------------------------------------------- whole runs

  /** What is asked of one step for one upstream: a worker runs on a service due to leave it only while the others there
      have ports all or none, and a change loses a service with a port or leaving there only if the controller looks at
      it because of another one. */
  ghost predicate OrderlyStep(s: State, s': State, step: Step, u: UpKey) {
    && (step.Work? ==> PortsWhenLeft(s.view, step.key, s.c.lastKnown, u))
    && (step.ChangeService? && Lost(s, s', step.service, u) ==> Traced(s, step.service, u))
  }

  ghost predicate Orderly(run: seq<State>, steps: seq<Step>, i: nat, j: nat, u: UpKey)
    requires |run| == |steps| + 1 && i <= j <= |steps|
  {
    forall t :: i <= t < j ==> OrderlyStep(run[t], run[t + 1], steps[t], u)
  }

  lemma {:induction false} InitReconciling(cfg: Config, s: State, u: UpKey)
    requires Init(s) && Proper(u)
    ensures Reconciling(cfg, s, u) && Departures(s)
  {
    assert Sharing(s.view, u) == {};
  }

  lemma {:induction false} RunDepartures(cfg: Config, run: seq<State>, steps: seq<Step>, i: nat)
    requires Run(cfg, run, steps) && i < |run|
    ensures Departures(run[i])
  {
    if i == 0 {
      RunStart(cfg, run, steps);
    } else {
      hide Next, Departures, Init;
      RunDepartures(cfg, run, steps, i - 1);
      RunNext(cfg, run, steps, i - 1);
      DeparturesKept(cfg, run[i - 1], run[i], steps[i - 1]);
    }
  }

  lemma {:induction false} ReconcilingAt(cfg: Config, run: seq<State>, steps: seq<Step>, i: nat, u: UpKey)
    requires Run(cfg, run, steps) && i < |steps| && Reconciling(cfg, run[i], u) && Proper(u)
    requires OrderlyStep(run[i], run[i + 1], steps[i], u)
    ensures Reconciling(cfg, run[i + 1], u)
  {
    hide Next, Reconciling, OrderlyStep, Caches, Init;
    RunCaches(cfg, run, steps, i);
    RunNext(cfg, run, steps, i);
    ReconcilingKept(cfg, run[i], run[i + 1], steps[i], u);
  }

  lemma {:induction false} OrderlyBefore(run: seq<State>, steps: seq<Step>, i: nat, j: nat, u: UpKey)
    requires |run| == |steps| + 1 && i < j <= |steps| && Orderly(run, steps, i, j, u)
    ensures Orderly(run, steps, i, j - 1, u) && OrderlyStep(run[j - 1], run[j], steps[j - 1], u)
  {
    hide OrderlyStep;
    var t := j - 1;
    assert OrderlyStep(run[t], run[t + 1], steps[t], u);
  }

  /** One upstream, over the part of a run that is orderly for it. */
  lemma {:induction false} RunReconciling(cfg: Config, run: seq<State>, steps: seq<Step>, i: nat, j: nat, u: UpKey)
    requires Run(cfg, run, steps) && i <= j <= |steps| && Orderly(run, steps, i, j, u)
    requires Reconciling(cfg, run[i], u) && Proper(u)
    ensures Reconciling(cfg, run[j], u)
    decreases j
  {
    hide *;
    RunLength(cfg, run, steps);
    if i < j {
      OrderlyBefore(run, steps, i, j, u);
      RunReconciling(cfg, run, steps, i, j - 1, u);
      ReconcilingAt(cfg, run, steps, j - 1, u);
    }
  }

  /** Nothing left to handle or to retry. */
  ghost predicate Quiet(s: State) { s.svcEvents == [] && s.podEvents == [] && s.nodeEvents == [] && s.c.queue == {} }

  lemma {:induction false} QuietFresh(cfg: Config, s: State, u: UpKey)
    requires Reconciling(cfg, s, u) && Departures(s) && Quiet(s)
    ensures Fresh(s.view, cfg, s.c, u)
  {
    if k :| Targets(s.view, k, u) && Awaited(s, k) { AwaitedQueued(s, k); }
    assert forall k :: !Leaving(s, k, u);
  }

  /** Convergence, over every interleaving and with any lookups and requests failing on the way. Take any state in which
      the upstream is as wanted or on its way there, and a later one at which the run is at rest, the run in between
      being orderly for this upstream: then no pod of a service with a port is on an unknown node, and every server of
      the load balancer holds exactly what the cluster asks for. */
  lemma {:induction false} ConvergedSince(cfg: Config, run: seq<State>, steps: seq<Step>, i: nat, j: nat, u: UpKey)
    requires Run(cfg, run, steps) && i <= j <= |steps| && Orderly(run, steps, i, j, u) && Proper(u)
    requires Reconciling(cfg, run[i], u) && Quiet(run[j])
    ensures forall s :: s in Sharing(run[j].view, u) && s.nodePort != 0 ==> !NodeMissing(run[j].view, s)
    ensures
      match BulkVerdict(Clean(run[j].view), cfg, u)
      case Push(b) =>
        AllHold(LbAt(run[j].c.lbs, u), Wanted(b)) && u in run[j].c.upstreams && run[j].c.upstreams[u] == b
      case _ => true
  {
    RunReconciling(cfg, run, steps, i, j, u);
    RunDepartures(cfg, run, steps, j);
    QuietFresh(cfg, run[j], u);
    assert Fresh(run[j].view, cfg, run[j].c, u);
  }

  /** From the start of the run. */
  lemma {:induction false} ConvergedWhenQuiet(cfg: Config, run: seq<State>, steps: seq<Step>, j: nat, u: UpKey)
    requires Run(cfg, run, steps) && j <= |steps| && Orderly(run, steps, 0, j, u) && Proper(u) && Quiet(run[j])
    ensures Fresh(run[j].view, cfg, run[j].c, u)
  {
    RunStart(cfg, run, steps);
    InitReconciling(cfg, run[0], u);
    ConvergedSince(cfg, run, steps, 0, j, u);
  }

  /** From any periodic run on the load balancer in which nothing failed for the upstream, whatever went on before. */
  lemma {:induction false} ConvergedSincePeriodic(cfg: Config, run: seq<State>, steps: seq<Step>, i: nat, j: nat,
      u: UpKey)
    requires Run(cfg, run, steps) && 0 < i <= j <= |steps| && Orderly(run, steps, i, j, u) && Proper(u) && Quiet(run[j])
    requires steps[i - 1].Periodic? && steps[i - 1].lb == u.lb && u.up !in steps[i - 1].bad
    requires steps[i - 1].faults.synced && !steps[i - 1].faults.list
    requires forall s :: s in Sharing(run[i].view, u) ==> !LookupFails(Observed(run[i].view, steps[i - 1].faults), s)
    ensures Fresh(run[j].view, cfg, run[j].c, u)
  {
    hide Orderly, LookupFails, PeriodicStep, Sharing, Init, Quiet, BulkVerdict, LbAt;
    RunNext(cfg, run, steps, i - 1);
    var step := steps[i - 1];
    PeriodicMakesFresh(Observed(run[i - 1].view, step.faults), cfg, step.lb, run[i - 1].c, step.ok, step.bad, run[i].c,
      u);
    ConvergedSince(cfg, run, steps, i, j, u);
  }
}

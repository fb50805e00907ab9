/** When the backends that departed services had on the load balancers are gone. */
module Drained {
  import opened Diff
  import opened Cluster
  import opened Steps
  import opened Runs
  import opened Reconciled
  import opened Remembered

  /** A service with a port asks for backends at the upstream, or one that left it is yet to be processed. */
  ghost predicate Accounted(v: View, lastKnown: map<Key, Service>, u: UpKey) {
    (exists k :: Feeds(v, k, u)) || (exists k :: Names(lastKnown, k, u) && !Targets(v, k, u))
  }

  ghost predicate HeldBy(v: View, lastKnown: map<Key, Service>, lbs: map<Place, Server>, u: UpKey) {
    !Bare(LbAt(lbs, u)) ==> Proper(u) && Accounted(v, lastKnown, u)
  }

  /** If some server holds backends for the upstream, it is accounted for. */
  ghost predicate Held(s: State, u: UpKey) { HeldBy(s.view, s.c.lastKnown, s.c.lbs, u) }

  // ------------------------------------------------- who fills an upstream

  lemma {:induction false} SyncFeeds(snap: Snapshot, cfg: Config, o: Service, c: Ctl, ok: bool, c': Ctl, u: UpKey)
    requires SyncStep(snap, cfg, o, c, ok, c') && o in Sharing(snap.view, Target(o))
    requires Bare(LbAt(c.lbs, u)) && !Bare(LbAt(c'.lbs, u))
    ensures Proper(u) && Feeds(snap.view, o.key, u)
  {
    hide Sharing, LbAt, Bare;
    SyncFrame(snap, cfg, o, c, ok, c');
    SharingTarget(snap.view, Target(o), o);
    if o.nodePort == 0 { SkipsUnported(snap, cfg, o, c, ok, c'); }
  }

  lemma {:induction false} LeaveFeeds(snap: Snapshot, cfg: Config, k: Key, last: Service, c: Ctl, ok: bool, c': Ctl,
      u: UpKey)
    requires LeaveStep(snap, cfg, k, last, c, ok, c') && !Bare(LbAt(c'.lbs, u))
    ensures !Bare(LbAt(c.lbs, u)) || (Proper(u) && exists j :: Feeds(snap.view, j, u))
    ensures ok && Target(last) == u && Proper(u) ==> Remaining(snap.view, k, u) != {}
  {
    hide SyncStep, PushStep, Feeds, LbAt, Bare;
    LeaveFrame(snap, cfg, k, last, c, ok, c');
    var w := Target(last);
    if Proper(w) && !snap.listFault && Remaining(snap.view, k, w) != {} {
      var o :| o in Remaining(snap.view, k, w) && SyncStep(snap, cfg, o, c, ok, c');
      SharingTarget(snap.view, w, o);
      if Bare(LbAt(c.lbs, u)) { SyncFeeds(snap, cfg, o, c, ok, c', u); }
    } else if Proper(w) && !snap.listFault {
      DrainFills(cfg, w, c.(upstreams := c.upstreams - {w}), ok, c', u);
    }
  }

  lemma {:induction false} ArriveFeeds(snap: Snapshot, cfg: Config, k: Key, m: Ctl, ok: bool, c': Ctl, u: UpKey)
    requires k in Managed(snap.view) && ArriveStep(snap, cfg, k, Managed(snap.view)[k], m, ok, c')
    ensures !Bare(LbAt(c'.lbs, u)) ==> !Bare(LbAt(m.lbs, u)) || (Proper(u) && exists j :: Feeds(snap.view, j, u))
    ensures Target(Managed(snap.view)[k]) != u ==> LbAt(c'.lbs, u) == LbAt(m.lbs, u)
    ensures c'.lastKnown == m.lastKnown[k := Managed(snap.view)[k]]
  {
    hide LbAt, Bare, SyncStep, Feeds;
    var s := Managed(snap.view)[k];
    var m' := m.(lastKnown := m.lastKnown[k := s], services := m.services[k := s]);
    SyncFrame(snap, cfg, s, m', ok, c');
    if Bare(LbAt(m.lbs, u)) && !Bare(LbAt(c'.lbs, u)) { SyncFeeds(snap, cfg, s, m', ok, c', u); }
  }

  // ------------------------------------------------------------ worker runs

  /** The condition for a worker run on `k`: if it is due to leave the upstream, nobody else targets it, or somebody
      with a port does. */
  ghost predicate AloneOrFed(v: View, k: Key, lastKnown: map<Key, Service>, u: UpKey) {
    Names(lastKnown, k, u) && !Targets(v, k, u) ==> Sharing(v, u) == {} || exists j :: Feeds(v, j, u)
  }

  /** What is left to show of a run where nobody with a port targets the upstream: it was not filled, and unless `k`
      left it, whoever was leaving it still is. */
  lemma {:induction false} StillLeaving(v: View, k: Key, lastKnown: map<Key, Service>, lastKnown': map<Key, Service>,
      u: UpKey)
    requires Accounted(v, lastKnown, u) && !exists j :: Feeds(v, j, u)
    requires forall j :: j != k ==> Lookup(lastKnown', j) == Lookup(lastKnown, j)
    requires Names(lastKnown, k, u) && !Targets(v, k, u) ==> Lookup(lastKnown', k) == Lookup(lastKnown, k)
    ensures Accounted(v, lastKnown', u)
  {
    hide Targets, Feeds;
    var j :| Names(lastKnown, j, u) && !Targets(v, j, u);
    assert Lookup(lastKnown', j) == Lookup(lastKnown, j);
    assert Names(lastKnown', j, u);
  }

  lemma {:induction false} GoneHeld(snap: Snapshot, cfg: Config, k: Key, c: Ctl, ok: bool, c': Ctl, u: UpKey)
    requires HeldBy(snap.view, c.lastKnown, c.lbs, u) && WorkerStep(snap, cfg, k, c, ok, c') && k !in Managed(snap.view)
    requires AloneOrFed(snap.view, k, c.lastKnown, u)
    ensures HeldBy(snap.view, c'.lastKnown, c'.lbs, u)
  {
    hide LeaveStep, LbAt, Bare, Feeds;
    WorkerFrame(snap, cfg, k, c, ok, c');
    if k in c.lastKnown && !Bare(LbAt(c'.lbs, u)) {
      if ok {
        var m :|
          LeaveStep(snap, cfg, k, c.lastKnown[k], c, true, m)
            && c' == m.(lastKnown := m.lastKnown - {k}, services := m.services - {k});
        LeaveFeeds(snap, cfg, k, c.lastKnown[k], c, true, m, u);
        if !exists j :: Feeds(snap.view, j, u) {
          RemainingAll(snap.view, k, u);
          StillLeaving(snap.view, k, c.lastKnown, c'.lastKnown, u);
        }
      } else {
        LeaveFrame(snap, cfg, k, c.lastKnown[k], c, false, c');
        LeaveFeeds(snap, cfg, k, c.lastKnown[k], c, false, c', u);
        if !exists j :: Feeds(snap.view, j, u) { StillLeaving(snap.view, k, c.lastKnown, c'.lastKnown, u); }
      }
    }
  }

  lemma {:induction false} MovedHeld(snap: Snapshot, cfg: Config, k: Key, c: Ctl, m: Ctl, ok: bool, c': Ctl, u: UpKey)
    requires HeldBy(snap.view, c.lastKnown, c.lbs, u) && k in Managed(snap.view) && k in c.lastKnown
    requires Relabelled(c.lastKnown[k], Managed(snap.view)[k]) && AloneOrFed(snap.view, k, c.lastKnown, u)
    requires LeaveStep(snap, cfg, k, c.lastKnown[k], c, true, m)
      && ArriveStep(snap, cfg, k, Managed(snap.view)[k], m, ok, c')
    ensures HeldBy(snap.view, c'.lastKnown, c'.lbs, u)
  {
    hide LeaveStep, ArriveStep, LbAt, Bare, Feeds;
    LeaveFrame(snap, cfg, k, c.lastKnown[k], c, true, m);
    ArriveFeeds(snap, cfg, k, m, ok, c', u);
    if !Bare(LbAt(c'.lbs, u)) && !Bare(LbAt(m.lbs, u)) {
      LeaveFeeds(snap, cfg, k, c.lastKnown[k], c, true, m, u);
      if !exists j :: Feeds(snap.view, j, u) {
        if Names(c.lastKnown, k, u) && !Targets(snap.view, k, u) { RemainingAll(snap.view, k, u); }
        StillLeaving(snap.view, k, c.lastKnown, c'.lastKnown, u);
      }
    }
  }

  lemma {:induction false} ArrivedHeld(snap: Snapshot, cfg: Config, k: Key, c: Ctl, ok: bool, c': Ctl, u: UpKey)
    requires HeldBy(snap.view, c.lastKnown, c.lbs, u) && k in Managed(snap.view)
    requires ArriveStep(snap, cfg, k, Managed(snap.view)[k], c, ok, c')
    requires !(k in c.lastKnown && Relabelled(c.lastKnown[k], Managed(snap.view)[k]))
    ensures HeldBy(snap.view, c'.lastKnown, c'.lbs, u)
  {
    hide ArriveStep, LbAt, Bare, Feeds;
    ArriveFeeds(snap, cfg, k, c, ok, c', u);
    if !Bare(LbAt(c'.lbs, u)) && !Bare(LbAt(c.lbs, u)) && !exists j :: Feeds(snap.view, j, u) {
      StillLeaving(snap.view, k, c.lastKnown, c'.lastKnown, u);
    }
  }

  lemma {:induction false} WorkHeld(snap: Snapshot, cfg: Config, k: Key, c: Ctl, ok: bool, c': Ctl, u: UpKey)
    requires HeldBy(snap.view, c.lastKnown, c.lbs, u) && WorkerStep(snap, cfg, k, c, ok, c')
    requires AloneOrFed(snap.view, k, c.lastKnown, u)
    ensures HeldBy(snap.view, c'.lastKnown, c'.lbs, u)
  {
    hide LeaveStep, ArriveStep, AloneOrFed, Bare, LbAt, Accounted;
    if k !in Managed(snap.view) {
      GoneHeld(snap, cfg, k, c, ok, c', u);
    } else {
      var s := Managed(snap.view)[k];
      if k in c.lastKnown && Relabelled(c.lastKnown[k], s) {
        if !ok && LeaveStep(snap, cfg, k, c.lastKnown[k], c, false, c') {
          LeaveHeld(snap, cfg, k, c, c', u);
        } else {
          var m :|
            LeaveStep(snap, cfg, k, c.lastKnown[k], c, true, m) && ArriveStep(snap, cfg, k, s, m, ok, c');
          MovedHeld(snap, cfg, k, c, m, ok, c', u);
        }
      } else {
        ArrivedHeld(snap, cfg, k, c, ok, c', u);
      }
    }
  }

  lemma {:induction false} LeaveHeld(snap: Snapshot, cfg: Config, k: Key, c: Ctl, c': Ctl, u: UpKey)
    requires HeldBy(snap.view, c.lastKnown, c.lbs, u) && k in c.lastKnown
    requires LeaveStep(snap, cfg, k, c.lastKnown[k], c, false, c')
    ensures HeldBy(snap.view, c'.lastKnown, c'.lbs, u)
  {
    hide LeaveStep, Bare, LbAt, Feeds;
    LeaveFrame(snap, cfg, k, c.lastKnown[k], c, false, c');
    if !Bare(LbAt(c'.lbs, u)) { LeaveFeeds(snap, cfg, k, c.lastKnown[k], c, false, c', u); }
  }

  // ------------------------------------------------------- the other steps

  lemma {:induction false} PeriodicHeld(snap: Snapshot, cfg: Config, lb: string, c: Ctl, ok: bool, bad: set<string>,
      c': Ctl, u: UpKey)
    requires HeldBy(snap.view, c.lastKnown, c.lbs, u) && PeriodicStep(snap, cfg, lb, c, ok, bad, c')
    ensures HeldBy(snap.view, c'.lastKnown, c'.lbs, u)
  {
    hide Demand, LookupFails, Settle, LbAt;
    if !Bare(LbAt(c'.lbs, u)) {
      if Bare(LbAt(c.lbs, u)) {
        assert u.lb == lb
          && BulkOutcome(LbAt(c.lbs, u), BulkVerdict(snap, cfg, u), Prunes(cfg, lb), ok, u.up !in bad, LbAt(c'.lbs, u));
        assert BulkVerdict(snap, cfg, u).Push?;
        var s :| s in Sharing(snap.view, u) && s.nodePort != 0;
        assert Feeds(snap.view, s.key, u);
      } else {
        AccountedGrows(snap.view, c.lastKnown, c'.lastKnown, u);
      }
    }
  }

  lemma {:induction false} AccountedGrows(v: View, lastKnown: map<Key, Service>, lastKnown': map<Key, Service>,
      u: UpKey)
    requires Accounted(v, lastKnown, u)
    requires forall k :: k in lastKnown ==> k in lastKnown' && lastKnown'[k] == lastKnown[k]
    ensures Accounted(v, lastKnown', u)
  {
    hide Feeds, Targets;
    if !exists k :: Feeds(v, k, u) {
      var k :| Names(lastKnown, k, u) && !Targets(v, k, u);
      assert Names(lastKnown', k, u);
    }
  }

  lemma {:induction false} QuietlyHeld(cfg: Config, s: State, s': State, step: Step, u: UpKey)
    requires Held(s, u) && Next(cfg, s, s', step) && !step.ChangeService? && !step.Work? && !step.Periodic?
    ensures Held(s', u)
  {
    hide Bare, LbAt;
    assert Managed(s'.view) == Managed(s.view);
    if step.HandleService? || step.HandlePod? || step.HandleNode? { EventFrame(cfg, s, s', step); }
    forall k | k in s.c.lastKnown ensures k in s'.c.lastKnown && s'.c.lastKnown[k] == s.c.lastKnown[k] {
      assert Lookup(s'.c.lastKnown, k) == Lookup(s.c.lastKnown, k);
    }
    if !Bare(LbAt(s.c.lbs, u)) { AccountedGrows(s.view, s.c.lastKnown, s'.c.lastKnown, u); }
    SameAccounts(s.view, s'.view, s'.c.lastKnown, u);
  }

  lemma {:induction false} SameAccounts(v: View, v': View, lastKnown: map<Key, Service>, u: UpKey)
    requires Managed(v') == Managed(v)
    ensures Accounted(v', lastKnown, u) <==> Accounted(v, lastKnown, u)
  {
    hide Managed;
    assert forall k :: Feeds(v', k, u) <==> Feeds(v, k, u);
    assert forall k :: Targets(v', k, u) <==> Targets(v, k, u);
  }

  /** Another service with a port asks for backends at the upstream, or another one is leaving it. */
  ghost predicate OtherAccounts(s: State, k: Key, u: UpKey) {
    (exists j :: j != k && Feeds(s.view, j, u)) || (exists j :: j != k && Leaving(s, j, u))
  }

  /** Exactly when a change to a service keeps an upstream accounted for: it is empty, or no service with a port or
      leaving is lost there, or another such service exists. */
  lemma {:induction false} ChangeHeldIff(cfg: Config, s: State, s': State, step: Step, u: UpKey)
    requires Held(s, u) && Next(cfg, s, s', step) && step.ChangeService?
    ensures Held(s', u) <==>
      (!Bare(LbAt(s.c.lbs, u)) && Lost(s, s', step.service, u) ==> OtherAccounts(s, step.service, u))
  {
    hide Bare, LbAt, Feeds, Accounted, Leaving;
    var k := step.service;
    OthersSame(cfg, s, s', step, u);
    AccountedIs(s, u);
    AccountedIs(s', u);
    if OtherAccounts(s, k, u) {
      if j :| j != k && Feeds(s.view, j, u) { assert Feeds(s'.view, j, u); } else {
        var j :| j != k && Leaving(s, j, u);
        assert Leaving(s', j, u);
      }
    }
    if !Bare(LbAt(s.c.lbs, u)) && !Feeds(s'.view, k, u) && !Leaving(s', k, u) && Held(s', u) {
      if j :| Feeds(s'.view, j, u) { assert j != k && Feeds(s.view, j, u); } else {
        var j :| Leaving(s', j, u);
        assert j != k && Leaving(s, j, u);
      }
    }
  }

  lemma {:induction false} AccountedIs(s: State, u: UpKey)
    ensures Accounted(s.view, s.c.lastKnown, u) <==> (exists k :: Feeds(s.view, k, u)) || exists k :: Leaving(s, k, u)
  {
    hide Feeds, Targets, Names;
    if k :| Names(s.c.lastKnown, k, u) && !Targets(s.view, k, u) { assert Leaving(s, k, u); }
    if k :| Leaving(s, k, u) { assert Names(s.c.lastKnown, k, u) && !Targets(s.view, k, u); }
  }

  lemma {:induction false} OthersSame(cfg: Config, s: State, s': State, step: Step, u: UpKey)
    requires Next(cfg, s, s', step) && step.ChangeService?
    ensures s'.c == s.c
    ensures forall j :: j != step.service ==>
      (Feeds(s'.view, j, u) <==> Feeds(s.view, j, u)) && (Leaving(s', j, u) <==> Leaving(s, j, u))
  {
    ManagedChange(s.view, step.service, step.rawAfter);
    hide Managed;
    forall j | j != step.service
      ensures (Feeds(s'.view, j, u) <==> Feeds(s.view, j, u)) && (Leaving(s', j, u) <==> Leaving(s, j, u))
    {
      assert Lookup(Managed(s'.view), j) == Lookup(Managed(s.view), j);
    }
  }

  /** Exactly when every successful departure either empties the upstream or leaves it to a service with a port: nobody
      else targets it, or somebody with a port does, or it was empty before. */
  lemma {:induction false} DepartureDrainsIff(snap: Snapshot, cfg: Config, k: Key, last: Service, c: Ctl)
    requires Proper(Target(last)) && !Targets(snap.view, k, Target(last))
    requires !snap.listFault && forall o :: o in Remaining(snap.view, k, Target(last)) ==> !PodsFail(snap, o)
    ensures
      var u := Target(last);
      (forall c' :: LeaveStep(snap, cfg, k, last, c, true, c') ==>
          Bare(LbAt(c'.lbs, u)) || exists j :: Feeds(snap.view, j, u)) <==>
        Remaining(snap.view, k, u) == {} || (exists j :: Feeds(snap.view, j, u)) || Bare(LbAt(c.lbs, u))
  {
    hide LeaveStep, LbAt, Bare, PodsFail;
    var v, u := snap.view, Target(last);
    RemainingAll(v, k, u);
    if Remaining(v, k, u) == {} || (exists j :: Feeds(v, j, u)) || Bare(LbAt(c.lbs, u)) {
      forall c' | LeaveStep(snap, cfg, k, last, c, true, c')
        ensures Bare(LbAt(c'.lbs, u)) || exists j :: Feeds(v, j, u) {
        if !Bare(LbAt(c'.lbs, u)) { LeaveFeeds(snap, cfg, k, last, c, true, c', u); }
      }
    } else {
      var o :| o in Remaining(v, k, u);
      SharingTarget(v, u, o);
      assert !Feeds(v, o.key, u);
      PortlessLeaves(snap, cfg, k, last, c, o);
    }
  }

  // --------------------------------------------------------------- whole runs

  /** What is asked of one step for one upstream: a worker runs on a service due to leave it only if nobody else targets
      it or somebody with a port does, and a change loses a service with a port or leaving there only if there is
      another such service. */
  ghost predicate AccountedStep(s: State, s': State, step: Step, u: UpKey) {
    && (step.Work? ==> AloneOrFed(s.view, step.key, s.c.lastKnown, u))
    && (step.ChangeService? && Lost(s, s', step.service, u) ==> OtherAccounts(s, step.service, u))
  }

  ghost predicate AccountedRun(run: seq<State>, steps: seq<Step>, i: nat, j: nat, u: UpKey)
    requires |run| == |steps| + 1 && i <= j <= |steps|
  {
    forall t :: i <= t < j ==> AccountedStep(run[t], run[t + 1], steps[t], u)
  }

  lemma {:induction false} HeldKept(cfg: Config, s: State, s': State, step: Step, u: UpKey)
    requires Held(s, u) && Next(cfg, s, s', step) && AccountedStep(s, s', step, u)
    ensures Held(s', u)
  {
    match step
    case ChangeService(_, _) => ChangeHeldIff(cfg, s, s', step, u);
    case Work(k, f, ok) => WorkStepHeld(cfg, s, s', k, f, ok, u);
    case Periodic(lb, f, ok, bad) =>
      hide PeriodicStep, HeldBy;
      PeriodicHeld(Observed(s.view, f), cfg, lb, s.c, ok, bad, s'.c, u);
    case _ => QuietlyHeld(cfg, s, s', step, u);
  }

  lemma {:induction false} WorkStepHeld(cfg: Config, s: State, s': State, k: Key, f: Faults, ok: bool, u: UpKey)
    requires Held(s, u) && Next(cfg, s, s', Work(k, f, ok)) && AloneOrFed(s.view, k, s.c.lastKnown, u)
    ensures Held(s', u)
  {
    hide WorkerStep, HeldBy, AloneOrFed;
    var snap, c := Observed(s.view, f), s.c.(queue := s.c.queue - {k});
    var m :| WorkerStep(snap, cfg, k, c, ok, m) && s'.c == if ok then m else m.(queue := m.queue + {k});
    WorkHeld(snap, cfg, k, c, ok, m, u);
  }

  lemma {:induction false} HeldAt(cfg: Config, run: seq<State>, steps: seq<Step>, i: nat, u: UpKey)
    requires Run(cfg, run, steps) && i < |steps|
    requires Held(run[i], u) && AccountedStep(run[i], run[i + 1], steps[i], u)
    ensures Held(run[i + 1], u)
  {
    hide Next, Held, AccountedStep, Init;
    RunNext(cfg, run, steps, i);
    HeldKept(cfg, run[i], run[i + 1], steps[i], u);
  }

  lemma {:induction false} AccountedBefore(run: seq<State>, steps: seq<Step>, i: nat, j: nat, u: UpKey)
    requires |run| == |steps| + 1 && i < j <= |steps| && AccountedRun(run, steps, i, j, u)
    ensures AccountedRun(run, steps, i, j - 1, u) && AccountedStep(run[j - 1], run[j], steps[j - 1], u)
  {
    hide AccountedStep;
    var t := j - 1;
    assert AccountedStep(run[t], run[t + 1], steps[t], u);
  }

  lemma {:induction false} RunHeld(cfg: Config, run: seq<State>, steps: seq<Step>, i: nat, j: nat, u: UpKey)
    requires Run(cfg, run, steps) && i <= j <= |steps| && AccountedRun(run, steps, i, j, u) && Held(run[i], u)
    ensures Held(run[j], u)
    decreases j
  {
    hide *;
    RunLength(cfg, run, steps);
    if i < j {
      AccountedBefore(run, steps, i, j, u);
      RunHeld(cfg, run, steps, i, j - 1, u);
      HeldAt(cfg, run, steps, j - 1, u);
    }
  }

  lemma {:induction false} QuietFed(s: State, u: UpKey)
    requires Held(s, u) && Departures(s) && Quiet(s) && !Bare(LbAt(s.c.lbs, u))
    ensures exists k :: Feeds(s.view, k, u)
  {
    hide Bare, LbAt;
    AccountedIs(s, u);
    forall k ensures !Leaving(s, k, u) {}
  }

  /** At rest every backend on a load balancer belongs to an upstream that some service with a port targets: all that
      departed services had there is drained or handed over, whatever failed on the way. */
  lemma {:induction false} DrainedWhenQuiet(cfg: Config, run: seq<State>, steps: seq<Step>, i: nat, j: nat, u: UpKey)
    requires Run(cfg, run, steps) && i <= j <= |steps| && AccountedRun(run, steps, i, j, u) && Held(run[i], u)
    requires Quiet(run[j]) && !Bare(LbAt(run[j].c.lbs, u))
    ensures exists k :: Feeds(run[j].view, k, u)
  {
    RunHeld(cfg, run, steps, i, j, u);
    RunDepartures(cfg, run, steps, j);
    QuietFed(run[j], u);
  }
}

/** The load balancers of the controller's steps are the servers behind NGINX adapters: what the adapter proves of each
    server is what the steps say of all of them. */
module AdapterContract {
  import opened Backends
  import opened Diff
  import opened Convergence
  import opened Nginx
  import opened NginxAdapter
  import opened Cluster
  import opened Steps

  /** What a finished desired state says of an upstream. */
  ghost function VerdictOf(desired: map<string, DesiredUpstream>, lb: string, u: UpKey): Verdict {
    if u.lb != lb then Keep
    else if u.up !in desired then Skip
    else if desired[u.up].preserve then Keep
    else Push(desired[u.up].backends)
  }

  /** `SyncUpstream` at all servers of one load balancer moves the one upstream there, and nothing else anywhere. */
  lemma {:induction false} SyncMeetsStep(lbs: map<Place, Server>, lbs': map<Place, Server>, failed: bool, u: UpKey,
      backends: seq<Backend>)
    requires lbs'.Keys == lbs.Keys
    requires forall p :: p in lbs && p.lb != u.lb ==> lbs'[p] == lbs[p]
    requires forall p :: p in lbs && p.lb == u.lb ==>
      ServerSynced(lbs[p], lbs'[p], true, !failed, u.up, Wanted(backends))
    ensures Reached(LbAt(lbs, u), Wanted(backends), !failed, LbAt(lbs', u))
    ensures forall w :: w != u ==> LbAt(lbs', w) == LbAt(lbs, w)
  {
    hide Wanted, ContentOf;
    forall w | w != u ensures LbAt(lbs', w) == LbAt(lbs, w) {
      assert LbAt(lbs', w).Keys == LbAt(lbs, w).Keys;
      forall p | p in LbAt(lbs, w) ensures LbAt(lbs', w)[p] == LbAt(lbs, w)[p] {
        if p.lb == u.lb { assert At(lbs'[p], w.up) == At(lbs[p], w.up); }
      }
    }
  }

  ghost predicate AllSynced(lbs: map<Place, Server>, lb: string, desired: map<string, DesiredUpstream>, prune: bool,
      ok: bool, bad: set<string>, lbs': map<Place, Server>)
  {
    forall u: UpKey :: if u.lb == lb && u.up != "" then
        BulkOutcome(LbAt(lbs, u), VerdictOf(desired, lb, u), prune, ok, u.up !in bad, LbAt(lbs', u))
      else LbAt(lbs', u) == LbAt(lbs, u)
  }

  /** `SyncAllUpstreams` at all servers of one load balancer does to every upstream there what the desired state
      says. */
  lemma {:induction false} SyncAllMeetsStep(lbs: map<Place, Server>, lbs': map<Place, Server>, failed: bool,
      bad: set<string>, lb: string, dus: map<string, DesiredUpstream>, prune: bool)
    requires lbs'.Keys == lbs.Keys && "" !in dus
    requires forall p :: p in lbs ==> Tidy(lbs[p])
    requires forall p :: p in lbs && p.lb != lb ==> lbs'[p] == lbs[p]
    requires forall p :: p in lbs && p.lb == lb ==>
      Guarded(lbs[p], lbs'[p], dus, prune, bad) && (!failed ==> Partitioned(lbs[p], lbs'[p], dus, prune))
    ensures AllSynced(lbs, lb, dus, prune, !failed, bad, lbs')
  {
    forall u: UpKey ensures if u.lb == lb && u.up != "" then
        BulkOutcome(LbAt(lbs, u), VerdictOf(dus, lb, u), prune, !failed, u.up !in bad, LbAt(lbs', u))
      else LbAt(lbs', u) == LbAt(lbs, u)
    {
      SyncAllMeetsAt(lbs, lbs', failed, bad, lb, dus, prune, u);
    }
  }

  lemma {:induction false} SyncAllMeetsAt(lbs: map<Place, Server>, lbs': map<Place, Server>, failed: bool,
      bad: set<string>, lb: string, dus: map<string, DesiredUpstream>, prune: bool, u: UpKey)
    requires lbs'.Keys == lbs.Keys && "" !in dus
    requires forall p :: p in lbs ==> Tidy(lbs[p])
    requires forall p :: p in lbs && p.lb != lb ==> lbs'[p] == lbs[p]
    requires forall p :: p in lbs && p.lb == lb ==>
      Guarded(lbs[p], lbs'[p], dus, prune, bad) && (!failed ==> Partitioned(lbs[p], lbs'[p], dus, prune))
    ensures if u.lb == lb && u.up != "" then
        BulkOutcome(LbAt(lbs, u), VerdictOf(dus, lb, u), prune, !failed, u.up !in bad, LbAt(lbs', u))
      else LbAt(lbs', u) == LbAt(lbs, u)
  {
    assert LbAt(lbs', u).Keys == LbAt(lbs, u).Keys;
    forall p | p in lbs && p.lb == u.lb == lb
      ensures !failed && u.up !in dus && prune ==> C(lbs'[p], u.up) == map[]
      ensures u.up == "" ==> C(lbs'[p], u.up) == C(lbs[p], u.up)
    {
      EmptyContent(At(lbs'[p], u.up));
      EmptyContent(At(lbs[p], u.up));
    }
  }
}

/** Any sequence of adapter calls: the cache is never seen from outside. */
module CachedRuns {
  import opened Backends
  import opened Diff
  import opened Nginx
  import opened NginxAdapter

  datatype Call =
    | SyncCall(name: string, backends: seq<Backend>, now: int)
    | SyncAllCall(dus: map<string, DesiredUpstream>, now: int)

  predicate Callable(c: Call) {
    match c
    case SyncCall(name, _, _) => name != ""
    case SyncAllCall(dus, _) => "" !in dus
  }

  /** What the environment chose during a call: the order of a map range, and which requests failed. */
  datatype Fate =
    | SyncFate(runs: seq<ClientRun>)
    | SyncAllFate(order: seq<string>, runss: seq<seq<ClientRun>>, pruned: seq<ClientRun>)

  ghost predicate Fits(c: Call, f: Fate) {
    match c
    case SyncCall(_, _, _) => f.SyncFate?
    case SyncAllCall(dus, _) => f.SyncAllFate? && |f.order| == |dus| && forall n :: n in f.order <==> n in dus
  }

  /** One call of an adapter that lists the server anew every time. */
  ghost function Relisting(w: World, urls: seq<string>, prune: bool, c: Call, f: Fate): (w': World)
    requires Known(w, urls) && Fits(c, f)
    ensures w'.servers.Keys == w.servers.Keys
  {
    match c
    case SyncCall(name, backends, _) => SyncEach(w, urls, name, Desired(backends), f.runs)
    case SyncAllCall(dus, _) =>
      var w' := SyncMany(w, urls, dus, f.order, f.runss);
      if prune then PruneEach(w', urls, dus.Keys, f.pruned) else w'
  }

  ghost predicate AllFit(calls: seq<Call>, fates: seq<Fate>) {
    |calls| == |fates| && forall i :: 0 <= i < |calls| ==> Fits(calls[i], fates[i])
  }

  ghost function RelistingAll(w: World, urls: seq<string>, prune: bool, calls: seq<Call>, fates: seq<Fate>): (w': World)
    requires Known(w, urls) && AllFit(calls, fates)
    ensures w'.servers.Keys == w.servers.Keys
  {
    if calls == [] then w
    else
      var n := |calls| - 1;
      Relisting(RelistingAll(w, urls, prune, calls[..n], fates[..n]), urls, prune, calls[n], fates[n])
  }

  lemma {:induction false} RelistingNext(w: World, urls: seq<string>, prune: bool, calls: seq<Call>, fates: seq<Fate>,
      c: Call, f: Fate)
    requires Known(w, urls) && AllFit(calls, fates) && Fits(c, f)
    ensures AllFit(calls + [c], fates + [f])
    ensures RelistingAll(w, urls, prune, calls + [c], fates + [f]) ==
      Relisting(RelistingAll(w, urls, prune, calls, fates), urls, prune, c, f)
  {
    var cs, fs := calls + [c], fates + [f];
    assert AllFit(cs, fs);
    assert cs[..|cs| - 1] == calls && fs[..|fs| - 1] == fates;
  }

  method Call1(a: Adapter, c: Call) returns (ghost f: Fate)
    requires a.Valid() && Callable(c)
    modifies a, a.fleet
    ensures a.Valid() && Fits(c, f)
    ensures a.fleet.Seen() == Relisting(old(a.fleet.Seen()), a.clients, a.pruneOrphans, c, f)
  {
    match c
    case SyncCall(name, backends, now) =>
      var _, runs := a.SyncUpstream(name, backends, now);
      f := SyncFate(runs);
    case SyncAllCall(dus, now) =>
      var _, order, runss, pruned, _ := a.SyncAllUpstreams(dus, now);
      f := SyncAllFate(order, runss, pruned);
  }

  /** However the calls are mixed and whatever the clock reads, the servers end with the content, and have received the
      requests, that an adapter without a cache would have left and sent. */
  method CallAll(a: Adapter, calls: seq<Call>) returns (ghost fates: seq<Fate>)
    requires a.Valid() && forall i :: 0 <= i < |calls| ==> Callable(calls[i])
    modifies a, a.fleet
    ensures a.Valid() && AllFit(calls, fates)
    ensures a.fleet.Seen() == RelistingAll(old(a.fleet.Seen()), a.clients, a.pruneOrphans, calls, fates)
  {
    fates := [];
    ghost var w := a.fleet.Seen();
    for i := 0 to |calls|
      invariant a.Valid() && AllFit(calls[..i], fates)
      invariant a.fleet.Seen() == RelistingAll(w, a.clients, a.pruneOrphans, calls[..i], fates)
    {
      ghost var f := Call1(a, calls[i]);
      RelistingNext(w, a.clients, a.pruneOrphans, calls[..i], fates, calls[i], f);
      assert calls[..i + 1] == calls[..i] + [calls[i]];
      fates := fates + [f];
    }
    assert calls[..|calls|] == calls;
  }
}

/** The adapter's own code: aggregation, cached listings, the diff, and pruning. */
module NginxAdapter {
  import opened Text
  import opened Sorting
  import opened Backends
  import opened Diff
  import opened Convergence
  import opened Nginx

  /** In milliseconds. */
  const CACHE_TTL := 2000

  method AddDesired(d: map<string, Backend>, db: Backend) returns (r: map<string, Backend>)
    ensures r == WithDesired(d, db)
  {
    var weightToAdd := db.weight;
    if weightToAdd < 1 { weightToAdd := 1; }
    var key := BackendKey(db);
    if key in d {
      var tmpdb := d[key];
      r := d[key := tmpdb.(weight := tmpdb.weight + weightToAdd)];
    } else {
      r := d[key := db.(weight := weightToAdd)];
    }
  }

  method Aggregate(backends: seq<Backend>) returns (d: map<string, Backend>)
    ensures d == Desired(backends)
  {
    d := map[];
    for i := 0 to |backends|
      invariant d == Desired(backends[..i])
    {
      d := AddDesired(d, backends[i]);
      DesiredNext(backends, i);
    }
    assert backends[..|backends|] == backends;
  }

  lemma {:induction false} DesiredNext(bs: seq<Backend>, i: nat)
    requires i < |bs|
    ensures Desired(bs[..i + 1]) == WithDesired(Desired(bs[..i]), bs[i])
  {
    assert bs[..i + 1][..i] == bs[..i];
  }

  lemma {:induction false} SameIs(current: seq<Backend>, db: Backend, i: nat)
    requires Unique(current) && i < |current| && SameBackend(db, current[i])
    ensures BackendKey(db) in ContentOf(current) && ContentOf(current)[BackendKey(db)] == current[i].weight
  {
    ContentMembers(current);
    SameIffKey(db, current[i]);
  }

  lemma {:induction false} NoneSame(current: seq<Backend>, db: Backend)
    requires forall j :: 0 <= j < |current| ==> !SameBackend(db, current[j])
    ensures BackendKey(db) !in ContentOf(current)
  {
    ContentKeys(current);
    forall b | b in current ensures BackendKey(b) != BackendKey(db) {
      SameIffKey(db, b);
    }
  }

  predicate FirstSame(current: seq<Backend>, db: Backend, i: nat)
    requires i < |current|
  {
    SameBackend(db, current[i]) && forall j :: 0 <= j < i ==> !SameBackend(db, current[j])
  }

  /** First current backend that is the same as `db`. */
  method FindSame(current: seq<Backend>, db: Backend) returns (r: Option<Backend>)
    requires Unique(current)
    ensures r.None? <==> BackendKey(db) !in ContentOf(current)
    ensures r.Some? ==> ContentOf(current)[BackendKey(db)] == r.value.weight
    ensures r.Some? ==> exists i: nat :: i < |current| && FirstSame(current, db, i) && r.value == current[i]
  {
    hide BackendKey;
    for i := 0 to |current|
      invariant forall j :: 0 <= j < i ==> !SameBackend(db, current[j])
    {
      if SameBackend(db, current[i]) {
        SameIs(current, db, i);
        assert FirstSame(current, db, i);
        return Some(current[i]);
      }
    }
    NoneSame(current, db);
    return None;
  }

  method NeedsUpdate(current: seq<Backend>, desired: map<string, Backend>, key: string) returns (r: bool)
    requires Unique(current) && Keyed(desired) && key in desired
    ensures r <==> key in Updates(ContentOf(current), desired)
  {
    var cb := FindSame(current, desired[key]);
    assert BackendKey(desired[key]) == key;
    r := cb.None? || cb.value.weight != desired[key].weight;
  }

  method BackendsToUpdate(current: seq<Backend>, desired: map<string, Backend>) returns (update: map<string, Backend>)
    requires Unique(current) && Keyed(desired)
    ensures update.Keys == Updates(ContentOf(current), desired)
    ensures forall k :: k in update ==> update[k] == desired[k]
  {
    hide BackendKey;
    update := map[];
    ghost var goal := Updates(ContentOf(current), desired);
    var todo := desired.Keys;
    while todo != {}
      invariant todo <= desired.Keys
      invariant update.Keys == goal - todo
      invariant forall k :: k in update ==> update[k] == desired[k]
      decreases |todo|
    {
      var key :| key in todo;
      var differs := NeedsUpdate(current, desired, key);
      if differs { update := update[key := desired[key]]; }
      todo := todo - {key};
    }
  }

  lemma {:induction false} RemovesNext(current: seq<Backend>, i: nat, desired: map<string, Backend>)
    requires i < |current|
    ensures Removes(current[..i + 1], desired) ==
      Removes(current[..i], desired) + (if BackendKey(current[i]) in desired then {} else {BackendKey(current[i])})
  {
    KeysOfStep(current[..i + 1]);
    assert current[..i + 1][..i] == current[..i];
  }

  method BackendsToRemove(current: seq<Backend>, desired: map<string, Backend>) returns (remove: map<string, Backend>)
    ensures remove.Keys == Removes(current, desired)
  {
    remove := map[];
    for i := 0 to |current|
      invariant remove.Keys == Removes(current[..i], desired)
    {
      var key := BackendKey(current[i]);
      if key !in desired { remove := remove[key := current[i]]; }
      RemovesNext(current, i, desired);
    }
    assert current[..|current|] == current;
  }

  /** The keys of a map, collected in whatever order and then sorted. */
  method SortedKeys(keys: set<string>) returns (ks: seq<string>)
    ensures ks == Ordered(keys)
  {
    var all, todo := [], keys;
    while todo != {}
      invariant todo <= keys
      invariant forall x :: x in all <==> x in keys - todo
      invariant forall i, j :: 0 <= i < j < |all| ==> all[i] != all[j]
      decreases |todo|
    {
      var k :| k in todo;
      assert forall i :: 0 <= i < |all| ==> all[i] in all;
      all, todo := all + [k], todo - {k};
    }
    LessOrder();
    forall i, j | 0 <= i < j < |all| ensures Less(all[i], all[j]) || Less(all[j], all[i]) {
      LessTotal(all[i], all[j]);
    }
    SortAscends(Less, all);
    SortMembers(Less, all);
    ks := Sort(Less, all);
    AscendingUnique(Less, ks, Ordered(keys));
  }

  /** The difference between the listed and the desired backends, as requests in a fixed order. */
  method DiffRequests(name: string, current: seq<Backend>, desired: map<string, Backend>)
      returns (reqs: seq<Request>, changed: bool)
    requires Unique(current) && Keyed(desired) && name != ""
    ensures reqs == Plan(name, current, desired) && WellKeyed(reqs)
    ensures changed <==> reqs != []
  {
    hide BackendKey;
    var update := BackendsToUpdate(current, desired);
    var remove := BackendsToRemove(current, desired);
    var us := SortedKeys(update.Keys);
    var rs := SortedKeys(remove.Keys);
    reqs := seq(|us|, i requires 0 <= i < |us| => PutFor(name, us[i], update))
      + seq(|rs|, i requires 0 <= i < |rs| => Del(name, rs[i]));
    PlanIs(name, current, desired, update, us, rs, reqs);
    PlanCovers(name, current, desired);
    changed := update != map[] || remove != map[];
    SameEmptiness(update.Keys, us);
    SameEmptiness(remove.Keys, rs);
  }

  lemma SameEmptiness(keys: set<string>, ks: seq<string>)
    requires forall k :: k in ks <==> k in keys
    ensures keys == {} <==> ks == []
  {
    if ks != [] { assert ks[0] in keys; }
    if keys != {} { var k :| k in keys; assert k in ks; }
  }

  lemma IssueNext(srv: Server, p: seq<Request>, i: nat, oks: seq<bool>, ok: bool)
    requires i < |p| && |oks| == i
    ensures Issue(srv, p[..i + 1], oks + [ok]) == Serve(Issue(srv, p[..i], oks), p[i], ok)
  {
    IssueExtends(srv, p[..i], oks, ok);
    assert p[..i + 1][..i] == p[..i];
  }

  lemma {:induction false} EntriesNext(url: string, p: seq<Request>, i: nat, oks: seq<bool>, ok: bool)
    requires i < |p| && |oks| == i
    ensures Entries(url, p[..i + 1], oks + [ok]) == Entries(url, p[..i], oks) + [Entry(url, p[i], ok)]
  {
    var l, r := Entries(url, p[..i + 1], oks + [ok]), Entries(url, p[..i], oks) + [Entry(url, p[i], ok)];
    forall j | 0 <= j < |l| ensures l[j] == r[j] {}
  }

  /** With no failed request: desired upstreams as desired, preserved ones untouched, all others pruned or untouched. */
  ghost predicate Partitioned(s: Server, s': Server, dus: map<string, DesiredUpstream>, prune: bool) {
    forall n ::
      if n in dus then
        if dus[n].preserve then At(s', n) == At(s, n) else C(s', n) == Wanted(dus[n].backends)
      else
        At(s', n) == if prune then [] else At(s, n)
  }

  /** Whatever failed: preserved upstreams untouched, desired ones between old and desired and as desired unless
      something failed for them, all others never added to. */
  ghost predicate Guarded(s: Server, s': Server, dus: map<string, DesiredUpstream>, prune: bool, bad: set<string>) {
    forall n ::
      && (n in dus && dus[n].preserve ==> At(s', n) == At(s, n))
      && (n in dus && !dus[n].preserve ==> Between(C(s, n), Wanted(dus[n].backends), C(s', n)))
      && (n in dus && !dus[n].preserve && n !in bad ==> C(s', n) == Wanted(dus[n].backends))
      && (n !in dus && !prune ==> At(s', n) == At(s, n))
      && (n !in dus ==> Between(C(s, n), map[], C(s', n)))
  }

  lemma {:induction false} PartitionOf(s: Server, m: Server, s': Server, bad: set<string>, ok: bool, order: seq<string>,
      dus: map<string, DesiredUpstream>, prune: bool)
    requires forall n :: n in order <==> n in dus
    requires ServerListed(s, m, true, bad, order, dus)
    requires if prune then
        ServerPruned(m, s', true, ok, dus.Keys)
      else s' == m
    ensures Guarded(s, s', dus, prune, bad)
    ensures bad == {} && (prune ==> ok) ==> Partitioned(s, s', dus, prune)
  {
  }

  /** The partition at all clients, from the world before the two phases to the one after them. */
  lemma {:induction false} PartitionAll(w: World, urls: seq<string>, dus: map<string, DesiredUpstream>,
      order: seq<string>, runss: seq<seq<ClientRun>>, prune: bool, pruned: seq<ClientRun>)
    requires TidyWorld(w) && Known(w, urls) && "" !in dus && forall n :: n in order <==> n in dus
    ensures
      var mid, bad := SyncMany(w, urls, dus, order, runss), ManyFailed(w, urls, dus, order, runss);
      var w' := if prune then PruneEach(mid, urls, dus.Keys, pruned) else mid;
      forall url :: url in urls ==>
        && Guarded(w.servers[url], w'.servers[url], dus, prune, bad)
        && (bad == {} && (prune ==> !PruneEachFailed(mid, urls, dus.Keys, pruned)) ==>
          Partitioned(w.servers[url], w'.servers[url], dus, prune))
  {
    hide Guarded, Partitioned, ServerListed, ServerPruned, SyncMany, ManyFailed, PruneEach, PruneEachFailed, Tidy;
    var mid, bad := SyncMany(w, urls, dus, order, runss), ManyFailed(w, urls, dus, order, runss);
    SyncManyEffect(w, urls, dus, order, runss);
    if prune { PruneEachEffect(mid, urls, dus.Keys, pruned); }
    var w' := if prune then PruneEach(mid, urls, dus.Keys, pruned) else mid;
    var ok := !prune || !PruneEachFailed(mid, urls, dus.Keys, pruned);
    forall url | url in urls
      ensures Guarded(w.servers[url], w'.servers[url], dus, prune, bad)
      ensures bad == {} && ok ==> Partitioned(w.servers[url], w'.servers[url], dus, prune)
    {
      PartitionOf(w.servers[url], mid.servers[url], w'.servers[url], bad, ok, order, dus, prune);
    }
  }

  /** The upstream's part of a listing; a listing without upstream names counts for any upstream. */
  function CurrentBackends(all: Server, name: string): (bs: seq<Backend>)
    ensures Tidy(all) ==> bs == At(all, name)
  {
    var named := if name in all then all[name] else [];
    if |named| == 0 && |all| == 1 && "" in all && |all[""]| > 0 then all[""] else named
  }

  lemma PruneNext(srv: Server, names: seq<string>, i: nat, keep: set<string>)
    requires i < |names|
    ensures PruneNames(srv, names[..i + 1], keep) == PruneNames(srv, names[..i], keep)
      + (if names[i] in keep || names[i] == "" then [] else DelAll(names[i], At(srv, names[i])))
  {
    assert names[..i + 1][..i] == names[..i];
  }

  method PruneRequests(all: Server, keep: set<string>) returns (reqs: seq<Request>)
    ensures reqs == PrunePlan(all, keep) && WellKeyed(reqs)
  {
    var names := SortedKeys(all.Keys);
    reqs := [];
    for i := 0 to |names|
      invariant reqs == PruneNames(all, names[..i], keep)
    {
      assert names[i] in names;
      if names[i] != "" && names[i] !in keep {
        reqs := reqs + DelAll(names[i], all[names[i]]);
      }
      PruneNext(all, names, i, keep);
    }
    assert names[..|names|] == names;
    WellKeyedPrune(all, names, keep);
  }

  class Adapter {
    const clients: seq<string>
    const pruneOrphans: bool
    const fleet: Fleet
    var cache: map<string, Server>
    var cacheExp: map<string, int>

    /** Every cached listing is what the server would list now. */
    ghost predicate Valid()
      reads this, fleet
    {
      && fleet.Valid()
      && (forall url :: url in clients ==> url in fleet.servers)
      && (forall url :: url in cache ==> url in fleet.servers && cache[url] == fleet.servers[url])
    }

    constructor (clients: seq<string>, pruneOrphans: bool, fleet: Fleet)
      requires fleet.Valid() && forall url :: url in clients ==> url in fleet.servers
      ensures Valid() && this.clients == clients && this.pruneOrphans == pruneOrphans && this.fleet == fleet
    {
      this.clients, this.pruneOrphans, this.fleet := clients, pruneOrphans, fleet;
      cache, cacheExp := map[], map[];
    }

    /** A listing, from the cache while it is fresh. Either way it is the server's current content. */
    method RefreshCache(url: string, now: int) returns (r: Option<Server>)
      requires Valid()
      modifies this, fleet`listings
      ensures Valid()
      ensures r.Some? ==> url in fleet.servers && r.value == fleet.servers[url]
      ensures old(url in cacheExp && now < cacheExp[url] && url in cache) ==>
        r.Some? && fleet.listings == old(fleet.listings) && cacheExp == old(cacheExp)
      ensures !old(url in cacheExp && now < cacheExp[url] && url in cache) ==>
        && fleet.listings == old(fleet.listings) + 1
        && cacheExp == if r.Some? then old(cacheExp)[url := now + 2000] else old(cacheExp)
    {
      if url in cacheExp && now < cacheExp[url] && url in cache {
        return Some(cache[url]);
      }
      r := fleet.List(url);
      if r.None? { return; }
      cache := cache[url := r.value];
      cacheExp := cacheExp[url := now + CACHE_TTL];
    }

    /** Forgets what `url` listed, so that the rest of the cache is coherent again once only that server has changed. */
    method InvalidateCache(url: string)
      requires fleet.Valid() && forall u :: u in clients ==> u in fleet.servers
      requires forall u :: u in cache && u != url ==> u in fleet.servers && cache[u] == fleet.servers[u]
      modifies this`cache, this`cacheExp
      ensures Valid() && url !in cache
      ensures cache == old(cache) - {url} && cacheExp == old(cacheExp) - {url}
    {
      cache, cacheExp := cache - {url}, cacheExp - {url};
    }

    /** Sends the planned requests one after the other; a failed one does not stop the rest. */
    method SendAll(url: string, p: seq<Request>) returns (failed: bool, succeeded: bool, ghost oks: seq<bool>)
      requires fleet.Valid() && url in fleet.servers && WellKeyed(p)
      modifies fleet`servers, fleet`log
      ensures fleet.Valid()
      ensures fleet.Seen() == IssueAt(old(fleet.Seen()), url, p, oks)
      ensures failed <==> !AllOk(|p|, oks)
      ensures succeeded <==> Successes(|p|, oks) > 0
    {
      hide WellKeyed, AllOk, Sent;
      failed, succeeded, oks := false, false, [];
      ghost var s0, l0 := fleet.servers, fleet.log;
      NoneSent(url, p);
      for i := 0 to |p|
        invariant fleet.Valid() && |oks| == i
        invariant Sent(url, p, i, oks, s0, l0)
        invariant failed <==> Successes(i, oks) < i
        invariant succeeded <==> Successes(i, oks) > 0
      {
        var ok := SendNext(url, p, i, oks, s0, l0);
        SuccessesExtends(i, oks, ok);
        AllOkIff(i, oks);
        oks := oks + [ok];
        failed, succeeded := failed || !ok, succeeded || ok;
      }
      AllSent(url, p, oks, s0, l0);
      AllOkIff(|p|, oks);
    }

    lemma {:induction false} NoneSent(url: string, p: seq<Request>)
      requires url in fleet.servers
      ensures Sent(url, p, 0, [], fleet.servers, fleet.log)
    {
    }

    lemma {:induction false} AllSent(url: string, p: seq<Request>, oks: seq<bool>, s0: map<string, Server>,
        l0: seq<Entry>)
      requires Sent(url, p, |p|, oks, s0, l0)
      ensures fleet.servers == s0[url := Issue(s0[url], p, oks)] && fleet.log == l0 + Entries(url, p, oks)
    {
      assert p[..|p|] == p;
    }

    /** The first `i` requests of `p` have been sent. */
    ghost predicate Sent(url: string, p: seq<Request>, i: nat, oks: seq<bool>, s0: map<string, Server>, l0: seq<Entry>)
      requires i <= |p|
      reads fleet
    {
      && fleet.servers.Keys == s0.Keys && url in s0 && fleet.servers[url] == Issue(s0[url], p[..i], oks)
      && (forall u :: u in s0 && u != url ==> fleet.servers[u] == s0[u])
      && fleet.log == l0 + Entries(url, p[..i], oks)
    }

    method SendNext(url: string, p: seq<Request>, i: nat, ghost oks: seq<bool>, ghost s0: map<string, Server>,
        ghost l0: seq<Entry>)
      returns (ok: bool)
      requires fleet.Valid() && WellKeyed(p) && i < |p| && |oks| == i && Sent(url, p, i, oks, s0, l0)
      modifies fleet`servers, fleet`log
      ensures fleet.Valid() && Sent(url, p, i + 1, oks + [ok], s0, l0)
    {
      assert [p[i]][0] == p[i];
      ok := fleet.Send(url, p[i]);
      IssueNext(s0[url], p, i, oks, ok);
      EntriesNext(url, p, i, oks, ok);
    }

    /** One client's part of `SyncUpstream`: requests as if the listing were always fresh. */
    method SyncClient(url: string, name: string, desired: map<string, Backend>, now: int)
      returns (failed: bool, ghost run: ClientRun)
      requires Valid() && url in clients && Keyed(desired) && name != ""
      modifies this, fleet
      ensures Valid()
      ensures fleet.Seen() == SyncOne(old(fleet.Seen()), url, name, desired, run)
      ensures failed <==> OneFailed(old(fleet.Seen()), url, name, desired, run)
    {
      var listing := RefreshCache(url, now);
      if listing.None? {
        return true, Unreachable;
      }
      var all := listing.value;
      var current := CurrentBackends(all, name);
      assert current == At(all, name);
      var reqs, changed := DiffRequests(name, current, desired);
      failed, run := SendPlanned(url, all, reqs, changed);
    }

    /** Sends `p` and drops the cached listing when the server changed. */
    method SendPlanned(url: string, ghost srv: Server, p: seq<Request>, changed: bool)
      returns (failed: bool, ghost run: ClientRun)
      requires Valid() && url in fleet.servers && srv == fleet.servers[url]
      requires WellKeyed(p) && (!changed ==> p == [])
      modifies this, fleet
      ensures Valid() && run.Ran?
      ensures fleet.Seen() == IssueAt(old(fleet.Seen()), url, p, run.oks)
      ensures failed <==> !AllOk(|p|, run.oks)
    {
      ghost var oks;
      var succeeded;
      failed, succeeded, oks := SendAll(url, p);
      run := Ran(oks);
      if changed { InvalidateCache(url); }
    }

    /** `SyncUpstream`: the same requests, in the same order, as an adapter without a cache would send. */
    method SyncUpstream(name: string, backends: seq<Backend>, now: int)
        returns (failed: bool, ghost runs: seq<ClientRun>)
      requires Valid() && name != ""
      modifies this, fleet
      ensures Valid()
      ensures fleet.Seen() == SyncEach(old(fleet.Seen()), clients, name, Desired(backends), runs)
      ensures failed <==> EachFailed(old(fleet.Seen()), clients, name, Desired(backends), runs)
      ensures !failed ==> forall url :: url in clients ==> C(fleet.servers[url], name) == Wanted(backends)
      ensures forall url :: url in old(fleet.servers) ==>
        ServerSynced(old(fleet.servers)[url], fleet.servers[url], url in clients, !failed, name, Wanted(backends))
    {
      var desired := Aggregate(backends);
      failed, runs := false, [];
      ghost var w := fleet.Seen();
      for i := 0 to |clients|
        invariant Valid() && |runs| == i && Known(w, clients[..i])
        invariant fleet.Seen() == SyncEach(w, clients[..i], name, desired, runs)
        invariant failed <==> EachFailed(w, clients[..i], name, desired, runs)
      {
        assert clients[i] in clients && clients[..i + 1][..i] == clients[..i];
        var clientFailed, run := SyncClient(clients[i], name, desired, now);
        SyncEachExtends(w, clients[..i], name, desired, runs, run);
        runs := runs + [run];
        failed := failed || clientFailed;
      }
      assert clients[..|clients|] == clients;
      SyncEachEffect(w, clients, name, desired, runs);
    }

    /** Removal of orphans at one client, with the listing taken before the first removal. */
    method PruneClient(url: string, keep: set<string>, now: int) returns (failed: bool, ghost run: ClientRun)
      requires Valid() && url in clients
      modifies this, fleet
      ensures Valid()
      ensures fleet.Seen() == PruneOne(old(fleet.Seen()), url, keep, run)
      ensures failed <==> PruneFailed(old(fleet.Seen()), url, keep, run)
    {
      var listing := RefreshCache(url, now);
      if listing.None? {
        return true, Unreachable;
      }
      var all := listing.value;
      var reqs := PruneRequests(all, keep);
      ghost var oks;
      var changed;
      failed, changed, oks := SendAll(url, reqs);
      if changed {
        InvalidateCache(url);
      } else {
        NoneIssued(all, reqs, oks);
      }
      run := Ran(oks);
    }

    /** The first phase: every desired upstream that is not preserved, in any order. */
    method SyncDesired(dus: map<string, DesiredUpstream>, now: int)
      returns (failed: bool, ghost order: seq<string>, ghost runss: seq<seq<ClientRun>>)
      requires Valid() && "" !in dus
      modifies this, fleet
      ensures Valid() && (forall n :: n in order <==> n in dus) && |order| == |dus|
      ensures fleet.Seen() == SyncMany(old(fleet.Seen()), clients, dus, order, runss)
      ensures failed <==> ManyFailed(old(fleet.Seen()), clients, dus, order, runss) != {}
    {
      hide Guarded, Partitioned, ServerSynced, Wanted, Desired, Tidy;
      failed, order, runss := false, [], [];
      ghost var w := fleet.Seen();
      var todo := dus.Keys;
      while todo != {}
        invariant Valid() && todo <= dus.Keys && |runss| == |order| && |order| + |todo| == |dus|
        invariant forall n :: n in order <==> n in dus.Keys - todo
        invariant Known(w, clients)
        invariant fleet.Seen() == SyncMany(w, clients, dus, order, runss)
        invariant failed <==> ManyFailed(w, clients, dus, order, runss) != {}
        decreases |todo|
      {
        var name :| name in todo;
        ghost var runs := [];
        var upFailed := false;
        if !dus[name].preserve {
          upFailed, runs := SyncUpstream(name, dus[name].backends, now);
        }
        SyncManyExtends(w, clients, dus, order, runss, runs);
        assert (order + [name])[..|order|] == order;
        order, runss := order + [name], runss + [runs];
        failed := failed || upFailed;
        todo := todo - {name};
      }
    }

    /** `SyncAllUpstreams`, ranging over the desired upstreams in any order. */
    method SyncAllUpstreams(dus: map<string, DesiredUpstream>, now: int)
      returns (failed: bool, ghost order: seq<string>, ghost runss: seq<seq<ClientRun>>, ghost pruned: seq<ClientRun>,
        ghost bad: set<string>)
      requires Valid() && "" !in dus
      modifies this, fleet
      ensures Valid() && (forall n :: n in order <==> n in dus) && |order| == |dus|
      ensures
        var w := SyncMany(old(fleet.Seen()), clients, dus, order, runss);
        && fleet.Seen() == (if pruneOrphans then PruneEach(w, clients, dus.Keys, pruned) else w)
        && bad == ManyFailed(old(fleet.Seen()), clients, dus, order, runss)
        && (failed <==> bad != {} || (pruneOrphans && PruneEachFailed(w, clients, dus.Keys, pruned)))
      ensures forall url :: url in clients ==>
        && Guarded(old(fleet.servers)[url], fleet.servers[url], dus, pruneOrphans, bad)
        && (!failed ==> Partitioned(old(fleet.servers)[url], fleet.servers[url], dus, pruneOrphans))
    {
      hide Guarded, Partitioned, Tidy, SyncMany, ManyFailed, PruneEach, PruneEachFailed;
      ghost var w := fleet.Seen();
      failed, order, runss := SyncDesired(dus, now);
      bad, pruned := ManyFailed(w, clients, dus, order, runss), [];
      if pruneOrphans {
        var pruneFailed;
        pruneFailed, pruned := PruneAll(dus.Keys, now);
        failed := failed || pruneFailed;
      }
      PartitionAll(w, clients, dus, order, runss, pruneOrphans, pruned);
    }

    method PruneAll(keep: set<string>, now: int) returns (failed: bool, ghost runs: seq<ClientRun>)
      requires Valid()
      modifies this, fleet
      ensures Valid()
      ensures fleet.Seen() == PruneEach(old(fleet.Seen()), clients, keep, runs)
      ensures failed <==> PruneEachFailed(old(fleet.Seen()), clients, keep, runs)
    {
      failed, runs := false, [];
      ghost var w := fleet.Seen();
      for i := 0 to |clients|
        invariant Valid() && |runs| == i && Known(w, clients[..i])
        invariant fleet.Seen() == PruneEach(w, clients[..i], keep, runs)
        invariant failed <==> PruneEachFailed(w, clients[..i], keep, runs)
      {
        assert clients[i] in clients && clients[..i + 1][..i] == clients[..i];
        var clientFailed, run := PruneClient(clients[i], keep, now);
        PruneEachExtends(w, clients[..i], keep, runs, run);
        runs := runs + [run];
        failed := failed || clientFailed;
      }
      assert clients[..|clients|] == clients;
    }
  }

  lemma {:induction false} SuccessesExtends(n: nat, oks: seq<bool>, ok: bool)
    requires n <= |oks|
    ensures Successes(n, oks + [ok]) == Successes(n, oks)
  {
    if n > 0 { SuccessesExtends(n - 1, oks, ok); }
  }

  lemma {:induction false} AllOkIff(n: nat, oks: seq<bool>)
    ensures Successes(n, oks) <= n
    ensures AllOk(n, oks) <==> Successes(n, oks) == n
  {
    if n > 0 {
      AllOkIff(n - 1, oks);
      if AllOk(n, oks) { assert OkAt(oks, n - 1); }
    }
  }

  lemma {:induction false} NoneIssued(srv: Server, p: seq<Request>, oks: seq<bool>)
    requires Successes(|p|, oks) == 0
    ensures Issue(srv, p, oks) == srv
  {
    if p != [] { NoneIssued(srv, p[..|p| - 1], oks); }
  }

  lemma WellKeyedPrune(srv: Server, names: seq<string>, keep: set<string>)
    ensures WellKeyed(PruneNames(srv, names, keep))
  {
    PruneNamesShape(srv, names, keep);
    var p := PruneNames(srv, names, keep);
    forall i | 0 <= i < |p| ensures p[i].upstream != "" && p[i].Del? { assert p[i] in p; }
  }

  lemma {:induction false} PlanIs(name: string, current: seq<Backend>, desired: map<string, Backend>,
      update: map<string, Backend>, us: seq<string>, rs: seq<string>, reqs: seq<Request>)
    requires update.Keys == Updates(ContentOf(current), desired) && forall k :: k in update ==> update[k] == desired[k]
    requires us == Ordered(update.Keys) && rs == Ordered(Removes(current, desired))
    requires reqs == seq(|us|, i requires 0 <= i < |us| => PutFor(name, us[i], update))
      + seq(|rs|, i requires 0 <= i < |rs| => Del(name, rs[i]))
    ensures reqs == Plan(name, current, desired)
  {
    forall i | 0 <= i < |us| ensures PutFor(name, us[i], update) == PutFor(name, us[i], desired) {
      assert us[i] in us;
    }
    assert seq(|us|, i requires 0 <= i < |us| => PutFor(name, us[i], update)) == Puts(name, us, desired);
  }
}

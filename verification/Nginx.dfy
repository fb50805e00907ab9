/** A fleet of NGINX servers, and as a reference an adapter that lists them anew for every call. */
module Nginx {
  import opened Text
  import opened Backends
  import opened Diff
  import opened Convergence

  datatype Entry = Entry(url: string, request: Request, ok: bool)

  /** The servers by base URL, and every request sent to them so far. */
  datatype World = World(servers: map<string, Server>, log: seq<Entry>)

  /** NGINX itself: any listing and any request may fail. */
  class Fleet {
    var servers: map<string, Server>
    ghost var log: seq<Entry>
    ghost var listings: nat

    ghost predicate Valid()
      reads this
    {
      forall url :: url in servers ==> Tidy(servers[url])
    }

    ghost function Seen(): World
      reads this
    {
      World(servers, log)
    }

    method List(url: string) returns (r: Option<Server>)
      modifies this`listings
      ensures r.Some? ==> url in servers && r.value == servers[url]
      ensures listings == old(listings) + 1
    {
      listings := listings + 1;
      var reachable: bool := *;
      r := if url in servers && reachable then Some(servers[url]) else None;
    }

    method Send(url: string, r: Request) returns (ok: bool)
      requires Valid() && url in servers && WellKeyed([r])
      modifies this`servers, this`log
      ensures Valid()
      ensures servers == old(servers)[url := Serve(old(servers)[url], r, ok)]
      ensures log == old(log) + [Entry(url, r, ok)]
    {
      ok := *;
      ServeContent(servers[url], r, ok);
      servers := servers[url := Serve(servers[url], r, ok)];
      log := log + [Entry(url, r, ok)];
    }
  }

  // ---------------------------- the adapter without a cache, as a reference

  ghost function Entries(url: string, reqs: seq<Request>, oks: seq<bool>): seq<Entry> {
    seq(|reqs|, i requires 0 <= i < |reqs| => Entry(url, reqs[i], OkAt(oks, i)))
  }

  ghost function IssueAt(w: World, url: string, reqs: seq<Request>, oks: seq<bool>): World
    requires url in w.servers
  {
    World(w.servers[url := Issue(w.servers[url], reqs, oks)], w.log + Entries(url, reqs, oks))
  }

  /** One client's share of a run: its listing failed, or its requests were answered as `oks` says. */
  datatype ClientRun = Unreachable | Ran(oks: seq<bool>)

  function RunAt(runs: seq<ClientRun>, i: nat): ClientRun { if i < |runs| then runs[i] else Unreachable }

  /** An adapter that always lists afresh: the requests follow from the server alone. */
  ghost function SyncOne(w: World, url: string, name: string, d: map<string, Backend>, run: ClientRun): (w': World)
    requires url in w.servers
    ensures w'.servers.Keys == w.servers.Keys
  {
    match run
    case Unreachable => w
    case Ran(oks) => IssueAt(w, url, RequestsFor(w.servers[url], name, d), oks)
  }

  ghost predicate OneFailed(w: World, url: string, name: string, d: map<string, Backend>, run: ClientRun)
    requires url in w.servers
  {
    match run
    case Unreachable => true
    case Ran(oks) => !AllOk(|RequestsFor(w.servers[url], name, d)|, oks)
  }

  ghost predicate Known(w: World, urls: seq<string>) { forall url :: url in urls ==> url in w.servers }

  ghost function SyncEach(w: World, urls: seq<string>, name: string, d: map<string, Backend>,
      runs: seq<ClientRun>): (w': World)
    requires Known(w, urls)
    ensures w'.servers.Keys == w.servers.Keys
  {
    if urls == [] then w
    else
      var n := |urls| - 1;
      SyncOne(SyncEach(w, urls[..n], name, d, runs), urls[n], name, d, RunAt(runs, n))
  }

  ghost predicate EachFailed(w: World, urls: seq<string>, name: string, d: map<string, Backend>, runs: seq<ClientRun>)
    requires Known(w, urls)
  {
    urls != [] &&
    var n := |urls| - 1;
    || EachFailed(w, urls[..n], name, d, runs)
    || OneFailed(SyncEach(w, urls[..n], name, d, runs), urls[n], name, d, RunAt(runs, n))
  }

  lemma {:induction false} SyncEachExtends(w: World, urls: seq<string>, name: string, d: map<string, Backend>,
      runs: seq<ClientRun>, run: ClientRun)
    requires Known(w, urls) && |urls| <= |runs|
    ensures SyncEach(w, urls, name, d, runs + [run]) == SyncEach(w, urls, name, d, runs)
    ensures EachFailed(w, urls, name, d, runs + [run]) == EachFailed(w, urls, name, d, runs)
  {
    if urls != [] { SyncEachExtends(w, urls[..|urls| - 1], name, d, runs, run); }
  }

  ghost predicate TidyWorld(w: World) { forall url :: url in w.servers ==> Tidy(w.servers[url]) }

  /** What a run for the upstream `name` may do to one server. */
  ghost predicate ServerSynced(s: Server, s': Server, touched: bool, ok: bool, name: string, w: Content) {
    && (!touched ==> s' == s)
    && (forall n :: n != name ==> At(s', n) == At(s, n))
    && Between(C(s, name), w, C(s', name))
    && (touched && ok ==> C(s', name) == w)
  }

  lemma {:induction false} RunOnServer(srv: Server, name: string, d: map<string, Backend>, oks: seq<bool>)
    requires Tidy(srv) && Keyed(d) && name != ""
    ensures Tidy(Synced(srv, name, d, oks))
    ensures ServerSynced(srv, Synced(srv, name, d, oks), true, AllOk(|RequestsFor(srv, name, d)|, oks), name,
      Weights(d))
  {
    RunFrame(srv, name, d, oks);
    RunOutcome(srv, name, d, oks, 0);
  }

  lemma {:induction false} SyncOneEffect(w: World, url: string, name: string, d: map<string, Backend>, run: ClientRun)
    requires TidyWorld(w) && url in w.servers && Keyed(d) && name != ""
    ensures
      var w' := SyncOne(w, url, name, d, run);
      && TidyWorld(w')
      && (forall u :: u in w.servers && u != url ==> w'.servers[u] == w.servers[u])
      && ServerSynced(w.servers[url], w'.servers[url], true, !OneFailed(w, url, name, d, run), name, Weights(d))
  {
    hide BackendKey, RequestsFor, Weights, Tidy;
    match run
    case Unreachable =>
    case Ran(oks) =>
      RunOnServer(w.servers[url], name, d, oks);
  }

  lemma {:induction false} ServerSyncedTwice(s: Server, m: Server, s': Server, touched: bool, ok: bool, ok': bool,
      name: string, w: Content)
    requires ServerSynced(s, m, touched, ok, name, w) && ServerSynced(m, s', true, ok', name, w)
    ensures ServerSynced(s, s', true, ok && ok', name, w)
  {
  }

  /** Over all clients, even when one URL is listed twice: success means the desired content everywhere. */
  lemma {:induction false} SyncEachEffect(w: World, urls: seq<string>, name: string, d: map<string, Backend>,
      runs: seq<ClientRun>)
    requires TidyWorld(w) && Known(w, urls) && Keyed(d) && name != ""
    ensures TidyWorld(SyncEach(w, urls, name, d, runs))
    ensures forall u :: u in w.servers ==>
      ServerSynced(w.servers[u], SyncEach(w, urls, name, d, runs).servers[u], u in urls,
        !EachFailed(w, urls, name, d, runs), name, Weights(d))
  {
    hide SyncOne, OneFailed, Weights;
    if urls != [] {
      var n := |urls| - 1;
      var mid, last := SyncEach(w, urls[..n], name, d, runs), urls[n];
      var w' := SyncOne(mid, last, name, d, RunAt(runs, n));
      SyncEachEffect(w, urls[..n], name, d, runs);
      SyncOneEffect(mid, last, name, d, RunAt(runs, n));
      assert urls == urls[..n] + [last];
      var ok, ok' := !EachFailed(w, urls[..n], name, d, runs), !OneFailed(mid, last, name, d, RunAt(runs, n));
      forall u | u in w.servers
        ensures ServerSynced(w.servers[u], w'.servers[u], u in urls, ok && ok', name, Weights(d))
      {
        if u == last {
          assert ServerSynced(mid.servers[u], w'.servers[u], true, ok', name, Weights(d));
          ServerSyncedTwice(w.servers[u], mid.servers[u], w'.servers[u], u in urls[..n], ok, ok', name, Weights(d));
        } else {
          assert w'.servers[u] == mid.servers[u] && (u in urls <==> u in urls[..n]);
        }
      }
    }
  }

  // -------------------------------------------------------- whole listings

  datatype DesiredUpstream = DesiredUpstream(backends: seq<Backend>, preserve: bool)

  function RunsAt(runss: seq<seq<ClientRun>>, i: nat): seq<ClientRun> { if i < |runss| then runss[i] else [] }

  /** The desired upstreams synced one after the other, preserved ones skipped. */
  ghost function SyncMany(w: World, urls: seq<string>, dus: map<string, DesiredUpstream>, order: seq<string>,
      runss: seq<seq<ClientRun>>): (w': World)
    requires Known(w, urls) && forall n :: n in order ==> n in dus
    ensures w'.servers.Keys == w.servers.Keys
  {
    if order == [] then w
    else
      var n := |order| - 1;
      assert order[n] in order;
      var mid := SyncMany(w, urls, dus, order[..n], runss);
      if dus[order[n]].preserve then mid
      else SyncEach(mid, urls, order[n], Desired(dus[order[n]].backends), RunsAt(runss, n))
  }

  /** The upstreams for which some listing or request failed. */
  ghost function ManyFailed(w: World, urls: seq<string>, dus: map<string, DesiredUpstream>, order: seq<string>,
      runss: seq<seq<ClientRun>>): set<string>
    requires Known(w, urls) && forall n :: n in order ==> n in dus
  {
    if order == [] then {}
    else
      var n := |order| - 1;
      assert order[n] in order;
      var failed := !dus[order[n]].preserve
        && EachFailed(SyncMany(w, urls, dus, order[..n], runss), urls, order[n], Desired(dus[order[n]].backends),
          RunsAt(runss, n));
      ManyFailed(w, urls, dus, order[..n], runss) + (if failed then {order[n]} else {})
  }

  lemma {:induction false} SyncManyExtends(w: World, urls: seq<string>, dus: map<string, DesiredUpstream>,
      order: seq<string>, runss: seq<seq<ClientRun>>, runs: seq<ClientRun>)
    requires Known(w, urls) && (forall n :: n in order ==> n in dus) && |order| <= |runss|
    ensures SyncMany(w, urls, dus, order, runss + [runs]) == SyncMany(w, urls, dus, order, runss)
    ensures ManyFailed(w, urls, dus, order, runss + [runs]) == ManyFailed(w, urls, dus, order, runss)
  {
    if order != [] { SyncManyExtends(w, urls, dus, order[..|order| - 1], runss, runs); }
  }

  /** What the first phase may do to one server, the upstreams in `names` having had their turn and those in `bad`
      failed. */
  ghost predicate ServerListed(s: Server, s': Server, touched: bool, bad: set<string>, names: seq<string>,
      dus: map<string, DesiredUpstream>)
    requires forall n :: n in names ==> n in dus
  {
    && (!touched ==> s' == s)
    && (forall n :: n !in names || dus[n].preserve ==> At(s', n) == At(s, n))
    && (forall n :: n in names && !dus[n].preserve ==> Between(C(s, n), Wanted(dus[n].backends), C(s', n)))
    && (touched ==> forall n :: n in names && !dus[n].preserve && n !in bad ==> C(s', n) == Wanted(dus[n].backends))
  }

  lemma {:induction false} BetweenThen(c: Content, w: Content, x: Content, y: Content)
    requires (x == c || Between(c, w, x)) && Between(x, w, y)
    ensures Between(c, w, y)
  {
  }

  lemma {:induction false} ServerListedStep(s: Server, m: Server, s': Server, touched: bool, bad: set<string>, ok: bool,
      names: seq<string>, name: string, dus: map<string, DesiredUpstream>)
    requires forall n :: n in names + [name] ==> n in dus
    requires !dus[name].preserve
    requires ServerListed(s, m, touched, bad, names, dus)
    requires ServerSynced(m, s', touched, ok, name, Wanted(dus[name].backends))
    ensures ServerListed(s, s', touched, bad + (if ok then {} else {name}), names + [name], dus)
  {
    hide Wanted, ContentOf, At;
    forall n | n in names + [name] && n != name ensures n in names {}
    forall n | n in names + [name] && !dus[n].preserve
      ensures Between(C(s, n), Wanted(dus[n].backends), C(s', n))
    {
      if n == name {
        BetweenThen(C(s, n), Wanted(dus[n].backends), C(m, n), C(s', n));
      }
    }
  }

  lemma {:induction false} SyncManyEffect(w: World, urls: seq<string>, dus: map<string, DesiredUpstream>,
      order: seq<string>, runss: seq<seq<ClientRun>>)
    requires TidyWorld(w) && Known(w, urls) && "" !in dus && forall n :: n in order ==> n in dus
    ensures TidyWorld(SyncMany(w, urls, dus, order, runss))
    ensures forall u :: u in w.servers ==>
      ServerListed(w.servers[u], SyncMany(w, urls, dus, order, runss).servers[u], u in urls,
        ManyFailed(w, urls, dus, order, runss), order, dus)
  {
    if order != [] {
      var n := |order| - 1;
      var name := order[n];
      assert name in order;
      SyncManyEffect(w, urls, dus, order[..n], runss);
      assert order == order[..n] + [name];
      var mid := SyncMany(w, urls, dus, order[..n], runss);
      if !dus[name].preserve {
        SyncEachEffect(mid, urls, name, Desired(dus[name].backends), RunsAt(runss, n));
        var w' := SyncEach(mid, urls, name, Desired(dus[name].backends), RunsAt(runss, n));
        forall u | u in w.servers ensures
          ServerListed(w.servers[u], w'.servers[u], u in urls, ManyFailed(w, urls, dus, order, runss), order, dus)
        {
          ServerListedStep(w.servers[u], mid.servers[u], w'.servers[u], u in urls,
            ManyFailed(w, urls, dus, order[..n], runss),
            !EachFailed(mid, urls, name, Desired(dus[name].backends), RunsAt(runss, n)), order[..n], name, dus);
        }
      }
    }
  }

  // ------------------------------------------------------------- pruning

  function DelAll(name: string, bs: seq<Backend>): seq<Request> {
    if bs == [] then [] else DelAll(name, bs[..|bs| - 1]) + [Del(name, BackendKey(bs[|bs| - 1]))]
  }

  function PruneNames(srv: Server, names: seq<string>, keep: set<string>): seq<Request> {
    if names == [] then []
    else
      var n := |names| - 1;
      PruneNames(srv, names[..n], keep)
        + (if names[n] in keep || names[n] == "" then [] else DelAll(names[n], At(srv, names[n])))
  }

  /** Removal of every backend of every upstream that is not to be kept. */
  ghost function PrunePlan(srv: Server, keep: set<string>): seq<Request> { PruneNames(srv, Ordered(srv.Keys), keep) }

  ghost function PruneOne(w: World, url: string, keep: set<string>, run: ClientRun): (w': World)
    requires url in w.servers
    ensures w'.servers.Keys == w.servers.Keys
  {
    match run
    case Unreachable => w
    case Ran(oks) => IssueAt(w, url, PrunePlan(w.servers[url], keep), oks)
  }

  ghost predicate PruneFailed(w: World, url: string, keep: set<string>, run: ClientRun)
    requires url in w.servers
  {
    match run
    case Unreachable => true
    case Ran(oks) => !AllOk(|PrunePlan(w.servers[url], keep)|, oks)
  }

  ghost function PruneEach(w: World, urls: seq<string>, keep: set<string>, runs: seq<ClientRun>): (w': World)
    requires Known(w, urls)
    ensures w'.servers.Keys == w.servers.Keys
  {
    if urls == [] then w
    else
      var n := |urls| - 1;
      PruneOne(PruneEach(w, urls[..n], keep, runs), urls[n], keep, RunAt(runs, n))
  }

  ghost predicate PruneEachFailed(w: World, urls: seq<string>, keep: set<string>, runs: seq<ClientRun>)
    requires Known(w, urls)
  {
    urls != [] &&
    var n := |urls| - 1;
    || PruneEachFailed(w, urls[..n], keep, runs)
    || PruneFailed(PruneEach(w, urls[..n], keep, runs), urls[n], keep, RunAt(runs, n))
  }

  lemma {:induction false} PruneEachExtends(w: World, urls: seq<string>, keep: set<string>, runs: seq<ClientRun>,
      run: ClientRun)
    requires Known(w, urls) && |urls| <= |runs|
    ensures PruneEach(w, urls, keep, runs + [run]) == PruneEach(w, urls, keep, runs)
    ensures PruneEachFailed(w, urls, keep, runs + [run]) == PruneEachFailed(w, urls, keep, runs)
  {
    if urls != [] { PruneEachExtends(w, urls[..|urls| - 1], keep, runs, run); }
  }

  lemma {:induction false} DelAllShape(name: string, bs: seq<Backend>)
    ensures |DelAll(name, bs)| == |bs|
    ensures forall i :: 0 <= i < |bs| ==> DelAll(name, bs)[i] == Del(name, BackendKey(bs[i]))
  {
    hide BackendKey;
    if bs != [] { DelAllShape(name, bs[..|bs| - 1]); }
  }

  lemma {:induction false} PruneNamesShape(srv: Server, names: seq<string>, keep: set<string>)
    ensures forall r :: r in PruneNames(srv, names, keep) ==>
      r.Del? && r.upstream != "" && r.upstream !in keep && r.upstream in names
    ensures forall n, b :: n in names && n !in keep && n != "" && b in At(srv, n) ==>
      Del(n, BackendKey(b)) in PruneNames(srv, names, keep)
  {
    if names != [] {
      var k := |names| - 1;
      PruneNamesShape(srv, names[..k], keep);
      assert names == names[..k] + [names[k]];
      var part := DelAll(names[k], At(srv, names[k]));
      DelAllShape(names[k], At(srv, names[k]));
      forall b | b in At(srv, names[k]) ensures Del(names[k], BackendKey(b)) in part {
        var i :| 0 <= i < |At(srv, names[k])| && At(srv, names[k])[i] == b;
        assert part[i] in part;
      }
    }
  }

  /** What pruning may do to one server. */
  ghost predicate ServerPruned(s: Server, s': Server, touched: bool, ok: bool, keep: set<string>) {
    && (!touched ==> s' == s)
    && (forall n :: n in keep ==> At(s', n) == At(s, n))
    && (forall n :: n !in keep ==> Between(C(s, n), map[], C(s', n)))
    && (touched && ok ==> forall n :: n !in keep ==> At(s', n) == [])
  }

  lemma PruneOneEffect(w: World, url: string, keep: set<string>, run: ClientRun)
    requires TidyWorld(w) && url in w.servers
    ensures
      var w' := PruneOne(w, url, keep, run);
      && TidyWorld(w')
      && (forall u :: u in w.servers && u != url ==> w'.servers[u] == w.servers[u])
      && ServerPruned(w.servers[url], w'.servers[url], true, !PruneFailed(w, url, keep, run), keep)
  {
    match run
    case Unreachable =>
    case Ran(oks) =>
      var srv := w.servers[url];
      var p := PrunePlan(srv, keep);
      PruneNamesShape(srv, Ordered(srv.Keys), keep);
      assert WellKeyed(p) by {
        forall i | 0 <= i < |p| ensures p[i].upstream != "" && p[i].Del? { assert p[i] in p; }
      }
      forall n ensures Tidy(Issue(srv, p, oks))
        && (n in keep ==> At(Issue(srv, p, oks), n) == At(srv, n))
        && (n !in keep ==> Between(C(srv, n), map[], C(Issue(srv, p, oks), n)))
        && (n !in keep && AllOk(|p|, oks) ==> At(Issue(srv, p, oks), n) == [])
      {
        PruneName(srv, p, oks, n, keep);
      }
  }

  lemma {:induction false} PruneName(srv: Server, p: seq<Request>, oks: seq<bool>, n: string, keep: set<string>)
    requires Tidy(srv) && WellKeyed(p)
    requires forall r :: r in p ==> r.Del? && r.upstream !in keep
    requires forall m, b :: m in srv && m !in keep && m != "" && b in At(srv, m) ==> Del(m, BackendKey(b)) in p
    ensures Tidy(Issue(srv, p, oks))
    ensures n in keep ==> At(Issue(srv, p, oks), n) == At(srv, n)
    ensures n !in keep ==> Between(C(srv, n), map[], C(Issue(srv, p, oks), n))
    ensures n !in keep && AllOk(|p|, oks) ==> At(Issue(srv, p, oks), n) == []
  {
    forall i | 0 <= i < |p| ensures p[i].Del? && p[i].upstream !in keep { assert p[i] in p; }
    IssuePatches(srv, p, oks, n, map[]);
    if n !in keep && AllOk(|p|, oks) {
      ContentKeys(At(srv, n));
      forall k | k in C(srv, n) ensures k in Done(p, oks, n) {
        var b :| b in At(srv, n) && BackendKey(b) == k;
        assert Del(n, k) in p;
        var i :| 0 <= i < |p| && p[i] == Del(n, k);
        assert OkAt(oks, i);
      }
      EmptyContent(At(Issue(srv, p, oks), n));
    }
  }

  lemma {:induction false} ServerPrunedTwice(s: Server, m: Server, s': Server, touched: bool, ok: bool, ok': bool,
      keep: set<string>)
    requires ServerPruned(s, m, touched, ok, keep) && ServerPruned(m, s', true, ok', keep)
    ensures ServerPruned(s, s', true, ok && ok', keep)
  {
  }

  lemma {:induction false} PruneEachEffect(w: World, urls: seq<string>, keep: set<string>, runs: seq<ClientRun>)
    requires TidyWorld(w) && Known(w, urls)
    ensures TidyWorld(PruneEach(w, urls, keep, runs))
    ensures forall u :: u in w.servers ==>
      ServerPruned(w.servers[u], PruneEach(w, urls, keep, runs).servers[u], u in urls,
        !PruneEachFailed(w, urls, keep, runs), keep)
  {
    hide PruneOne, PruneFailed, Tidy, ServerPruned;
    if urls == [] {
      forall u | u in w.servers ensures ServerPruned(w.servers[u], w.servers[u], false, true, keep) {
        NotPruned(w.servers[u], keep);
      }
    } else {
      var n := |urls| - 1;
      PruneEachEffect(w, urls[..n], keep, runs);
      forall u | u in w.servers
        ensures ServerPruned(w.servers[u], PruneEach(w, urls, keep, runs).servers[u], u in urls,
          !PruneEachFailed(w, urls, keep, runs), keep)
      {
        PruneEachNext(w, urls, keep, runs, u);
      }
      PruneOneEffect(PruneEach(w, urls[..n], keep, runs), urls[n], keep, RunAt(runs, n));
    }
  }

  lemma {:induction false} NotPruned(s: Server, keep: set<string>)
    ensures ServerPruned(s, s, false, true, keep)
  {
  }

  lemma {:induction false} PrunedLess(s: Server, s': Server, touched: bool, ok: bool, ok': bool, keep: set<string>)
    requires ServerPruned(s, s', touched, ok, keep)
    ensures ServerPruned(s, s', touched, ok && ok', keep)
  {
  }

  lemma {:induction false} PruneEachNext(w: World, urls: seq<string>, keep: set<string>, runs: seq<ClientRun>,
      u: string)
    requires TidyWorld(w) && Known(w, urls) && urls != [] && u in w.servers
    requires TidyWorld(PruneEach(w, urls[..|urls| - 1], keep, runs))
    requires
      var before := urls[..|urls| - 1];
      ServerPruned(w.servers[u], PruneEach(w, before, keep, runs).servers[u], u in before,
        !PruneEachFailed(w, before, keep, runs), keep)
    ensures
      ServerPruned(w.servers[u], PruneEach(w, urls, keep, runs).servers[u], u in urls,
        !PruneEachFailed(w, urls, keep, runs), keep)
  {
    hide PruneOne, PruneFailed, Tidy, ServerPruned;
    var n := |urls| - 1;
    var mid, last := PruneEach(w, urls[..n], keep, runs), urls[n];
    var w' := PruneOne(mid, last, keep, RunAt(runs, n));
    PruneOneEffect(mid, last, keep, RunAt(runs, n));
    assert urls == urls[..n] + [last];
    var ok, ok' := !PruneEachFailed(w, urls[..n], keep, runs), !PruneFailed(mid, last, keep, RunAt(runs, n));
    if u == last {
      assert ServerPruned(mid.servers[u], w'.servers[u], true, ok', keep);
      ServerPrunedTwice(w.servers[u], mid.servers[u], w'.servers[u], u in urls[..n], ok, ok', keep);
    } else {
      assert w'.servers[u] == mid.servers[u] && (u in urls <==> u in urls[..n]);
      PrunedLess(w.servers[u], mid.servers[u], u in urls[..n], ok, ok', keep);
    }
  }

}

/** What one run of requests, and any number of runs, does to an upstream when any request may fail. */
module Convergence {
  import opened Text
  import opened Backends
  import opened Diff

  ghost function C(srv: Server, name: string): Content { ContentOf(At(srv, name)) }

  ghost function RequestsFor(srv: Server, name: string, d: map<string, Backend>): seq<Request> {
    Plan(name, At(srv, name), d)
  }

  /** The server after one run for the upstream `name`. */
  ghost function Synced(srv: Server, name: string, d: map<string, Backend>, oks: seq<bool>): Server {
    Issue(srv, RequestsFor(srv, name, d), oks)
  }

  ghost predicate AllOk(n: nat, oks: seq<bool>) { forall i: nat :: i < n ==> OkAt(oks, i) }

  function Successes(n: nat, oks: seq<bool>): nat {
    if n == 0 then 0 else Successes(n - 1, oks) + (if OkAt(oks, n - 1) then 1 else 0)
  }

  // ------------------------------------------- keys whose request succeeded

  lemma {:induction false} DonePrefix(p: seq<Request>, i: nat, oks: seq<bool>, name: string, k: string)
    requires i <= |p|
    ensures k in Done(p[..i], oks, name) <==>
      exists j: nat :: j < i && p[j].upstream == name && OkAt(oks, j) && p[j].key == k
  {
    if k in Done(p[..i], oks, name) {
      var j :| 0 <= j < |p[..i]| && p[..i][j].upstream == name && OkAt(oks, j) && p[..i][j].key == k;
      assert p[j].key == k;
    }
    if j: nat :| j < i && p[j].upstream == name && OkAt(oks, j) && p[j].key == k {
      assert p[..i][j].key == k;
    }
  }

  lemma {:induction false} DoneCount(p: seq<Request>, oks: seq<bool>, name: string)
    requires forall i :: 0 <= i < |p| ==> p[i].upstream == name
    requires forall i, j :: 0 <= i < j < |p| ==> p[i].key != p[j].key
    ensures |Done(p, oks, name)| == Successes(|p|, oks)
  {
    if p == [] {
      assert Done(p, oks, name) == {};
    } else {
      var n := |p| - 1;
      DoneCount(p[..n], oks, name);
      DoneStep(p, oks, name);
      DonePrefix(p, n, oks, name, p[n].key);
    }
  }

  lemma {:induction false} AllSucceed(n: nat, oks: seq<bool>)
    requires AllOk(n, oks)
    ensures Successes(n, oks) == n
  {
    if n > 0 { AllSucceed(n - 1, oks); }
  }

  lemma DoneWithin(p: seq<Request>, name: string, c: Content, w: Content, oks: seq<bool>)
    requires Repairs(p, name, c, w)
    ensures Done(p, oks, name) <= Difference(c, w)
    ensures |Done(p, oks, name)| == Successes(|p|, oks)
    ensures AllOk(|p|, oks) ==> Done(p, oks, name) == Difference(c, w)
  {
    DoneCount(p, oks, name);
    forall k | k in Done(p, oks, name) ensures k in Difference(c, w) {
      assert p[..|p|] == p;
      DonePrefix(p, |p|, oks, name, k);
      var j: nat :| j < |p| && p[j].key == k;
      assert p[j] in p && k in KeysIn(p);
    }
    if AllOk(|p|, oks) {
      forall k | k in Difference(c, w) ensures k in Done(p, oks, name) {
        assert k in KeysIn(p);
        var r :| r in p && r.key == k;
        var j :| 0 <= j < |p| && p[j] == r;
        assert OkAt(oks, j);
      }
    }
  }

  // ------------------------------------------------- effect of the requests

  /** After the first `i` requests of a run, whatever their answers. */
  lemma PrefixEffect(srv: Server, p: seq<Request>, name: string, w: Content, oks: seq<bool>, i: nat)
    requires Tidy(srv) && Repairs(p, name, C(srv, name), w) && i <= |p|
    ensures Tidy(Issue(srv, p[..i], oks))
    ensures C(Issue(srv, p[..i], oks), name) == Patch(C(srv, name), w, Done(p[..i], oks, name))
    ensures forall n :: n != name ==> At(Issue(srv, p[..i], oks), n) == At(srv, n)
  {
    IssuePatches(srv, p[..i], oks, name, w);
    forall n | n != name ensures At(Issue(srv, p[..i], oks), n) == At(srv, n) {
      IssuePatches(srv, p[..i], oks, n, map[]);
    }
  }

  lemma WholeEffect(srv: Server, p: seq<Request>, name: string, w: Content, oks: seq<bool>)
    requires Tidy(srv) && Repairs(p, name, C(srv, name), w)
    ensures Tidy(Issue(srv, p, oks))
    ensures C(Issue(srv, p, oks), name) == Patch(C(srv, name), w, Done(p, oks, name))
    ensures forall n :: n != name ==> At(Issue(srv, p, oks), n) == At(srv, n)
  {
    PrefixEffect(srv, p, name, w, oks, |p|);
    assert p[..|p|] == p;
  }

  /** One run leaves every other upstream alone and keeps the server tidy. */
  lemma {:induction false} RunFrame(srv: Server, name: string, d: map<string, Backend>, oks: seq<bool>)
    requires Tidy(srv) && Keyed(d) && name != ""
    ensures Tidy(Synced(srv, name, d, oks))
    ensures forall n :: n != name ==> At(Synced(srv, name, d, oks), n) == At(srv, n)
  {
    PlanCovers(name, At(srv, name), d);
    WholeEffect(srv, RequestsFor(srv, name, d), name, Weights(d), oks);
  }

  // ------------------------------------------------------------- progress

  lemma {:induction false} PatchDifference(c: Content, w: Content, done: set<string>)
    ensures Difference(Patch(c, w, done), w) == Difference(c, w) - done
  {
  }

  lemma NoDifference(c: Content, w: Content)
    ensures Difference(c, w) == {} <==> c == w
  {
    if Difference(c, w) == {} {
      forall k | k in c || k in w ensures k in c && k in w && c[k] == w[k] {
        assert k !in Difference(c, w);
      }
    }
  }

  lemma {:induction false} ProgressOf(p: seq<Request>, name: string, c: Content, w: Content, oks: seq<bool>, x: Content)
    requires Repairs(p, name, c, w) && x == Patch(c, w, Done(p, oks, name))
    ensures |p| == |Difference(c, w)|
    ensures |Difference(x, w)| == |Difference(c, w)| - Successes(|p|, oks)
    ensures c == w <==> p == []
    ensures AllOk(|p|, oks) ==> x == w
  {
    var good := seq(|p|, _ => true);
    DoneWithin(p, name, c, w, good);
    AllSucceed(|p|, good);
    DoneWithin(p, name, c, w, oks);
    PatchDifference(c, w, Done(p, oks, name));
    NoDifference(c, w);
    NoDifference(x, w);
  }

  /** There is one request for each key that differs, and each success repairs exactly one. */
  lemma {:induction false} RunProgress(srv: Server, name: string, d: map<string, Backend>, oks: seq<bool>)
    requires Tidy(srv) && Keyed(d) && name != ""
    ensures
      var p, w := RequestsFor(srv, name, d), Weights(d);
      && |p| == |Difference(C(srv, name), w)|
      && |Difference(C(Synced(srv, name, d, oks), name), w)| == |Difference(C(srv, name), w)| - Successes(|p|, oks)
      && (C(srv, name) == w <==> p == [])
      && (AllOk(|p|, oks) ==> C(Synced(srv, name, d, oks), name) == w)
  {
    var p, w := RequestsFor(srv, name, d), Weights(d);
    PlanCovers(name, At(srv, name), d);
    WholeEffect(srv, p, name, w, oks);
    ProgressOf(p, name, C(srv, name), w, oks, C(Issue(srv, p, oks), name));
  }

  /** Runs one after the other, the j-th answered as `rounds[j]` says. */
  ghost function Rounds(srv: Server, name: string, d: map<string, Backend>, rounds: seq<seq<bool>>): Server {
    if rounds == [] then srv
    else Synced(Rounds(srv, name, d, rounds[..|rounds| - 1]), name, d, rounds[|rounds| - 1])
  }

  ghost predicate Progresses(srv: Server, name: string, d: map<string, Backend>, oks: seq<bool>) {
    var p := RequestsFor(srv, name, d);
    p == [] || Successes(|p|, oks) > 0
  }

  /** No round with something to do fails altogether. */
  ghost predicate EachRoundProgresses(srv: Server, name: string, d: map<string, Backend>, rounds: seq<seq<bool>>) {
    rounds == [] ||
    var n := |rounds| - 1;
    EachRoundProgresses(srv, name, d, rounds[..n]) && Progresses(Rounds(srv, name, d, rounds[..n]), name, d, rounds[n])
  }

  lemma {:induction false} RoundsShrink(srv: Server, name: string, d: map<string, Backend>, rounds: seq<seq<bool>>)
    requires Tidy(srv) && Keyed(d) && name != "" && EachRoundProgresses(srv, name, d, rounds)
    ensures Tidy(Rounds(srv, name, d, rounds))
    ensures
      var left := |Difference(C(Rounds(srv, name, d, rounds), name), Weights(d))|;
      left == 0 || left <= |Difference(C(srv, name), Weights(d))| - |rounds|
  {
    if rounds != [] {
      var n := |rounds| - 1;
      RoundsShrink(srv, name, d, rounds[..n]);
      var mid := Rounds(srv, name, d, rounds[..n]);
      RunProgress(mid, name, d, rounds[n]);
      RunFrame(mid, name, d, rounds[n]);
    }
  }

  /** Convergence: as many progressing runs as keys differ reach the desired content, and then no request is left. */
  lemma {:induction false} RoundsConverge(srv: Server, name: string, d: map<string, Backend>, rounds: seq<seq<bool>>)
    requires Tidy(srv) && Keyed(d) && name != "" && EachRoundProgresses(srv, name, d, rounds)
    requires |rounds| >= |Difference(C(srv, name), Weights(d))|
    ensures C(Rounds(srv, name, d, rounds), name) == Weights(d)
    ensures RequestsFor(Rounds(srv, name, d, rounds), name, d) == []
  {
    RoundsShrink(srv, name, d, rounds);
    NoDifference(C(Rounds(srv, name, d, rounds), name), Weights(d));
    RunProgress(Rounds(srv, name, d, rounds), name, d, []);
  }

  // --------------------------------------------------------------- bounds

  /** `x` lies between `c` and `w`: every key keeps its old state or has its new one. */
  ghost predicate Between(c: Content, w: Content, x: Content) {
    && c.Keys * w.Keys <= x.Keys <= c.Keys + w.Keys
    && forall k :: k in x ==> (k in c && x[k] == c[k]) || (k in w && x[k] == w[k])
  }

  /** What a caller may rely on: success is exact, and failure stays between. */
  ghost predicate Outcome(c: Content, w: Content, ok: bool, x: Content) {
    Between(c, w, x) && (ok ==> x == w)
  }

  /** After every single request of a run, and at its end, the upstream lies between old and desired. */
  lemma {:induction false} RunOutcome(srv: Server, name: string, d: map<string, Backend>, oks: seq<bool>, i: nat)
    requires Tidy(srv) && Keyed(d) && name != "" && i <= |RequestsFor(srv, name, d)|
    ensures Between(C(srv, name), Weights(d), C(Issue(srv, RequestsFor(srv, name, d)[..i], oks), name))
    ensures Outcome(C(srv, name), Weights(d), AllOk(|RequestsFor(srv, name, d)|, oks),
      C(Synced(srv, name, d, oks), name))
  {
    var p := RequestsFor(srv, name, d);
    PlanCovers(name, At(srv, name), d);
    PrefixEffect(srv, p, name, Weights(d), oks, i);
    WholeEffect(srv, p, name, Weights(d), oks);
    RunProgress(srv, name, d, oks);
  }

  // ---------------------------------------------------- make before break

  lemma KeysKept(p: seq<Request>, name: string, c: Content, w: Content, oks: seq<bool>, i: nat, x: Content)
    requires Repairs(p, name, c, w) && i <= |p| && x == Patch(c, w, Done(p[..i], oks, name))
    ensures (forall j :: 0 <= j < i ==> p[j].Put?) ==> c.Keys <= x.Keys
    ensures (forall j: nat :: j < |p| && p[j].Put? ==> j < i && OkAt(oks, j)) ==> w.Keys <= x.Keys
    ensures c != map[] && w != map[] && (forall j: nat :: j < |p| && p[j].Put? ==> OkAt(oks, j)) ==> x != map[]
  {
    if c != map[] && w != map[] && forall j: nat :: j < |p| && p[j].Put? ==> OkAt(oks, j) {
      var k, l :| k in c && l in w;
    }
    if forall j :: 0 <= j < i ==> p[j].Put? {
      forall k | k in c ensures k in x { DonePrefix(p, i, oks, name, k); }
    }
    if forall j: nat :: j < |p| && p[j].Put? ==> j < i && OkAt(oks, j) {
      forall k | k in w ensures k in x {
        if k in Difference(c, w) {
          assert k in KeysIn(p);
          var r :| r in p && r.key == k;
          var j :| 0 <= j < |p| && p[j] == r;
          DonePrefix(p, i, oks, name, k);
        }
      }
    }
  }

  /** No old backend goes before all additions were tried; after successful additions every desired one is there;
      so the upstream is never empty in between. */
  lemma {:induction false} MakeBeforeBreak(srv: Server, name: string, d: map<string, Backend>, oks: seq<bool>, i: nat)
    requires Tidy(srv) && Keyed(d) && name != "" && i <= |RequestsFor(srv, name, d)|
    ensures
      var p := RequestsFor(srv, name, d);
      var x := C(Issue(srv, p[..i], oks), name);
      && ((forall j :: 0 <= j < i ==> p[j].Put?) ==> C(srv, name).Keys <= x.Keys)
      && ((forall j: nat :: j < |p| && p[j].Put? ==> j < i && OkAt(oks, j)) ==> d.Keys <= x.Keys)
      && (C(srv, name) != map[] && d != map[] && (forall j: nat :: j < |p| && p[j].Put? ==> OkAt(oks, j)) ==>
        x != map[])
  {
    var p, c := RequestsFor(srv, name, d), C(srv, name);
    PlanCovers(name, At(srv, name), d);
    PrefixEffect(srv, p, name, Weights(d), oks, i);
    var x := C(Issue(srv, p[..i], oks), name);
    KeysKept(p, name, c, Weights(d), oks, i, x);
    if d != map[] { var k :| k in d; assert k in Weights(d); }
  }

  lemma PatchEmpty(c: Content, w: Content, done: set<string>)
    ensures Patch(c, w, done) == map[] <==> c.Keys <= done && c.Keys !! w.Keys && w.Keys !! done
  {
    var x := Patch(c, w, done);
    if x == map[] {
      forall k | k in c ensures k !in w && k in done { assert k !in x; }
      forall k | k in w ensures k !in done { assert k !in x; }
    }
    if c.Keys <= done && c.Keys !! w.Keys && w.Keys !! done {
      assert forall k :: k !in x;
    }
  }

  lemma EmptiedOf(p: seq<Request>, name: string, c: Content, w: Content, oks: seq<bool>)
    requires Repairs(p, name, c, w)
    ensures Patch(c, w, Done(p, oks, name)) == map[] <==>
      c.Keys !! w.Keys && forall i: nat :: i < |p| ==> (OkAt(oks, i) <==> p[i].Del?)
  {
    var done := Done(p, oks, name);
    assert p[..|p|] == p;
    PatchEmpty(c, w, done);
    if c.Keys <= done && c.Keys !! w.Keys && w.Keys !! done {
      forall i: nat | i < |p| ensures OkAt(oks, i) <==> p[i].Del? {
        assert p[i] in p && p[i].key in KeysIn(p);
        assert p[i].key in Difference(c, w);
        DonePrefix(p, |p|, oks, name, p[i].key);
      }
    }
    if c.Keys !! w.Keys && forall i: nat :: i < |p| ==> (OkAt(oks, i) <==> p[i].Del?) {
      forall k | k in c.Keys + w.Keys ensures k in done <==> k !in w {
        DonePrefix(p, |p|, oks, name, k);
        assert k in Difference(c, w);
        var r :| r in p && r.key == k;
        var j :| 0 <= j < |p| && p[j] == r;
      }
    }
  }

  /** Exactly when a run empties an upstream that should not be empty:
      nothing old was to be kept, every addition failed, and every removal went through. */
  lemma {:induction false} EmptiedIff(srv: Server, name: string, d: map<string, Backend>, oks: seq<bool>)
    requires Tidy(srv) && Keyed(d) && name != ""
    ensures
      var p := RequestsFor(srv, name, d);
      At(Synced(srv, name, d, oks), name) == [] <==>
        C(srv, name).Keys !! d.Keys && forall i: nat :: i < |p| ==> (OkAt(oks, i) <==> p[i].Del?)
  {
    var p := RequestsFor(srv, name, d);
    PlanCovers(name, At(srv, name), d);
    WholeEffect(srv, p, name, Weights(d), oks);
    EmptyContent(At(Synced(srv, name, d, oks), name));
    EmptiedOf(p, name, C(srv, name), Weights(d), oks);
  }

  /** The order of the requests alone does not guard an upstream: one concrete run with a failed addition empties it. */
  lemma FailedAddEmpties()
    ensures
      var srv := map["app" := [Backend("10.0.0.1", 80, 1)]];
      var d := Desired([Backend("10.0.0.2", 80, 1)]);
      && Tidy(srv) && d != map[]
      && exists oks :: At(Synced(srv, "app", d, oks), "app") == []
  {
    var was, next := Backend("10.0.0.1", 80, 1), Backend("10.0.0.2", 80, 1);
    var srv := map["app" := [was]];
    assert Desired([next][..0]) == map[];
    var d := Desired([next]);
    assert BackendKey(next) in d && d.Keys == {BackendKey(next)};
    DistinctExample(was, next);
    ContentKeys([was]);
    assert At(srv, "app") == [was] && KeysOf([was]) == {BackendKey(was)};
    var p := RequestsFor(srv, "app", d);
    var oks := seq(|p|, i requires 0 <= i < |p| => p[i].Del?);
    EmptiedIff(srv, "app", d, oks);
  }

  lemma DistinctExample(a: Backend, b: Backend)
    requires a.ip == "10.0.0.1" && b.ip == "10.0.0.2" && a.port == b.port
    ensures BackendKey(a) != BackendKey(b)
  {
    assert TrimLeft(a.ip, IsSpace) == a.ip && TrimRight(a.ip, IsSpace) == a.ip;
    assert TrimLeft(b.ip, IsSpace) == b.ip && TrimRight(b.ip, IsSpace) == b.ip;
    assert TrimLeft(a.ip, IsBracket) == a.ip && TrimRight(a.ip, IsBracket) == a.ip;
    assert TrimLeft(b.ip, IsBracket) == b.ip && TrimRight(b.ip, IsBracket) == b.ip;
    SameIffKey(a, b);
    assert a.ip[7] != b.ip[7];
  }
}

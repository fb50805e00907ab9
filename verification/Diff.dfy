/** How the NGINX adapter turns a desired set of backends into requests, and what any prefix of them does. */
module Diff {
  import opened Text
  import opened Sorting
  import opened Backends

  // ------------------------------------------------------ backend identity

  function CleanIP(ip: string): string { Trim(TrimSpace(ip), IsBracket) }

  /** An address is what is left without white space around it, and then without brackets. */
  lemma CleanIPIff(ip: string, core: string)
    ensures CleanIP(ip) == core <==>
      && (core != [] ==> !IsBracket(core[0]) && !IsBracket(core[|core| - 1]))
      && exists pre, mid, post ::
        && ip == pre + mid + post && All(IsSpace, pre) && All(IsSpace, post)
        && (mid != [] ==> !IsSpace(mid[0]) && !IsSpace(mid[|mid| - 1]))
        && exists open, close :: mid == open + core + close && All(IsBracket, open) && All(IsBracket, close)
  {
    TrimIff(ip, TrimSpace(ip), IsSpace);
    TrimIff(TrimSpace(ip), core, IsBracket);
    if pre, mid, post :|
      && ip == pre + mid + post && All(IsSpace, pre) && All(IsSpace, post)
      && (mid != [] ==> !IsSpace(mid[0]) && !IsSpace(mid[|mid| - 1]))
      && exists open, close :: mid == open + core + close && All(IsBracket, open) && All(IsBracket, close)
    {
      TrimIff(ip, mid, IsSpace);
      assert mid == TrimSpace(ip);
    }
  }

  predicate SameBackend(a: Backend, b: Backend) { CleanIP(a.ip) == CleanIP(b.ip) && a.port == b.port }

  function BackendKey(b: Backend): string { CleanIP(b.ip) + ":" + Print(b.port) }

  function FormatServerAddr(b: Backend): string {
    var ip := CleanIP(b.ip);
    if ':' in ip then "[" + ip + "]:" + Print(b.port) else ip + ":" + Print(b.port)
  }

  lemma SameIffKey(a: Backend, b: Backend)
    ensures SameBackend(a, b) <==> BackendKey(a) == BackendKey(b)
  {
    if BackendKey(a) == BackendKey(b) {
      KeyTextInjective(BKey(CleanIP(a.ip), a.port), BKey(CleanIP(b.ip), b.port));
    }
  }

  lemma {:induction false} TrimLeftStops(s: string, cut: char -> bool)
    ensures TrimLeft(s, cut) != [] ==> !cut(TrimLeft(s, cut)[0])
  {
    if s != [] && cut(s[0]) { TrimLeftStops(s[1..], cut); }
  }

  lemma {:induction false} TrimRightPrefix(s: string, cut: char -> bool)
    ensures TrimRight(s, cut) <= s
  {
    if s != [] && cut(s[|s| - 1]) { TrimRightPrefix(s[..|s| - 1], cut); }
  }

  /** The server address put into a request names the same backend as the key does. */
  lemma AddrIffKey(a: Backend, b: Backend)
    ensures FormatServerAddr(a) == FormatServerAddr(b) <==> BackendKey(a) == BackendKey(b)
  {
    SameIffKey(a, b);
    if FormatServerAddr(a) == FormatServerAddr(b) {
      var x, y := CleanIP(a.ip), CleanIP(b.ip);
      var s := if ':' in x then "[" + x + "]" else x;
      var t := if ':' in y then "[" + y + "]" else y;
      assert FormatServerAddr(a) == s + ":" + Print(a.port);
      assert FormatServerAddr(b) == t + ":" + Print(b.port);
      KeyTextInjective(BKey(s, a.port), BKey(t, b.port));
      NoLeadingBracket(a.ip);
      NoLeadingBracket(b.ip);
      assert |x| == |s| - 2 ==> x == s[1..|s| - 1];
      assert |y| == |t| - 2 ==> y == t[1..|t| - 1];
    }
  }

  lemma NoLeadingBracket(ip: string)
    ensures CleanIP(ip) != [] ==> CleanIP(ip)[0] != '['
  {
    TrimLeftStops(TrimSpace(ip), IsBracket);
    TrimRightPrefix(TrimLeft(TrimSpace(ip), IsBracket), IsBracket);
  }

  // -------------------------------------------------------------- contents

  /** Weight of each backend of one upstream, by backend key. */
  type Content = map<string, int>

  function ContentOf(bs: seq<Backend>): Content {
    if bs == [] then map[] else ContentOf(bs[1..])[BackendKey(bs[0]) := bs[0].weight]
  }

  function KeysOf(bs: seq<Backend>): set<string> { set b | b in bs :: BackendKey(b) }

  lemma {:induction false} ContentKeys(bs: seq<Backend>)
    ensures ContentOf(bs).Keys == KeysOf(bs)
  {
    if bs != [] {
      ContentKeys(bs[1..]);
      assert bs == [bs[0]] + bs[1..];
    }
  }

  ghost predicate Unique(bs: seq<Backend>) {
    forall i, j :: 0 <= i < j < |bs| ==> BackendKey(bs[i]) != BackendKey(bs[j])
  }

  lemma {:induction false} KeysOfIndex(bs: seq<Backend>, k: string)
    ensures k in KeysOf(bs) <==> exists i :: 0 <= i < |bs| && BackendKey(bs[i]) == k
  {
    if k in KeysOf(bs) {
      var b :| b in bs && BackendKey(b) == k;
      var i :| 0 <= i < |bs| && bs[i] == b;
      assert BackendKey(bs[i]) == k;
    }
    if i :| 0 <= i < |bs| && BackendKey(bs[i]) == k { assert bs[i] in bs; }
  }

  lemma {:induction false} ContentAt(bs: seq<Backend>, i: nat)
    requires Unique(bs) && i < |bs|
    ensures BackendKey(bs[i]) in ContentOf(bs) && ContentOf(bs)[BackendKey(bs[i])] == bs[i].weight
  {
    if i > 0 { ContentAt(bs[1..], i - 1); }
  }

  lemma {:induction false} ContentMembers(bs: seq<Backend>)
    requires Unique(bs)
    ensures forall k :: k in ContentOf(bs) <==> exists i :: 0 <= i < |bs| && BackendKey(bs[i]) == k
    ensures forall i :: 0 <= i < |bs| ==>
      BackendKey(bs[i]) in ContentOf(bs) && ContentOf(bs)[BackendKey(bs[i])] == bs[i].weight
  {
    ContentKeys(bs);
    forall k ensures k in ContentOf(bs) <==> exists i :: 0 <= i < |bs| && BackendKey(bs[i]) == k { KeysOfIndex(bs, k); }
    forall i | 0 <= i < |bs|
      ensures BackendKey(bs[i]) in ContentOf(bs) && ContentOf(bs)[BackendKey(bs[i])] == bs[i].weight
    {
      ContentAt(bs, i);
    }
  }

  // ------------------------------------------------------ one NGINX server

  /** The listing of one server: its non-empty upstreams. */
  type Server = map<string, seq<Backend>>

  function At(srv: Server, name: string): seq<Backend> { if name in srv then srv[name] else [] }

  function Store(srv: Server, name: string, bs: seq<Backend>): Server {
    if bs == [] then srv - {name} else srv[name := bs]
  }

  ghost predicate Tidy(srv: Server) {
    forall name :: name in srv ==> name != "" && srv[name] != [] && Unique(srv[name])
  }

  /** A request names its backend by key, as its URL does by address (see `AddrIffKey`). */
  datatype Request = Put(upstream: string, key: string, backend: Backend) | Del(upstream: string, key: string)

  ghost predicate WellKeyed(reqs: seq<Request>) {
    forall i :: 0 <= i < |reqs| ==>
      reqs[i].upstream != "" && (reqs[i].Put? ==> reqs[i].key == BackendKey(reqs[i].backend))
  }

  /** Adding a backend that is there already sets its weight. */
  function Upsert(bs: seq<Backend>, b: Backend): seq<Backend> {
    if bs == [] then [b]
    else if BackendKey(bs[0]) == BackendKey(b) then [bs[0].(weight := b.weight)] + bs[1..]
    else [bs[0]] + Upsert(bs[1..], b)
  }

  function Without(bs: seq<Backend>, key: string): seq<Backend> {
    if bs == [] then []
    else if BackendKey(bs[0]) == key then bs[1..]
    else [bs[0]] + Without(bs[1..], key)
  }

  /** A request that fails changes nothing. */
  function Serve(srv: Server, r: Request, ok: bool): Server {
    if !ok then srv
    else match r
      case Put(name, _, b) => Store(srv, name, Upsert(At(srv, name), b))
      case Del(name, key) => Store(srv, name, Without(At(srv, name), key))
  }

  predicate OkAt(oks: seq<bool>, i: nat) { i < |oks| && oks[i] }

  /** The server after the requests `reqs`, the i-th of which was answered as `oks[i]` says. */
  function Issue(srv: Server, reqs: seq<Request>, oks: seq<bool>): Server {
    if reqs == [] then srv
    else Serve(Issue(srv, reqs[..|reqs| - 1], oks), reqs[|reqs| - 1], OkAt(oks, |reqs| - 1))
  }

  lemma {:induction false} IssueExtends(srv: Server, reqs: seq<Request>, oks: seq<bool>, ok: bool)
    requires |reqs| <= |oks|
    ensures Issue(srv, reqs, oks + [ok]) == Issue(srv, reqs, oks)
  {
    if reqs != [] { IssueExtends(srv, reqs[..|reqs| - 1], oks, ok); }
  }

  lemma UniqueTail(bs: seq<Backend>)
    requires Unique(bs) && bs != []
    ensures Unique(bs[1..]) && BackendKey(bs[0]) !in ContentOf(bs[1..])
  {
    ContentMembers(bs[1..]);
    assert forall i :: 0 <= i < |bs[1..]| ==> bs[1..][i] == bs[i + 1];
  }

  lemma {:induction false} UniqueCons(b: Backend, rest: seq<Backend>)
    requires Unique(rest) && BackendKey(b) !in ContentOf(rest)
    ensures Unique([b] + rest)
    ensures ContentOf([b] + rest) == ContentOf(rest)[BackendKey(b) := b.weight]
  {
    ContentMembers(rest);
    assert ([b] + rest)[1..] == rest;
  }

  lemma {:induction false} UpsertContent(bs: seq<Backend>, b: Backend)
    requires Unique(bs)
    ensures Unique(Upsert(bs, b)) && ContentOf(Upsert(bs, b)) == ContentOf(bs)[BackendKey(b) := b.weight]
  {
    hide CleanIP;
    if bs != [] {
      UniqueTail(bs);
      if BackendKey(bs[0]) == BackendKey(b) {
        UniqueCons(bs[0].(weight := b.weight), bs[1..]);
      } else {
        UpsertContent(bs[1..], b);
        UniqueCons(bs[0], Upsert(bs[1..], b));
      }
    } else {
      UniqueCons(b, []);
    }
  }

  lemma {:induction false} WithoutContent(bs: seq<Backend>, key: string)
    requires Unique(bs)
    ensures Unique(Without(bs, key)) && ContentOf(Without(bs, key)) == ContentOf(bs) - {key}
  {
    if bs != [] {
      UniqueTail(bs);
      if BackendKey(bs[0]) != key {
        WithoutContent(bs[1..], key);
        UniqueCons(bs[0], Without(bs[1..], key));
      }
    }
  }

  lemma EmptyContent(bs: seq<Backend>)
    ensures bs == [] <==> ContentOf(bs) == map[]
  {
    if bs != [] { assert BackendKey(bs[0]) in ContentOf(bs); }
  }

  // ----------------------------------------------- what requests amount to

  /** `c` with the keys in `done` set to what `w` says of them. */
  function Patch(c: Content, w: Content, done: set<string>): Content {
    map k | k in c.Keys + w.Keys && (if k in done then k in w else k in c) :: if k in done then w[k] else c[k]
  }

  /** Each request about the upstream `name` moves one key to its value in `w`. */
  ghost predicate Toward(reqs: seq<Request>, name: string, w: Content) {
    forall i :: 0 <= i < |reqs| && reqs[i].upstream == name ==>
      match reqs[i]
      case Put(_, _, b) => reqs[i].key in w && w[reqs[i].key] == b.weight
      case Del(_, _) => reqs[i].key !in w
  }

  /** Keys of `name` whose request succeeded. */
  ghost function Done(reqs: seq<Request>, oks: seq<bool>, name: string): set<string> {
    set i | 0 <= i < |reqs| && reqs[i].upstream == name && OkAt(oks, i) :: reqs[i].key
  }

  lemma {:induction false} DoneStep(reqs: seq<Request>, oks: seq<bool>, name: string)
    requires reqs != []
    ensures
      var n := |reqs| - 1;
      Done(reqs, oks, name) == Done(reqs[..n], oks, name)
        + (if reqs[n].upstream == name && OkAt(oks, n) then {reqs[n].key} else {})
  {
    var n := |reqs| - 1;
    var d, e := Done(reqs, oks, name), Done(reqs[..n], oks, name);
    forall k | k in e ensures k in d {
      var i :| 0 <= i < n && reqs[..n][i].upstream == name && OkAt(oks, i) && reqs[..n][i].key == k;
      assert reqs[i].key == k;
    }
    forall k | k in d && k !in e ensures reqs[n].upstream == name && OkAt(oks, n) && k == reqs[n].key {
      var i :| 0 <= i < |reqs| && reqs[i].upstream == name && OkAt(oks, i) && reqs[i].key == k;
    }
  }

  lemma ServeContent(srv: Server, r: Request, ok: bool)
    requires Tidy(srv) && WellKeyed([r])
    ensures Tidy(Serve(srv, r, ok))
    ensures forall n :: n != r.upstream ==> At(Serve(srv, r, ok), n) == At(srv, n)
    ensures ContentOf(At(Serve(srv, r, ok), r.upstream)) ==
      if !ok then ContentOf(At(srv, r.upstream))
      else if r.Put? then ContentOf(At(srv, r.upstream))[r.key := r.backend.weight]
      else ContentOf(At(srv, r.upstream)) - {r.key}
  {
    assert [r][0].upstream != "";
    match r
    case Put(name, key, b) =>
      assert [r][0].key == BackendKey(b);
      UpsertContent(At(srv, name), b);
    case Del(name, key) =>
      WithoutContent(At(srv, name), key);
      EmptyContent(Without(At(srv, name), key));
  }

  lemma {:induction false} PatchStep(c: Content, w: Content, done: set<string>, k: string)
    ensures k in w ==> Patch(c, w, done)[k := w[k]] == Patch(c, w, done + {k})
    ensures k !in w ==> Patch(c, w, done) - {k} == Patch(c, w, done + {k})
  {
    var l, r := if k in w then Patch(c, w, done)[k := w[k]] else Patch(c, w, done) - {k}, Patch(c, w, done + {k});
    assert forall j :: j in l <==> j in r;
    assert forall j :: j in l ==> l[j] == r[j];
  }

  lemma {:induction false} PatchNone(c: Content, w: Content)
    ensures Patch(c, w, {}) == c
  {
  }

  /** The master lemma: requests toward `w`, answered in any way, patch exactly the keys that succeeded. */
  lemma {:induction false} IssuePatches(srv: Server, reqs: seq<Request>, oks: seq<bool>, name: string, w: Content)
    requires Tidy(srv) && Toward(reqs, name, w)
    requires WellKeyed(reqs)
    ensures Tidy(Issue(srv, reqs, oks))
    ensures ContentOf(At(Issue(srv, reqs, oks), name)) == Patch(ContentOf(At(srv, name)), w, Done(reqs, oks, name))
    ensures (forall i :: 0 <= i < |reqs| ==> reqs[i].upstream != name) ==>
      At(Issue(srv, reqs, oks), name) == At(srv, name)
  {
    var c := ContentOf(At(srv, name));
    if reqs == [] {
      assert Done(reqs, oks, name) == {};
      PatchNone(c, w);
    } else {
      var n := |reqs| - 1;
      IssuePatches(srv, reqs[..n], oks, name, w);
      ServeContent(Issue(srv, reqs[..n], oks), reqs[n], OkAt(oks, n));
      DoneStep(reqs, oks, name);
      PatchStep(c, w, Done(reqs[..n], oks, name), reqs[n].key);
      assert Done(reqs[..n], oks, name) + {} == Done(reqs[..n], oks, name);
    }
  }

  // ---------------------------------------------------------- aggregation

  function Clamp(w: int): int { if w < 1 then 1 else w }

  function Weights(d: map<string, Backend>): Content { map k | k in d :: d[k].weight }

  ghost predicate Keyed(d: map<string, Backend>) { forall k :: k in d ==> BackendKey(d[k]) == k }

  /** Backends with one key become one, their weights (at least 1 each) added up. */
  function Desired(bs: seq<Backend>): (d: map<string, Backend>)
    ensures Keyed(d)
  {
    if bs == [] then map[] else WithDesired(Desired(bs[..|bs| - 1]), bs[|bs| - 1])
  }

  function WithDesired(d: map<string, Backend>, b: Backend): (d': map<string, Backend>)
    ensures Keyed(d) ==> Keyed(d')
  {
    var k := BackendKey(b);
    d[k := if k in d then d[k].(weight := d[k].weight + Clamp(b.weight)) else b.(weight := Clamp(b.weight))]
  }

  /** The content NGINX should have for the list `bs`. */
  function Wanted(bs: seq<Backend>): Content { Weights(Desired(bs)) }

  /** A single backend is wanted with its weight, raised to 1 if need be. */
  lemma {:induction false} WantedOne(b: Backend)
    ensures Wanted([b]) == map[BackendKey(b) := if b.weight >= 1 then b.weight else 1]
  {
    hide BackendKey;
    assert [b][..0] == [];
    assert Desired([b]) == WithDesired(Desired([b][..0]), b);
  }

  function SumClamped(bs: seq<Backend>): int {
    if bs == [] then 0 else SumClamped(bs[..|bs| - 1]) + Clamp(bs[|bs| - 1].weight)
  }

  function ContentPlus(c: Content, k: string, w: int): Content { c[k := (if k in c then c[k] else 0) + w] }

  lemma {:induction false} WantedStep(d: map<string, Backend>, b: Backend)
    ensures Weights(WithDesired(d, b)) == ContentPlus(Weights(d), BackendKey(b), Clamp(b.weight))
  {
    var k := BackendKey(b);
    if k in d {
      WeightsSet(d, k, d[k].(weight := d[k].weight + Clamp(b.weight)));
    } else {
      WeightsSet(d, k, b.(weight := Clamp(b.weight)));
    }
  }

  lemma {:induction false} WeightsSet(d: map<string, Backend>, k: string, b: Backend)
    ensures Weights(d[k := b]) == Weights(d)[k := b.weight]
  {
  }

  /** Aggregation loses no weight and no key, and every weight is positive. */
  lemma {:induction false} WantedConserves(bs: seq<Backend>)
    ensures Total(Wanted(bs)) == SumClamped(bs)
    ensures Wanted(bs).Keys == KeysOf(bs)
    ensures forall k :: k in Wanted(bs) ==> Wanted(bs)[k] >= 1
  {
    if bs != [] {
      var n := |bs| - 1;
      WantedConserves(bs[..n]);
      WantedStep(Desired(bs[..n]), bs[n]);
      TotalSet(Wanted(bs[..n]), BackendKey(bs[n]), Wanted(bs)[BackendKey(bs[n])]);
      KeysOfStep(bs);
    }
  }

  lemma {:induction false} KeysOfStep(bs: seq<Backend>)
    requires bs != []
    ensures KeysOf(bs) == KeysOf(bs[..|bs| - 1]) + {BackendKey(bs[|bs| - 1])}
  {
    assert bs == bs[..|bs| - 1] + [bs[|bs| - 1]];
  }

  // ------------------------------------------------------------- the plan

  lemma {:induction false} LessOrder()
    ensures StrictOrder(Less)
  {
    forall x ensures !Less(x, x) { LessIrreflexive(x); }
    forall x, y, z | Less(x, y) && Less(y, z) ensures Less(x, z) { LessTransitive(x, y, z); }
  }

  /** The ascending enumeration of a set of keys. */
  ghost function Ordered(keys: set<string>): (s: seq<string>)
    ensures Ascending(Less, s)
    ensures forall x :: x in s <==> x in keys
  {
    if keys == {} then []
    else
      var k :| k in keys;
      var rest := Ordered(keys - {k});
      LessOrder();
      assert forall y :: y in rest ==> Less(k, y) || Less(y, k) by {
        forall y | y in rest ensures Less(k, y) || Less(y, k) { LessTotal(k, y); }
      }
      InsertAscends(Less, rest, k);
      InsertMembers(Less, rest, k);
      Insert(Less, rest, k)
  }

  ghost function Updates(c: Content, d: map<string, Backend>): set<string> {
    set k | k in d && !(k in c && c[k] == d[k].weight)
  }

  function Removes(bs: seq<Backend>, d: map<string, Backend>): set<string> { KeysOf(bs) - d.Keys }

  function PutFor(name: string, k: string, d: map<string, Backend>): Request {
    Put(name, k, if k in d then d[k] else Backend("", 0, 0))
  }

  ghost function Puts(name: string, ks: seq<string>, d: map<string, Backend>): seq<Request> {
    seq(|ks|, i requires 0 <= i < |ks| => PutFor(name, ks[i], d))
  }

  ghost function Dels(name: string, ks: seq<string>): seq<Request> {
    seq(|ks|, i requires 0 <= i < |ks| => Del(name, ks[i]))
  }

  /** All additions and weight changes in key order, then all removals in key order. */
  ghost function Plan(name: string, bs: seq<Backend>, d: map<string, Backend>): seq<Request> {
    Puts(name, Ordered(Updates(ContentOf(bs), d)), d) + Dels(name, Ordered(Removes(bs, d)))
  }

  /** Keys on which two contents differ. */
  ghost function Difference(c: Content, w: Content): set<string> {
    set k | k in c.Keys + w.Keys && !(k in c && k in w && c[k] == w[k])
  }

  lemma AscendingDistinct(s: seq<string>)
    requires Ascending(Less, s)
    ensures forall i, j :: 0 <= i < j < |s| ==> s[i] != s[j]
  {
    LessOrder();
  }

  /** The requests `p` repair the content `c` of the upstream `name` toward `w`, additions first. */
  ghost predicate Repairs(p: seq<Request>, name: string, c: Content, w: Content) {
    && WellKeyed(p)
    && (forall i :: 0 <= i < |p| ==> p[i].upstream == name && (p[i].Put? <==> p[i].key in w))
    && (forall i :: 0 <= i < |p| && p[i].Put? ==> p[i].key in w && w[p[i].key] == p[i].backend.weight)
    && (forall k :: k in Difference(c, w) <==> k in KeysIn(p))
    && (forall i, j :: 0 <= i < j < |p| ==> p[i].key != p[j].key)
    && (forall i, j :: 0 <= i < j < |p| && p[j].Put? ==> p[i].Put?)
  }

  ghost function KeysIn(p: seq<Request>): set<string> { set r | r in p :: r.key }

  lemma {:induction false} PutsShape(name: string, ks: seq<string>, d: map<string, Backend>)
    requires forall k :: k in ks ==> k in d
    ensures forall i :: 0 <= i < |ks| ==> ks[i] in d && Puts(name, ks, d)[i] == Put(name, ks[i], d[ks[i]])
  {
    forall i | 0 <= i < |ks| ensures ks[i] in d && Puts(name, ks, d)[i] == Put(name, ks[i], d[ks[i]]) {
      assert ks[i] in ks;
    }
  }

  lemma {:induction false} DelsShape(ks: seq<string>, d: map<string, Backend>)
    requires forall k :: k in ks ==> k !in d
    ensures forall i :: 0 <= i < |ks| ==> ks[i] !in d
  {
    forall i | 0 <= i < |ks| ensures ks[i] !in d { assert ks[i] in ks; }
  }

  lemma {:induction false} JoinKeys(p: seq<Request>, ks: seq<string>)
    requires |p| == |ks| && forall i :: 0 <= i < |p| ==> p[i].key == ks[i]
    ensures forall k :: k in KeysIn(p) <==> k in ks
  {
    forall k | k in KeysIn(p) ensures k in ks {
      var r :| r in p && r.key == k;
      var i :| 0 <= i < |p| && p[i] == r;
      assert ks[i] == k;
    }
    forall k | k in ks ensures k in KeysIn(p) {
      var i :| 0 <= i < |ks| && ks[i] == k;
      assert p[i] in p;
    }
  }

  lemma PlanRepairs(name: string, us: seq<string>, rs: seq<string>, d: map<string, Backend>, c: Content)
    requires Keyed(d) && name != ""
    requires (forall k :: k in us ==> k in d) && (forall k :: k in rs ==> k !in d)
    requires forall k :: k in us + rs <==> k in Difference(c, Weights(d))
    requires forall i, j :: 0 <= i < j < |us + rs| ==> (us + rs)[i] != (us + rs)[j]
    ensures Repairs(Puts(name, us, d) + Dels(name, rs), name, c, Weights(d))
  {
    hide BackendKey, Difference;
    var p, ks := Puts(name, us, d) + Dels(name, rs), us + rs;
    PutsShape(name, us, d);
    DelsShape(rs, d);
    assert forall i :: 0 <= i < |us| ==> p[i] == Put(name, ks[i], d[ks[i]]) && ks[i] in d;
    assert forall i :: |us| <= i < |p| ==> p[i] == Del(name, ks[i]) && ks[i] !in d;
    JoinKeys(p, ks);
  }

  lemma ConcatDistinct(us: seq<string>, rs: seq<string>)
    requires forall i, j :: 0 <= i < j < |us| ==> us[i] != us[j]
    requires forall i, j :: 0 <= i < j < |rs| ==> rs[i] != rs[j]
    requires forall k :: k in us ==> k !in rs
    ensures forall i, j :: 0 <= i < j < |us + rs| ==> (us + rs)[i] != (us + rs)[j]
  {
    forall i, j | 0 <= i < j < |us + rs| ensures (us + rs)[i] != (us + rs)[j] {
      if i < |us| <= j { assert us[i] in us && rs[j - |us|] in rs; }
    }
  }

  /** The plan holds one request for each key that differs, and each request repairs its key. */
  lemma {:induction false} PlanCovers(name: string, bs: seq<Backend>, d: map<string, Backend>)
    requires Keyed(d) && name != ""
    ensures Repairs(Plan(name, bs, d), name, ContentOf(bs), Weights(d))
  {
    hide BackendKey, Repairs;
    var us, rs := Ordered(Updates(ContentOf(bs), d)), Ordered(Removes(bs, d));
    ContentKeys(bs);
    AscendingDistinct(us);
    AscendingDistinct(rs);
    ConcatDistinct(us, rs);
    assert Updates(ContentOf(bs), d) + Removes(bs, d) == Difference(ContentOf(bs), Weights(d));
    PlanRepairs(name, us, rs, d, ContentOf(bs));
  }
}

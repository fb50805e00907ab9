/** Backends of an upstream, and the merge that adds their weights up. */
module Backends {
  import opened Text
  import opened Sorting

  datatype BKey = BKey(ip: string, port: int)

  datatype Backend = Backend(ip: string, port: int, weight: int) {
    function Key(): BKey { BKey(ip, port) }
  }

  /** What two backends must share for their weights to be added. */
  function KeyText(k: BKey): string { k.ip + ":" + Print(k.port) }

  /** The text names one address and port, although an IPv6 address holds colons itself. */
  lemma KeyTextInjective(a: BKey, b: BKey)
    requires KeyText(a) == KeyText(b)
    ensures a == b
  {
    PrintedChars(a.port);
    PrintedChars(b.port);
    CutLastColon(a.ip, Print(a.port), b.ip, Print(b.port));
    ParsePrint(a.port);
    ParsePrint(b.port);
  }

  // ---------------------------------------------------------------- tallies

  /** The weight found at each address and port: what a list of backends amounts to. */
  type Tally = map<BKey, int>

  function Get(t: Tally, k: BKey): int { if k in t then t[k] else 0 }

  function Plus(t: Tally, k: BKey, w: int): Tally { t[k := Get(t, k) + w] }

  function TallyOf(s: seq<Backend>): Tally {
    if s == [] then map[] else Plus(TallyOf(s[..|s| - 1]), s[|s| - 1].Key(), s[|s| - 1].weight)
  }

  function Add(t: Tally, u: Tally): Tally {
    map k | k in t.Keys + u.Keys :: Get(t, k) + Get(u, k)
  }

  lemma {:induction false} AddPlus(t: Tally, u: Tally, k: BKey, w: int)
    ensures Add(t, Plus(u, k, w)) == Plus(Add(t, u), k, w)
  {
    var l, r := Add(t, Plus(u, k, w)), Plus(Add(t, u), k, w);
    assert l.Keys == r.Keys;
    forall j | j in l ensures l[j] == r[j] {}
  }

  lemma {:induction false} AddCommutes(t: Tally, u: Tally)
    ensures Add(t, u) == Add(u, t)
  {
  }

  lemma {:induction false} AddAssociates(t: Tally, u: Tally, v: Tally)
    ensures Add(Add(t, u), v) == Add(t, Add(u, v))
  {
    var l, r := Add(Add(t, u), v), Add(t, Add(u, v));
    assert l.Keys == r.Keys;
    forall j | j in l ensures l[j] == r[j] {}
  }

  lemma {:induction false} TallyConcat(a: seq<Backend>, b: seq<Backend>)
    ensures TallyOf(a + b) == Add(TallyOf(a), TallyOf(b))
  {
    if b == [] {
      assert a + b == a;
    } else {
      var n := |b| - 1;
      assert (a + b)[..|a + b| - 1] == a + b[..n];
      TallyConcat(a, b[..n]);
      AddPlus(TallyOf(a), TallyOf(b[..n]), b[n].Key(), b[n].weight);
    }
  }

  // -------------------------------------------------------- canonical lists

  predicate KeyLess(a: BKey, b: BKey) {
    if a.ip != b.ip then Less(a.ip, b.ip) else a.port < b.port
  }

  predicate BackendLess(a: Backend, b: Backend) { KeyLess(a.Key(), b.Key()) }

  lemma KeyOrder()
    ensures StrictOrder(BackendLess)
    ensures forall a: Backend, b: Backend :: a.Key() == b.Key() || BackendLess(a, b) || BackendLess(b, a)
  {
    forall a: Backend ensures !BackendLess(a, a) {}
    forall a: Backend, b: Backend ensures a.Key() == b.Key() || BackendLess(a, b) || BackendLess(b, a) {
      LessTotal(a.ip, b.ip);
    }
    forall a, b, c | BackendLess(a, b) && BackendLess(b, c) ensures BackendLess(a, c) {
      if a.ip != b.ip && b.ip != c.ip {
        LessTransitive(a.ip, b.ip, c.ip);
        LessIrreflexive(a.ip);
      }
    }
  }

  /** Strictly sorted by address, then port: in particular no key twice. */
  ghost predicate Canonical(s: seq<Backend>) { Ascending(BackendLess, s) }

  ghost predicate DistinctKeys(s: seq<Backend>) {
    forall i, j :: 0 <= i < j < |s| ==> s[i].Key() != s[j].Key()
  }

  lemma {:induction false} CanonicalDistinct(s: seq<Backend>)
    requires Canonical(s)
    ensures DistinctKeys(s)
  {
    forall i, j | 0 <= i < j < |s| ensures s[i].Key() != s[j].Key() {
      assert BackendLess(s[i], s[j]);
      LessIrreflexive(s[i].ip);
    }
  }

  /** Without repeated keys the tally lists exactly the members. */
  lemma {:induction false} TallyKeys(s: seq<Backend>)
    ensures forall k :: k in TallyOf(s) <==> exists i :: 0 <= i < |s| && s[i].Key() == k
  {
    if s != [] {
      var n := |s| - 1;
      TallyKeys(s[..n]);
      forall k ensures k in TallyOf(s) <==> exists i :: 0 <= i < |s| && s[i].Key() == k {
        if k in TallyOf(s) && k != s[n].Key() {
          assert k in TallyOf(s[..n]);
          var i :| 0 <= i < n && s[..n][i].Key() == k;
          assert s[i].Key() == k;
        }
        if i :| 0 <= i < |s| && s[i].Key() == k {
          if i < n { assert s[..n][i].Key() == k; }
        }
      }
    }
  }

  lemma {:induction false} TallyMembers(s: seq<Backend>)
    requires DistinctKeys(s)
    ensures forall b: Backend :: b in s <==> b.Key() in TallyOf(s) && TallyOf(s)[b.Key()] == b.weight
    ensures forall k :: k in TallyOf(s) <==> exists i :: 0 <= i < |s| && s[i].Key() == k
  {
    TallyKeys(s);
    if s != [] {
      var n := |s| - 1;
      TallyMembers(s[..n]);
      assert s == s[..n] + [s[n]];
      assert s[n].Key() !in TallyOf(s[..n]);
      forall b: Backend ensures b in s <==> b.Key() in TallyOf(s) && TallyOf(s)[b.Key()] == b.weight {
        if b.Key() == s[n].Key() { assert b !in s[..n]; }
      }
    }
  }

  /** A tally determines its canonical list, whatever was merged in whatever order to get it. */
  lemma CanonicalUnique(a: seq<Backend>, b: seq<Backend>)
    requires Canonical(a) && Canonical(b) && TallyOf(a) == TallyOf(b)
    ensures a == b
  {
    CanonicalDistinct(a);
    CanonicalDistinct(b);
    TallyMembers(a);
    TallyMembers(b);
    KeyOrder();
    AscendingUnique(BackendLess, a, b);
  }

  /** The canonical list of a tally. */
  ghost function Listed(t: Tally): (s: seq<Backend>)
    ensures Canonical(s) && TallyOf(s) == t
  {
    if t == map[] then []
    else
      var k :| k in t;
      var rest := Listed(t - {k});
      ListedStep(rest, t, k);
      Insert(BackendLess, rest, Backend(k.ip, k.port, t[k]))
  }

  lemma ListedStep(rest: seq<Backend>, t: Tally, k: BKey)
    requires k in t && Canonical(rest) && TallyOf(rest) == t - {k}
    ensures
      var s := Insert(BackendLess, rest, Backend(k.ip, k.port, t[k]));
      Canonical(s) && TallyOf(s) == t
  {
    var x := Backend(k.ip, k.port, t[k]);
    var s := Insert(BackendLess, rest, x);
    KeyOrder();
    CanonicalDistinct(rest);
    TallyMembers(rest);
    forall y | y in rest ensures BackendLess(x, y) || BackendLess(y, x) {
      assert y.Key() in TallyOf(rest);
    }
    InsertAscends(BackendLess, rest, x);
    InsertMembers(BackendLess, rest, x);
    CanonicalDistinct(s);
    TallyMembers(s);
    TallyFromMembers(s, t);
  }

  lemma TallyFromMembers(s: seq<Backend>, t: Tally)
    requires DistinctKeys(s)
    requires forall b: Backend :: b in s <==> b.Key() in t && t[b.Key()] == b.weight
    ensures TallyOf(s) == t
  {
    TallyMembers(s);
    forall k | k in t ensures k in TallyOf(s) && TallyOf(s)[k] == t[k] {
      assert Backend(k.ip, k.port, t[k]).Key() == k;
      assert Backend(k.ip, k.port, t[k]) in s;
    }
    forall k | k in TallyOf(s) ensures k in t {
      assert Backend(k.ip, k.port, TallyOf(s)[k]).Key() == k;
      assert Backend(k.ip, k.port, TallyOf(s)[k]) in s;
    }
  }

  lemma ListedIs(s: seq<Backend>, t: Tally)
    requires Canonical(s) && TallyOf(s) == t
    ensures s == Listed(t)
  {
    CanonicalUnique(s, Listed(t));
  }

  // ------------------------------------------------------------------ merge

  /** The string-keyed map of the merge loop holds the tally `t`. */
  ghost predicate Holds(m: map<string, Backend>, t: Tally) {
    && (forall x :: x in m ==> x == KeyText(m[x].Key()) && m[x].Key() in t)
    && (forall k :: k in t ==> KeyText(k) in m && m[KeyText(k)] == Backend(k.ip, k.port, t[k]))
  }

  lemma HoldsPlus(m: map<string, Backend>, t: Tally, b: Backend, m': map<string, Backend>)
    requires Holds(m, t)
    requires
      var x := KeyText(b.Key());
      m' == m[x := if x in m then m[x].(weight := m[x].weight + b.weight) else b]
    ensures Holds(m', Plus(t, b.Key(), b.weight))
  {
    var x := KeyText(b.Key());
    if x in m { KeyTextInjective(b.Key(), m[x].Key()); }
    forall k | k in t && KeyText(k) == x ensures k == b.Key() {
      KeyTextInjective(k, b.Key());
    }
  }

  method Put(m: map<string, Backend>, b: Backend, ghost t: Tally) returns (r: map<string, Backend>)
    requires Holds(m, t)
    ensures Holds(r, Plus(t, b.Key(), b.weight))
  {
    var key := KeyText(b.Key());
    if key in m {
      var existing := m[key];
      r := m[key := existing.(weight := existing.weight + b.weight)];
    } else {
      r := m[key := b];
    }
    HoldsPlus(m, t, b, r);
  }

  lemma AddStep(t: Tally, s: seq<Backend>, i: nat)
    requires i < |s|
    ensures Add(t, TallyOf(s[..i + 1])) == Plus(Add(t, TallyOf(s[..i])), s[i].Key(), s[i].weight)
  {
    AddPlus(t, TallyOf(s[..i]), s[i].Key(), s[i].weight);
    assert s[..i + 1][..i] == s[..i];
  }

  lemma {:induction false} AddNothing(t: Tally)
    ensures Add(t, map[]) == t && Add(map[], t) == t
  {
  }

  /** Adds the backends `s` into `m`: either loop of the merge. */
  method Accumulate(m0: map<string, Backend>, s: seq<Backend>, ghost t: Tally) returns (m: map<string, Backend>)
    requires Holds(m0, t)
    ensures Holds(m, Add(t, TallyOf(s)))
  {
    m := m0;
    AddNothing(t);
    for i := 0 to |s|
      invariant Holds(m, Add(t, TallyOf(s[..i])))
    {
      m := Put(m, s[i], Add(t, TallyOf(s[..i])));
      AddStep(t, s, i);
    }
    assert s[..|s|] == s;
  }

  /** Ranges over the map in any order, then sorts. */
  method MergeBackends(a: seq<Backend>, b: seq<Backend>) returns (r: seq<Backend>)
    ensures Canonical(r)
    ensures forall i, j :: 0 <= i < j < |r| ==>
      Less(r[i].ip, r[j].ip) || (r[i].ip == r[j].ip && r[i].port < r[j].port)
    ensures TallyOf(r) == Add(TallyOf(a), TallyOf(b))
  {
    var m := Accumulate(map[], a, map[]);
    AddNothing(TallyOf(a));
    m := Accumulate(m, b, TallyOf(a));
    ghost var t := Add(TallyOf(a), TallyOf(b));
    var res, keys := [], m.Keys;
    while keys != {}
      invariant keys <= m.Keys
      invariant DistinctKeys(res)
      invariant forall be: Backend :: be in res <==> KeyText(be.Key()) in m.Keys - keys && m[KeyText(be.Key())] == be
      decreases |keys|
    {
      var key :| key in keys;
      forall i | 0 <= i < |res| ensures res[i].Key() != m[key].Key() {
        assert res[i] in res;
      }
      res, keys := res + [m[key]], keys - {key};
    }
    forall be: Backend ensures be in res <==> be.Key() in t && t[be.Key()] == be.weight {
      if be in res { assert m[KeyText(be.Key())].Key() in t; }
    }
    TallyFromMembers(res, t);
    SortedTally(res);
    r := Sort(BackendLess, res);
  }

  lemma SortedTally(s: seq<Backend>)
    requires DistinctKeys(s)
    ensures Canonical(Sort(BackendLess, s)) && TallyOf(Sort(BackendLess, s)) == TallyOf(s)
  {
    KeyOrder();
    SortAscends(BackendLess, s);
    SortMembers(BackendLess, s);
    CanonicalDistinct(Sort(BackendLess, s));
    TallyMembers(s);
    TallyFromMembers(Sort(BackendLess, s), TallyOf(s));
  }

  /** What `MergeBackends` returns: its contract leaves this one list (`ListedIs`). */
  ghost function Merged(a: seq<Backend>, b: seq<Backend>): seq<Backend> {
    Listed(Add(TallyOf(a), TallyOf(b)))
  }

  lemma MergeCommutes(a: seq<Backend>, b: seq<Backend>)
    ensures Merged(a, b) == Merged(b, a)
  {
    AddCommutes(TallyOf(a), TallyOf(b));
  }

  lemma {:induction false} MergeAssociates(a: seq<Backend>, b: seq<Backend>, c: seq<Backend>)
    ensures Merged(Merged(a, b), c) == Merged(a, Merged(b, c))
  {
    AddAssociates(TallyOf(a), TallyOf(b), TallyOf(c));
  }

  lemma MergeUnit(a: seq<Backend>)
    requires Canonical(a)
    ensures Merged(a, []) == a
  {
    AddNothing(TallyOf(a));
    ListedIs(a, TallyOf(a));
  }

  /** Merging one list after the other, in the order the services happen to be listed. */
  ghost function MergedAll(lists: seq<seq<Backend>>): seq<Backend> {
    if lists == [] then [] else Merged(MergedAll(lists[..|lists| - 1]), lists[|lists| - 1])
  }

  ghost function Flat(lists: seq<seq<Backend>>): seq<Backend> {
    if lists == [] then [] else Flat(lists[..|lists| - 1]) + lists[|lists| - 1]
  }

  /** Only the backends matter: not how they were split into lists, nor in which order these came. */
  lemma {:induction false} MergeFlattens(lists: seq<seq<Backend>>)
    ensures MergedAll(lists) == Listed(TallyOf(Flat(lists)))
  {
    if lists == [] {
      CanonicalUnique([], Listed(TallyOf([])));
    } else {
      var n := |lists| - 1;
      MergeFlattens(lists[..n]);
      TallyConcat(Flat(lists[..n]), lists[n]);
    }
  }

  lemma MultisetWithout(a: seq<Backend>, b: seq<Backend>, i: nat)
    requires a != [] && i < |b| && b[i] == a[|a| - 1] && multiset(a) == multiset(b)
    ensures multiset(a[..|a| - 1]) == multiset(b[..i] + b[i + 1..])
    ensures b == b[..i] + [b[i]] + b[i + 1..]
  {
    var n := |a| - 1;
    assert a == a[..n] + [a[n]];
    assert b == b[..i] + [b[i]] + b[i + 1..];
    assert multiset(a[..n]) == multiset(a) - multiset{a[n]};
    assert multiset(b) == multiset(b[..i] + [b[i]]) + multiset(b[i + 1..]);
    assert multiset(b[..i] + b[i + 1..]) == multiset(b) - multiset{b[i]};
  }

  lemma {:induction false} TallyPermutes(a: seq<Backend>, b: seq<Backend>)
    requires multiset(a) == multiset(b)
    ensures TallyOf(a) == TallyOf(b)
    decreases |a|
  {
    if a == [] {
      assert |multiset(a)| == |multiset(b)|;
    } else {
      var n := |a| - 1;
      assert a == a[..n] + [a[n]];
      assert a[n] in multiset(b);
      var i :| 0 <= i < |b| && b[i] == a[n];
      var rest := b[..i] + b[i + 1..];
      MultisetWithout(a, b, i);
      TallyPermutes(a[..n], rest);
      TallyConcat(b[..i] + [b[i]], b[i + 1..]);
      TallyConcat(b[..i], [b[i]]);
      TallyConcat(b[..i], b[i + 1..]);
      TallyConcat(a[..n], [a[n]]);
      var t, u, v := TallyOf(b[..i]), TallyOf([a[n]]), TallyOf(b[i + 1..]);
      AddAssociates(t, u, v);
      AddCommutes(u, v);
      AddAssociates(t, v, u);
    }
  }

  /** Any grouping and any order of the same backends merges to the same list. */
  lemma {:induction false} MergeOrderIrrelevant(a: seq<seq<Backend>>, b: seq<seq<Backend>>)
    requires multiset(Flat(a)) == multiset(Flat(b))
    ensures MergedAll(a) == MergedAll(b)
  {
    MergeFlattens(a);
    MergeFlattens(b);
    TallyPermutes(Flat(a), Flat(b));
  }

  // ----------------------------------------------------------- total weight

  ghost function Total<K(!new)>(t: map<K, int>): int {
    if t == map[] then 0 else var k :| k in t; t[k] + Total(t - {k})
  }

  lemma {:induction false} TotalWithout<K(!new)>(t: map<K, int>, k: K)
    requires k in t
    ensures Total(t) == t[k] + Total(t - {k})
    decreases |t|
  {
    var j :| j in t && Total(t) == t[j] + Total(t - {j});
    if j != k {
      assert |t - {j}| < |t| by { assert (t - {j}).Keys == t.Keys - {j}; }
      TotalWithout(t - {j}, k);
      assert |t - {k}| < |t| by { assert (t - {k}).Keys == t.Keys - {k}; }
      TotalWithout(t - {k}, j);
      assert t - {j} - {k} == t - {k} - {j};
    }
  }

  lemma TotalSet<K(!new)>(t: map<K, int>, k: K, w: int)
    ensures Total(t[k := w]) == Total(t) + w - (if k in t then t[k] else 0)
  {
    TotalWithout(t[k := w], k);
    assert t[k := w] - {k} == t - {k};
    if k in t { TotalWithout(t, k); } else { assert t - {k} == t; }
  }
}

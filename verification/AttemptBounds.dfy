/**
  The signed attempt bound of every stage: the memoised derivation of the source, and the
  closed form it computes, a sum over `afterany` edges weighted by dependency paths.
*/
module AttemptBounds {
  import opened StageGraph

  /** A rank that every dependency lowers; it exists exactly on acyclic graphs. */
  ghost predicate Ranked(g: Graph, rank: map<StageId, nat>) {
    Closed(g) && (forall s | s in g :: s in rank) && forall s, d | s in g && d in g[s].deps :: rank[d] < rank[s]
  }

  /** `derive`, without its memo: the budget plus what each direct dependency can force. */
  ghost function Bound(g: Graph, rank: map<StageId, nat>, s: StageId): int
    requires Ranked(g, rank) && s in g
    decreases rank[s], 1
  {
    g[s].max + Forced(g, rank, s, g[s].deps)
  }

  ghost function Forced(g: Graph, rank: map<StageId, nat>, s: StageId, ds: seq<StageId>): int
    requires Ranked(g, rank) && s in g && (forall d | d in ds :: d in g[s].deps)
    decreases rank[s], 0, |ds|
  {
    if ds == [] then 0 else
    var d := ds[|ds| - 1];
    assert d in ds;
    assert forall e | e in ds[..|ds| - 1] :: e in ds;
    Forced(g, rank, s, ds[..|ds| - 1]) + Bound(g, rank, d) - if g[s].afterany then 1 else g[d].max
  }

  /** The number of dependency paths from one stage to another. */
  ghost function Paths(g: Graph, rank: map<StageId, nat>, s: StageId, x: StageId): nat
    requires Ranked(g, rank) && s in g
    decreases rank[s], 1
  {
    (if s == x then 1 else 0) + PathsVia(g, rank, s, g[s].deps, x)
  }

  ghost function PathsVia(g: Graph, rank: map<StageId, nat>, s: StageId, ds: seq<StageId>, x: StageId): nat
    requires Ranked(g, rank) && s in g && (forall d | d in ds :: d in g[s].deps)
    decreases rank[s], 0, |ds|
  {
    if ds == [] then 0 else
    var d := ds[|ds| - 1];
    assert d in ds;
    assert forall e | e in ds[..|ds| - 1] :: e in ds;
    PathsVia(g, rank, s, ds[..|ds| - 1], x) + Paths(g, rank, d, x)
  }

  /** What the `afterany` edges out of one stage contribute: each dependency's budget less one. */
  function EdgeWeight(g: Graph, ds: seq<StageId>): int
    requires forall d | d in ds :: d in g
  {
    if ds == [] then 0 else
    var d := ds[|ds| - 1];
    assert d in ds;
    assert forall e | e in ds[..|ds| - 1] :: e in ds;
    EdgeWeight(g, ds[..|ds| - 1]) + g[d].max - 1
  }

  function Weight(g: Graph, x: StageId): int
    requires Closed(g) && x in g
  {
    if g[x].afterany then EdgeWeight(g, g[x].deps) else 0
  }

  /** The sum over all stages of path count times the weight of their `afterany` edges. */
  ghost function Weighted(g: Graph, rank: map<StageId, nat>, s: StageId, xs: seq<StageId>): int
    requires Ranked(g, rank) && s in g && (forall x | x in xs :: x in g)
  {
    if xs == [] then 0 else
    var x := xs[|xs| - 1];
    assert x in xs;
    assert forall y | y in xs[..|xs| - 1] :: y in xs;
    Weighted(g, rank, s, xs[..|xs| - 1]) + Paths(g, rank, s, x) * Weight(g, x)
  }

  ghost function WeightedVia(g: Graph, rank: map<StageId, nat>, s: StageId, ds: seq<StageId>, xs: seq<StageId>): int
    requires Ranked(g, rank) && s in g && (forall d | d in ds :: d in g[s].deps) && (forall x | x in xs :: x in g)
  {
    if xs == [] then 0 else
    var x := xs[|xs| - 1];
    assert x in xs;
    assert forall y | y in xs[..|xs| - 1] :: y in xs;
    WeightedVia(g, rank, s, ds, xs[..|xs| - 1]) + PathsVia(g, rank, s, ds, x) * Weight(g, x)
  }

  // --------------------------------------------------------- the closed form

  lemma {:induction false} WeightedSplits(g: Graph, rank: map<StageId, nat>, s: StageId, xs: seq<StageId>)
    requires Ranked(g, rank) && s in g && Distinct(xs) && (forall x | x in xs :: x in g)
    ensures Weighted(g, rank, s, xs) == (if s in xs then Weight(g, s) else 0) + WeightedVia(g, rank, s, g[s].deps, xs)
  {
    if xs != [] {
      var ys, x := xs[..|xs| - 1], xs[|xs| - 1];
      assert xs == ys + [x];
      WeightedSplits(g, rank, s, ys);
      assert x !in ys;
      var n := PathsVia(g, rank, s, g[s].deps, x);
      assert s == x ==> (1 + n) * Weight(g, x) == Weight(g, x) + n * Weight(g, x);
    }
  }

  lemma {:induction false} ViaNothing(g: Graph, rank: map<StageId, nat>, s: StageId, xs: seq<StageId>)
    requires Ranked(g, rank) && s in g && (forall x | x in xs :: x in g)
    ensures WeightedVia(g, rank, s, [], xs) == 0
  {
    if xs != [] { ViaNothing(g, rank, s, xs[..|xs| - 1]); }
  }

  /** One more dependency adds its own weighted sum. */
  lemma {:induction false} ViaOneMore(g: Graph, rank: map<StageId, nat>, s: StageId, ds: seq<StageId>, xs: seq<StageId>)
    requires Ranked(g, rank) && s in g && ds != [] && (forall d | d in ds :: d in g[s].deps) && (forall x | x in xs :: x in g)
    requires ds[|ds| - 1] in g && forall d | d in ds[..|ds| - 1] :: d in g[s].deps
    ensures WeightedVia(g, rank, s, ds, xs)
         == WeightedVia(g, rank, s, ds[..|ds| - 1], xs) + Weighted(g, rank, ds[|ds| - 1], xs)
  {
    if xs != [] {
      var ys, x, d := xs[..|xs| - 1], xs[|xs| - 1], ds[|ds| - 1];
      ViaOneMore(g, rank, s, ds, ys);
      var a, b, w := PathsVia(g, rank, s, ds[..|ds| - 1], x), Paths(g, rank, d, x), Weight(g, x);
      assert (a + b) * w == a * w + b * w;
    }
  }

  /**
    The derived bound is the stage's own budget plus, for every `afterany` edge (x, d), the number
    of dependency paths to x times the retries of d.
  */
  lemma {:induction false} BoundIsPathSum(g: Graph, rank: map<StageId, nat>, s: StageId, xs: seq<StageId>)
    requires Ranked(g, rank) && s in g && Distinct(xs) && (forall x :: x in xs <==> x in g)
    ensures Bound(g, rank, s) == g[s].max + Weighted(g, rank, s, xs)
    decreases rank[s], 1
  {
    WeightedSplits(g, rank, s, xs);
    ForcedIsPathSum(g, rank, s, g[s].deps, xs);
  }

  lemma {:induction false} ForcedIsPathSum(g: Graph, rank: map<StageId, nat>, s: StageId, ds: seq<StageId>, xs: seq<StageId>)
    requires Ranked(g, rank) && s in g && Distinct(xs) && (forall x :: x in xs <==> x in g) && (forall d | d in ds :: d in g[s].deps)
    requires forall d | d in ds :: d in g
    ensures Forced(g, rank, s, ds) == (if g[s].afterany then EdgeWeight(g, ds) else 0) + WeightedVia(g, rank, s, ds, xs)
    decreases rank[s], 0, |ds|
  {
    if ds == [] {
      ViaNothing(g, rank, s, xs);
    } else {
      var es, d := ds[..|ds| - 1], ds[|ds| - 1];
      assert d in ds && (forall e | e in es :: e in ds);
      ForcedIsPathSum(g, rank, s, es, xs);
      BoundIsPathSum(g, rank, d, xs);
      ViaOneMore(g, rank, s, ds, xs);
    }
  }

  // ------------------------------------------------------------ counted paths

  ghost function PathList(g: Graph, rank: map<StageId, nat>, s: StageId, x: StageId): seq<seq<StageId>>
    requires Ranked(g, rank) && s in g
    decreases rank[s], 1
  {
    (if s == x then [[s]] else []) + ListVia(g, rank, s, g[s].deps, x)
  }

  ghost function ListVia(g: Graph, rank: map<StageId, nat>, s: StageId, ds: seq<StageId>, x: StageId): seq<seq<StageId>>
    requires Ranked(g, rank) && s in g && (forall d | d in ds :: d in g[s].deps)
    decreases rank[s], 0, |ds|
  {
    if ds == [] then [] else
    var d := ds[|ds| - 1];
    assert d in ds;
    assert forall e | e in ds[..|ds| - 1] :: e in ds;
    ListVia(g, rank, s, ds[..|ds| - 1], x) + Prepend(s, PathList(g, rank, d, x))
  }

  ghost function Prepend(s: StageId, ps: seq<seq<StageId>>): seq<seq<StageId>> {
    seq(|ps|, i requires 0 <= i < |ps| => [s] + ps[i])
  }

  predicate Leads(g: Graph, p: seq<StageId>, s: StageId, x: StageId) {
    IsPath(g, p) && p[0] == s && p[|p| - 1] == x
  }

  lemma {:induction false} ListLength(g: Graph, rank: map<StageId, nat>, s: StageId, ds: seq<StageId>, x: StageId)
    requires Ranked(g, rank) && s in g && (forall d | d in ds :: d in g[s].deps)
    ensures |ListVia(g, rank, s, ds, x)| == PathsVia(g, rank, s, ds, x)
    decreases rank[s], |ds|
  {
    if ds != [] {
      var es, d := ds[..|ds| - 1], ds[|ds| - 1];
      assert d in ds && (forall e | e in es :: e in ds);
      ListLength(g, rank, s, es, x);
      ListLength(g, rank, d, g[d].deps, x);
    }
  }

  /** What the enumeration lists through some dependencies: the paths that go on through one of them. */
  lemma {:induction false} ListedVia(g: Graph, rank: map<StageId, nat>, s: StageId, ds: seq<StageId>, x: StageId, p: seq<StageId>)
    requires Ranked(g, rank) && s in g && (forall d | d in ds :: d in g[s].deps)
    ensures p in ListVia(g, rank, s, ds, x) <==> Leads(g, p, s, x) && |p| >= 2 && p[1] in ds
    decreases rank[s], |ds|
  {
    if ds != [] {
      var es, d := ds[..|ds| - 1], ds[|ds| - 1];
      assert d in ds && (forall e | e in es :: e in ds) && ds == es + [d];
      ListedVia(g, rank, s, es, x, p);
      var ps := PathList(g, rank, d, x);
      if p != [] { ListedVia(g, rank, d, g[d].deps, x, p[1..]); }
      PrependIn(s, ps, p);
      if p != [] && p[0] == s && |p| >= 2 { LeadsOn(g, p, s, x); }
      if p != [] && |p| >= 2 && p[1] == d {
        assert p[1..] in ps <==> Leads(g, p[1..], d, x) by {
          assert Leads(g, p[1..], d, x) && |p[1..]| >= 2 ==> p[1..][1] in g[d].deps;
          assert |p[1..]| == 1 ==> p[1..] == [d];
        }
      }
    }
  }

  lemma PrependIn(s: StageId, ps: seq<seq<StageId>>, p: seq<StageId>)
    ensures p in Prepend(s, ps) <==> p != [] && p[0] == s && p[1..] in ps
  {
    if p != [] && p[0] == s && p[1..] in ps {
      var i :| 0 <= i < |ps| && ps[i] == p[1..];
      assert Prepend(s, ps)[i] == [s] + ps[i] == p;
    }
    if p in Prepend(s, ps) {
      var i :| 0 <= i < |ps| && Prepend(s, ps)[i] == p;
      assert p == [s] + ps[i] && p[1..] == ps[i];
    }
  }

  lemma LeadsOn(g: Graph, p: seq<StageId>, s: StageId, x: StageId)
    requires |p| >= 2 && p[0] == s && s in g
    ensures Leads(g, p, s, x) <==> p[1] in g[s].deps && Leads(g, p[1..], p[1], x)
  {
    var q := p[1..];
    if p[1] in g[s].deps && Leads(g, q, p[1], x) {
      forall i | 0 <= i < |p| ensures p[i] in g { if i > 0 { assert q[i - 1] in g; } }
      forall i | 0 <= i < |p| - 1 ensures p[i + 1] in g[p[i]].deps { if i > 0 { assert q[i - 1 + 1] in g[q[i - 1]].deps; } }
    }
    if Leads(g, p, s, x) {
      assert p[0 + 1] in g[p[0]].deps;
      forall i | 0 <= i < |q| - 1 ensures q[i + 1] in g[q[i]].deps { assert p[i + 1 + 1] in g[p[i + 1]].deps; }
    }
  }

  predicate NoRepeats<T(==)>(xs: seq<T>) {
    forall i, j | 0 <= i < j < |xs| :: xs[i] != xs[j]
  }

  lemma {:induction false} ListHasNoRepeats(g: Graph, rank: map<StageId, nat>, s: StageId, ds: seq<StageId>, x: StageId)
    requires Ranked(g, rank) && s in g && (forall d | d in ds :: d in g[s].deps) && Distinct(ds) && (forall y | y in g :: Distinct(g[y].deps))
    ensures NoRepeats(ListVia(g, rank, s, ds, x))
    decreases rank[s], |ds|
  {
    if ds != [] {
      var es, d := ds[..|ds| - 1], ds[|ds| - 1];
      assert d in ds && (forall e | e in es :: e in ds) && d !in es;
      var ps, qs := ListVia(g, rank, s, es, x), Prepend(s, PathList(g, rank, d, x));
      ListHasNoRepeats(g, rank, s, es, x);
      PathListHasNoRepeats(g, rank, d, x);
      PrependHasNoRepeats(s, PathList(g, rank, d, x));
      forall p | p in ps ensures p !in qs {
        ListedVia(g, rank, s, es, x, p);
        PrependIn(s, PathList(g, rank, d, x), p);
        if p != [] && p[1..] in PathList(g, rank, d, x) { FirstOf(g, rank, d, x, p[1..]); }
      }
      JoinedHasNoRepeats(ps, qs);
    }
  }

  lemma {:induction false} PathListHasNoRepeats(g: Graph, rank: map<StageId, nat>, s: StageId, x: StageId)
    requires Ranked(g, rank) && s in g && (forall y | y in g :: Distinct(g[y].deps))
    ensures NoRepeats(PathList(g, rank, s, x))
    decreases rank[s], |g[s].deps| + 1
  {
    ListHasNoRepeats(g, rank, s, g[s].deps, x);
    ListedVia(g, rank, s, g[s].deps, x, [s]);
    if s == x { JoinedHasNoRepeats([[s]], ListVia(g, rank, s, g[s].deps, x)); }
  }

  lemma FirstOf(g: Graph, rank: map<StageId, nat>, s: StageId, x: StageId, p: seq<StageId>)
    requires Ranked(g, rank) && s in g && p in PathList(g, rank, s, x)
    ensures p != [] && p[0] == s
  {
    ListedVia(g, rank, s, g[s].deps, x, p);
  }

  lemma PrependHasNoRepeats(s: StageId, ps: seq<seq<StageId>>)
    requires NoRepeats(ps)
    ensures NoRepeats(Prepend(s, ps))
  {
    var qs := Prepend(s, ps);
    forall i, j | 0 <= i < j < |qs| ensures qs[i] != qs[j] {
      assert qs[i][1..] == ps[i] && qs[j][1..] == ps[j];
    }
  }

  lemma JoinedHasNoRepeats<T>(a: seq<T>, b: seq<T>)
    requires NoRepeats(a) && NoRepeats(b) && (forall x | x in a :: x !in b)
    ensures NoRepeats(a + b)
  {
    forall i, j | 0 <= i < j < |a + b| ensures (a + b)[i] != (a + b)[j] {
      if i < |a| <= j { assert a[i] in a && b[j - |a|] in b; }
    }
  }

  /** `Paths` counts the dependency paths: a repetition-free list of exactly all of them has that length. */
  lemma PathsAreCounted(g: Graph, rank: map<StageId, nat>, s: StageId, x: StageId)
    requires Ranked(g, rank) && s in g && (forall y | y in g :: Distinct(g[y].deps))
    ensures var all := PathList(g, rank, s, x);
      |all| == Paths(g, rank, s, x) && NoRepeats(all) && forall p :: p in all <==> Leads(g, p, s, x)
  {
    var all := PathList(g, rank, s, x);
    ListLength(g, rank, s, g[s].deps, x);
    PathListHasNoRepeats(g, rank, s, x);
    forall p ensures p in all <==> Leads(g, p, s, x) {
      ListedVia(g, rank, s, g[s].deps, x, p);
      if Leads(g, p, s, x) && |p| >= 2 { LeadsOn(g, p, s, x); }
      assert |p| == 1 && Leads(g, p, s, x) ==> p == [s];
    }
  }

  // ------------------------------------------------------------- consequences

  /** Without `afterany` edges a stage's bound is its own budget. */
  lemma AllAfterok(g: Graph, rank: map<StageId, nat>, s: StageId, xs: seq<StageId>)
    requires Ranked(g, rank) && s in g && Distinct(xs) && (forall x :: x in xs <==> x in g) && (forall x | x in g :: !g[x].afterany)
    ensures Bound(g, rank, s) == g[s].max
  {
    BoundIsPathSum(g, rank, s, xs);
    NoWeight(g, rank, s, xs);
  }

  lemma {:induction false} NoWeight(g: Graph, rank: map<StageId, nat>, s: StageId, xs: seq<StageId>)
    requires Ranked(g, rank) && s in g && (forall x | x in xs :: x in g) && (forall x | x in g :: !g[x].afterany)
    ensures Weighted(g, rank, s, xs) == 0
  {
    if xs != [] {
      var x := xs[|xs| - 1];
      assert x in xs;
      NoWeight(g, rank, s, xs[..|xs| - 1]);
    }
  }

  /** The same graph with other budgets. */
  ghost predicate LargerBudgets(g: Graph, h: Graph) {
    && (forall s :: s in g <==> s in h)
    && (forall s | s in g :: h[s].deps == g[s].deps && h[s].afterany == g[s].afterany && g[s].max <= h[s].max)
  }

  /** A larger budget anywhere never lowers a bound, nor what a stage must allow beyond its budget. */
  lemma {:induction false} BoundIsMonotone(g: Graph, h: Graph, rank: map<StageId, nat>, s: StageId)
    requires Ranked(g, rank) && Ranked(h, rank) && s in g && LargerBudgets(g, h)
    ensures Bound(g, rank, s) <= Bound(h, rank, s) && Bound(g, rank, s) - g[s].max <= Bound(h, rank, s) - h[s].max
    decreases rank[s], 1
  {
    ForcedIsMonotone(g, h, rank, s, g[s].deps);
  }

  lemma {:induction false} ForcedIsMonotone(g: Graph, h: Graph, rank: map<StageId, nat>, s: StageId, ds: seq<StageId>)
    requires Ranked(g, rank) && Ranked(h, rank) && s in g && LargerBudgets(g, h) && (forall d | d in ds :: d in g[s].deps)
    ensures Forced(g, rank, s, ds) <= Forced(h, rank, s, ds)
    decreases rank[s], 0, |ds|
  {
    if ds != [] {
      var es, d := ds[..|ds| - 1], ds[|ds| - 1];
      assert d in ds && (forall e | e in es :: e in ds);
      ForcedIsMonotone(g, h, rank, s, es);
      BoundIsMonotone(g, h, rank, d);
    }
  }

  /** The same graph with each stage's dependencies listed in another order. */
  ghost predicate Reordered(g: Graph, h: Graph) {
    && (forall s :: s in g <==> s in h)
    && (forall s | s in g :: multiset(h[s].deps) == multiset(g[s].deps) && h[s].afterany == g[s].afterany && g[s].max == h[s].max)
  }

  /** The bound depends on no order of the input, and on no particular ranking. */
  lemma {:induction false} BoundIgnoresOrder(g: Graph, h: Graph, rank: map<StageId, nat>, rank': map<StageId, nat>, s: StageId)
    requires Ranked(g, rank) && Ranked(h, rank') && s in g && Reordered(g, h)
    ensures Bound(g, rank, s) == Bound(h, rank', s)
    decreases rank[s], 1
  {
    assert forall d | d in h[s].deps :: d in multiset(g[s].deps);
    ForcedIgnoresOrder(g, h, rank, rank', s, g[s].deps, h[s].deps);
  }

  lemma {:induction false} ForcedIgnoresOrder(g: Graph, h: Graph, rank: map<StageId, nat>, rank': map<StageId, nat>,
                                             s: StageId, ds: seq<StageId>, es: seq<StageId>)
    requires Ranked(g, rank) && Ranked(h, rank') && s in g && Reordered(g, h) && multiset(ds) == multiset(es)
    requires (forall d | d in ds :: d in g[s].deps) && (forall e | e in es :: e in h[s].deps)
    ensures Forced(g, rank, s, ds) == Forced(h, rank', s, es)
    decreases rank[s], 0, |ds|
  {
    if ds == [] {
      assert |es| == |multiset(es)| == 0;
    } else {
      var d := ds[|ds| - 1];
      assert d in ds;
      assert d in multiset(es);
      var k :| 0 <= k < |es| && es[k] == d;
      var rest := es[..k] + es[k + 1..];
      assert forall e | e in rest :: e in es;
      assert forall e | e in ds[..|ds| - 1] :: e in ds;
      assert d in es;
      TakenOut(ds, es, k);
      ForcedIgnoresOrder(g, h, rank, rank', s, ds[..|ds| - 1], rest);
      BoundIgnoresOrder(g, h, rank, rank', d);
      ForcedWithout(h, rank', s, es, k);
    }
  }

  lemma TakenOut(ds: seq<StageId>, es: seq<StageId>, k: nat)
    requires ds != [] && k < |es| && es[k] == ds[|ds| - 1] && multiset(ds) == multiset(es)
    ensures multiset(ds[..|ds| - 1]) == multiset(es[..k] + es[k + 1..])
  {
    var init, d, a, b := ds[..|ds| - 1], ds[|ds| - 1], es[..k], es[k + 1..];
    assert ds == init + [d];
    assert es == (a + [d]) + b;
    assert multiset(ds) == multiset(init) + multiset{d};
    assert multiset(es) == multiset(a) + multiset{d} + multiset(b);
    assert multiset(a + b) == multiset(a) + multiset(b);
    assert multiset(init) == multiset(ds) - multiset{d} && multiset(a + b) == multiset(es) - multiset{d};
  }

  /** Taking one dependency out of a list takes out its own share. */
  lemma {:induction false} ForcedWithout(g: Graph, rank: map<StageId, nat>, s: StageId, ds: seq<StageId>, k: nat)
    requires Ranked(g, rank) && s in g && k < |ds| && (forall d | d in ds :: d in g[s].deps) && ds[k] in g
    requires forall d | d in ds[..k] + ds[k + 1..] :: d in g[s].deps
    ensures Forced(g, rank, s, ds)
         == Forced(g, rank, s, ds[..k] + ds[k + 1..]) + Bound(g, rank, ds[k]) - if g[s].afterany then 1 else g[ds[k]].max
    decreases |ds|
  {
    hide Ranked, Bound;
    var rest := ds[..k] + ds[k + 1..];
    if k == |ds| - 1 {
      assert rest == ds[..|ds| - 1];
    } else {
      var init := ds[..|ds| - 1];
      Shorter(ds, k);
      assert forall d | d in init :: d in ds;
      ForcedWithout(g, rank, s, init, k);
    }
  }

  lemma Shorter(ds: seq<StageId>, k: nat)
    requires k < |ds| - 1
    ensures var rest, init := ds[..k] + ds[k + 1..], ds[..|ds| - 1];
      && init[..k] + init[k + 1..] == rest[..|rest| - 1] && init[k] == ds[k] && rest[|rest| - 1] == ds[|ds| - 1]
      && (forall d | d in init[..k] + init[k + 1..] :: d in rest)
  {
    var rest, init := ds[..k] + ds[k + 1..], ds[..|ds| - 1];
    assert init[..k] + init[k + 1..] == rest[..|rest| - 1];
  }

  // ------------------------------------------------------ the derivation itself

  ghost function RankOf(g: Graph, order: seq<StageId>): map<StageId, nat>
    requires Topological(g, order)
  {
    map s | s in g :: var i: nat :| i < |order| && order[i] == s; i
  }

  lemma OrderRanks(g: Graph, order: seq<StageId>)
    requires Closed(g) && Topological(g, order)
    ensures Ranked(g, RankOf(g, order))
  {
    var rank := RankOf(g, order);
    forall s, d | s in g && d in g[s].deps ensures rank[d] < rank[s] {
      DepStandsBefore(g, order, rank[s], d);
      var i :| 0 <= i < rank[s] && order[i] == d;
    }
  }

  /** The memo `derived` of one derivation. */
  class Derivation {
    const g: Graph
    ghost const rank: map<StageId, nat>
    var derived: map<StageId, int>

    constructor (graph: Graph, ghost ranking: map<StageId, nat>)
      requires Ranked(graph, ranking)
      ensures g == graph && rank == ranking && Valid() && derived == map[]
    {
      g, rank, derived := graph, ranking, map[];
    }

    ghost predicate Valid()
      reads this
    {
      Ranked(g, rank) && forall s | s in derived :: s in g && derived[s] == Bound(g, rank, s)
    }

    method Derive(s: StageId) returns (bound: int)
      requires Valid() && s in g
      modifies this
      ensures Valid() && bound == Bound(g, rank, s) && s in derived && old(derived).Keys <= derived.Keys
      decreases rank[s]
    {
      if s in derived { return derived[s]; }
      bound := g[s].max;
      var deps := g[s].deps;
      var i := 0;
      while i < |deps|
        invariant 0 <= i <= |deps| && Valid() && old(derived).Keys <= derived.Keys
        invariant forall d | d in deps[..i] :: d in deps
        invariant bound == g[s].max + Forced(g, rank, s, deps[..i])
      {
        var d := deps[i];
        assert d in deps;
        var below := Derive(d);
        bound := bound + below - if g[s].afterany then 1 else g[d].max;
        assert deps[..i + 1][..i] == deps[..i];
        i := i + 1;
      }
      assert deps[..i] == deps;
      derived := derived[s := bound];
    }
  }

  /** `_derived_attempt_bounds`: it succeeds exactly on acyclic graphs and gives every stage its bound. */
  method DerivedBounds(g: Graph, ids: seq<StageId>) returns (ok: bool, bounds: map<StageId, int>)
    requires Closed(g) && (forall s :: s in ids <==> s in g)
    ensures ok <==> !Cyclic(g)
    ensures ok ==> forall rank, s | Ranked(g, rank) && s in g :: s in bounds && bounds[s] == Bound(g, rank, s)
  {
    var order: seq<StageId>;
    ok, order := TopologicalOrder(g, ids);
    if !ok { return false, map[]; }
    OrderRanks(g, order);
    ghost var rank := RankOf(g, order);
    var derivation := new Derivation(g, rank);
    var i := 0;
    while i < |order|
      invariant 0 <= i <= |order| && derivation.g == g && derivation.rank == rank && derivation.Valid()
      invariant forall j | 0 <= j < i :: order[j] in derivation.derived
    {
      var id := order[i];
      assert DepsBefore(g, order, i);
      var b := derivation.Derive(id);
      i := i + 1;
    }
    bounds := derivation.derived;
    forall rank', s | Ranked(g, rank') && s in g ensures s in bounds && bounds[s] == Bound(g, rank', s) {
      assert s in order;
      BoundIgnoresOrder(g, g, rank, rank', s);
    }
  }
}

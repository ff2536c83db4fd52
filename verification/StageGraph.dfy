/**
  The stage dependency graph and its depth-first topological order.

  Node identifiers stand for stage IDs; each node lists its dependencies in the sorted
  order in which the search visits them.
*/
module StageGraph {
  type StageId = int

  datatype Node = Node(deps: seq<StageId>, afterany: bool, max: nat)

  type Graph = map<StageId, Node>

  predicate Closed(g: Graph) {
    forall s, d | s in g && d in g[s].deps :: d in g
  }

  /** A chain of direct dependencies. */
  predicate IsPath(g: Graph, p: seq<StageId>) {
    && p != [] && (forall i | 0 <= i < |p| :: p[i] in g)
    && (forall i | 0 <= i < |p| - 1 :: p[i + 1] in g[p[i]].deps)
  }

  ghost predicate Cyclic(g: Graph) {
    exists p :: IsPath(g, p) && |p| >= 2 && p[0] == p[|p| - 1]
  }

  predicate Distinct(xs: seq<StageId>) {
    forall i, j | 0 <= i < j < |xs| :: xs[i] != xs[j]
  }

  /** What the stage at one place depends on stands before it. */
  predicate DepsBefore(g: Graph, order: seq<StageId>, i: nat)
    requires i < |order|
  {
    order[i] in g && forall d | d in g[order[i]].deps :: d in order[..i]
  }

  /** Every stage stands once, and after everything it depends on. */
  predicate DepsFirst(g: Graph, order: seq<StageId>) {
    Distinct(order) && forall i | 0 <= i < |order| :: DepsBefore(g, order, i)
  }

  predicate Topological(g: Graph, order: seq<StageId>) {
    DepsFirst(g, order) && forall s | s in g :: s in order
  }

  // ------------------------------------------------- an order excludes cycles

  lemma {:induction false} PathDescends(g: Graph, order: seq<StageId>, p: seq<StageId>, i: nat, j: nat)
    requires DepsFirst(g, order) && IsPath(g, p) && i < |order| && order[i] == p[0] && 1 <= j < |p|
    ensures p[j] in order[..i]
  {
    assert p[j - 1 + 1] in g[p[j - 1]].deps;
    if j == 1 {
      DepStandsBefore(g, order, i, p[j]);
    } else {
      PathDescends(g, order, p, i, j - 1);
      var k :| 0 <= k < i && order[k] == p[j - 1];
      DepStandsBefore(g, order, k, p[j]);
      var l :| 0 <= l < k && order[l] == p[j];
      assert order[..i][l] == p[j];
    }
  }

  lemma DepStandsBefore(g: Graph, order: seq<StageId>, i: nat, d: StageId)
    requires DepsFirst(g, order) && i < |order| && order[i] in g && d in g[order[i]].deps
    ensures d in order[..i]
  {
    assert DepsBefore(g, order, i);
    assert forall e | e in g[order[i]].deps :: e in order[..i];
  }

  lemma OrderedIsAcyclic(g: Graph, order: seq<StageId>)
    requires Topological(g, order)
    ensures !Cyclic(g)
  {
    forall p | IsPath(g, p) && |p| >= 2 ensures p[0] != p[|p| - 1] {
      var i :| 0 <= i < |order| && order[i] == p[0];
      PathDescends(g, order, p, i, |p| - 1);
    }
  }

  // ------------------------------------------------------ the depth-first search

  datatype Color = Grey | Black

  /** The `state` and `ordered` of one search. */
  class Search {
    const g: Graph
    var state: map<StageId, Color>
    var ordered: seq<StageId>

    constructor (graph: Graph)
      ensures g == graph && state == map[] && ordered == []
    {
      g := graph;
      state := map[];
      ordered := [];
    }

    ghost predicate Valid(stack: seq<StageId>)
      reads this
    {
      && Closed(g) && (forall s | s in state :: s in g)
      && DepsFirst(g, ordered)
      && (forall s :: s in ordered <==> s in state && state[s] == Black)
      && (forall s :: s in stack <==> s in state && state[s] == Grey)
    }

    /** Visits one stage below the open `stack`; `ok` is false where the source raises. */
    method Visit(id: StageId, ghost stack: seq<StageId>) returns (ok: bool)
      requires Valid(stack) && id in g && IsPath(g, stack + [id])
      modifies this
      ensures !ok ==> Cyclic(g)
      ensures ok ==> Valid(stack) && id in ordered
      ensures ok ==> old(ordered) <= ordered && old(state).Keys <= state.Keys
      decreases g.Keys - state.Keys
    {
      if id in state && state[id] == Black { return true; }
      if id in state {
        CycleFound(g, stack, id);
        return false;
      }
      state := state[id := Grey];
      ghost var inner := stack + [id];
      var deps := g[id].deps;
      var i := 0;
      while i < |deps|
        invariant 0 <= i <= |deps|
        invariant Valid(inner) && (forall j | 0 <= j < i :: deps[j] in ordered)
        invariant old(ordered) <= ordered && old(state).Keys <= state.Keys && id in state
      {
        assert deps[i] in g[id].deps;
        PathExtends(g, inner, deps[i]);
        assert g.Keys - state.Keys <= g.Keys - old(state).Keys;
        assert id in g.Keys - old(state).Keys && id !in g.Keys - state.Keys;
        ghost var before := ordered;
        var fine := Visit(deps[i], inner);
        if !fine { return false; }
        forall j | 0 <= j <= i ensures deps[j] in ordered {
          if j < i {
            var k :| 0 <= k < |before| && before[k] == deps[j];
            assert ordered[k] == deps[j];
          }
        }
        i := i + 1;
      }
      Appends(g, ordered, id);
      state := state[id := Black];
      ordered := ordered + [id];
      return true;
    }
  }

  lemma Appends(g: Graph, order: seq<StageId>, id: StageId)
    requires DepsFirst(g, order) && id in g && id !in order && (forall d | d in g[id].deps :: d in order)
    ensures DepsFirst(g, order + [id])
  {
    var longer := order + [id];
    forall i | 0 <= i < |longer| ensures DepsBefore(g, longer, i) {
      assert longer[..i] == order[..i];
      if i < |order| { assert DepsBefore(g, order, i); }
    }
  }

  lemma CycleFound(g: Graph, stack: seq<StageId>, id: StageId)
    requires IsPath(g, stack + [id]) && id in stack
    ensures Cyclic(g)
  {
    var i :| 0 <= i < |stack| && stack[i] == id;
    var p := (stack + [id])[i..];
    assert IsPath(g, p) by {
      forall j | 0 <= j < |p| - 1 ensures p[j + 1] in g[p[j]].deps {
        assert (stack + [id])[i + j + 1] in g[(stack + [id])[i + j]].deps;
      }
    }
  }

  lemma PathExtends(g: Graph, p: seq<StageId>, d: StageId)
    requires IsPath(g, p) && d in g && d in g[p[|p| - 1]].deps
    ensures IsPath(g, p + [d])
  {
  }

  /**
    `topological_stage_ids` over the stages in sorted order: it returns an order exactly
    when the graph has no cycle, and then every stage stands once and after its dependencies.
  */
  method TopologicalOrder(g: Graph, ids: seq<StageId>) returns (ok: bool, order: seq<StageId>)
    requires Closed(g) && (forall s :: s in ids <==> s in g)
    ensures ok <==> !Cyclic(g)
    ensures ok ==> Topological(g, order)
  {
    var search := new Search(g);
    var i := 0;
    while i < |ids|
      invariant 0 <= i <= |ids| && search.g == g && search.Valid([])
      invariant forall j | 0 <= j < i :: ids[j] in search.ordered
    {
      var id := ids[i];
      assert id in ids && id in g;
      assert IsPath(g, [] + [id]);
      ghost var before := search.ordered;
      ok := search.Visit(id, []);
      if !ok { return false, []; }
      forall j | 0 <= j <= i ensures ids[j] in search.ordered {
        if j < i {
          var k :| 0 <= k < |before| && before[k] == ids[j];
          assert search.ordered[k] == ids[j];
        }
      }
      i := i + 1;
    }
    order := search.ordered;
    forall s | s in g ensures s in order { assert s in ids; }
    OrderedIsAcyclic(g, order);
    return true, order;
  }
}

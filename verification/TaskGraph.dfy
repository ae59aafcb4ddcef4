/** The cycle check on a batch's dependency graph. */
module TaskGraph {
  import opened RowOrder

  /** Task id to the ids it waits for.  An id without an entry waits for nothing. */
  type Graph = map<Id, seq<Id>>

  predicate Edge(g: Graph, u: Id, v: Id) {
    u in g && v in g[u]
  }

  predicate Walk(g: Graph, p: seq<Id>) {
    forall i | 0 <= i < |p| - 1 :: Edge(g, p[i], p[i + 1])
  }

  /** Some task waits, through one or more steps, for itself. */
  ghost predicate Cyclic(g: Graph) {
    exists p: seq<Id> :: |p| >= 2 && Walk(g, p) && p[0] == p[|p| - 1]
  }

  /** Tasks can be numbered so that each waits only for smaller numbers. */
  ghost predicate Numbering(g: Graph, rank: map<Id, nat>) {
    forall u, v | Edge(g, u, v) :: u in rank && v in rank && rank[v] < rank[u]
  }

  ghost predicate Orderable(g: Graph) {
    exists rank: map<Id, nat> :: Numbering(g, rank)
  }

  lemma {:induction false} WalkDescends(g: Graph, rank: map<Id, nat>, p: seq<Id>)
    requires Numbering(g, rank) && Walk(g, p) && |p| >= 2
    ensures p[0] in rank && p[|p| - 1] in rank && rank[p[|p| - 1]] < rank[p[0]]
    decreases |p|
  {
    assert Edge(g, p[0], p[1]);
    if |p| > 2 {
      assert forall i | 0 <= i < |p[1..]| - 1 :: Edge(g, p[1..][i], p[1..][i + 1]) by {
        forall i | 0 <= i < |p[1..]| - 1 ensures Edge(g, p[1..][i], p[1..][i + 1]) {
          assert Edge(g, p[i + 1], p[i + 2]);
        }
      }
      WalkDescends(g, rank, p[1..]);
    }
  }

  lemma OrderableIsAcyclic(g: Graph)
    requires Orderable(g)
    ensures !Cyclic(g)
  {
    if Cyclic(g) {
      var rank :| Numbering(g, rank);
      var p: seq<Id> :| |p| >= 2 && Walk(g, p) && p[0] == p[|p| - 1];
      WalkDescends(g, rank, p);
    }
  }

  /** `path` is a walk through exactly the nodes being visited. */
  ghost predicate Trail(g: Graph, path: seq<Id>, visiting: set<Id>) {
    Walk(g, path) && forall k :: k in visiting <==> k in path
  }

  /** Finished nodes wait only for nodes that finished before them. */
  ghost predicate Finished(g: Graph, visited: set<Id>, rank: map<Id, nat>) {
    && rank.Keys == visited
    && (forall u | u in visited :: rank[u] < |visited|)
    && (forall u, v | u in visited && Edge(g, u, v) :: v in visited && rank[v] < rank[u])
  }

  ghost predicate Closed(g: Graph, universe: set<Id>) {
    forall u, v | Edge(g, u, v) :: v in universe
  }

  lemma Enter(g: Graph, path: seq<Id>, visiting: set<Id>, node: Id)
    requires Trail(g, path, visiting)
    requires path != [] ==> Edge(g, path[|path| - 1], node)
    ensures Trail(g, path + [node], visiting + {node})
  {
    var p := path + [node];
    forall i | 0 <= i < |p| - 1 ensures Edge(g, p[i], p[i + 1]) {
      if i < |path| - 1 { assert Edge(g, path[i], path[i + 1]); }
    }
  }

  lemma Leave(g: Graph, visited: set<Id>, rank: map<Id, nat>, node: Id)
    requires Finished(g, visited, rank) && node !in visited
    requires forall v | Edge(g, node, v) :: v in visited
    ensures Finished(g, visited + {node}, rank[node := |visited|])
  {
  }

  lemma CloseCycle(g: Graph, path: seq<Id>, node: Id)
    requires Walk(g, path) && node in path
    requires Edge(g, path[|path| - 1], node)
    ensures Cyclic(g)
  {
    var k :| 0 <= k < |path| && path[k] == node;
    var p := path[k..] + [node];
    forall i | 0 <= i < |p| - 1 ensures Edge(g, p[i], p[i + 1]) {
      if i < |p| - 2 {
        assert Edge(g, path[k + i], path[k + i + 1]);
      }
    }
    assert |p| >= 2 && Walk(g, p) && p[0] == p[|p| - 1];
  }

  /** Depth-first search with three colours: untouched, on the path (`visiting`) and
      done (`visited`). */
  class Search {
    const graph: Graph
    var visiting: set<Id>
    var visited: set<Id>
    ghost var rank: map<Id, nat>       // finishing numbers

    constructor (g: Graph)
      ensures graph == g && visiting == {} && visited == {} && rank == map[]
    {
      graph, visiting, visited, rank := g, {}, {}, map[];
    }

    /** `path` lists `visiting` in the order it was entered. */
    method Visit(node: Id, ghost path: seq<Id>, ghost universe: set<Id>) returns (acyclic: bool)
      requires Finished(graph, visited, rank) && visiting !! visited
      requires Trail(graph, path, visiting) && visiting <= universe && Closed(graph, universe)
      requires node in universe && (path != [] ==> Edge(graph, path[|path| - 1], node))
      modifies this
      ensures acyclic ==> Finished(graph, visited, rank) && visiting == old(visiting) && visiting !! visited
      ensures acyclic ==> old(visited) <= visited && node in visited
      ensures !acyclic ==> Cyclic(graph)
      decreases universe - visiting, 1
    {
      if node in visiting {
        CloseCycle(graph, path, node);
        acyclic := false;
      } else if node in visited {
        acyclic := true;
      } else {
        acyclic := Explore(node, path, universe);
      }
    }

    /** Enter an untouched node, visit what it waits for, and finish it. */
    method Explore(node: Id, ghost path: seq<Id>, ghost universe: set<Id>) returns (acyclic: bool)
      requires Finished(graph, visited, rank) && visiting !! visited && node !in visiting && node !in visited
      requires Trail(graph, path, visiting) && visiting <= universe && Closed(graph, universe)
      requires node in universe && (path != [] ==> Edge(graph, path[|path| - 1], node))
      modifies this
      ensures acyclic ==> Finished(graph, visited, rank) && visiting == old(visiting) && visiting !! visited
      ensures acyclic ==> old(visited) <= visited && node in visited
      ensures !acyclic ==> Cyclic(graph)
      decreases universe - visiting, 0
    {
      Enter(graph, path, visiting, node);
      visiting := visiting + {node};
      assert universe - visiting < universe - old(visiting) by { assert node in universe - old(visiting); }
      acyclic := VisitEach(node, if node in graph then graph[node] else [], path + [node], universe);
      if acyclic {
        assert visiting - {node} == old(visiting);
        Leave(graph, visited, rank, node);
        visiting := visiting - {node};
        rank := rank[node := |visited|];
        visited := visited + {node};
      }
    }

    /** The loop over the dependencies of the node just entered. */
    method VisitEach(node: Id, deps: seq<Id>, ghost path: seq<Id>, ghost universe: set<Id>) returns (acyclic: bool)
      requires Finished(graph, visited, rank) && visiting !! visited
      requires Trail(graph, path, visiting) && visiting <= universe && Closed(graph, universe)
      requires path != [] && path[|path| - 1] == node && forall v | v in deps :: Edge(graph, node, v)
      modifies this
      ensures acyclic ==> Finished(graph, visited, rank) && visiting == old(visiting) && visiting !! visited
      ensures acyclic ==> old(visited) <= visited && forall v | v in deps :: v in visited
      ensures !acyclic ==> Cyclic(graph)
      decreases universe - visiting, 2
    {
      for i := 0 to |deps|
        invariant Finished(graph, visited, rank) && visiting == old(visiting) && visiting !! visited
        invariant old(visited) <= visited
        invariant forall v | v in deps[..i] :: v in visited
      {
        assert Edge(graph, node, deps[i]);
        acyclic := Visit(deps[i], path, universe);
        if !acyclic {
          return;
        }
        assert deps[..i + 1] == deps[..i] + [deps[i]];
      }
      assert deps[..|deps|] == deps;
      return true;
    }
  }

  /** Accepts exactly the acyclic graphs; an accepted graph has a numbering. */
  method AssertAcyclic(graph: Graph) returns (acyclic: bool)
    ensures acyclic <==> !Cyclic(graph)
    ensures acyclic <==> Orderable(graph)
  {
    var search := new Search(graph);
    var pending := graph.Keys;
    ghost var universe := graph.Keys + set u, v | u in graph && v in graph[u] :: v;
    while pending != {}
      invariant Finished(graph, search.visited, search.rank) && search.graph == graph && search.visiting == {}
      invariant pending <= graph.Keys && graph.Keys - pending <= search.visited
      decreases pending
    {
      var node :| node in pending;
      acyclic := search.Visit(node, [], universe);
      if !acyclic {
        if Orderable(graph) { OrderableIsAcyclic(graph); }
        return;
      }
      pending := pending - {node};
    }
    assert Numbering(graph, search.rank);
    OrderableIsAcyclic(graph);
    return true;
  }
}

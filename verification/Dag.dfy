/** The dependency graph of stacker files (pkg/lib/dag.go): vertices with values, edges from a
    dependency to what depends on it, rollback of an edge that would close a cycle, and a sorted
    traversal.  The graph library underneath is modelled by the set of edges. */
module DagModel {
  import opened Collections
  import opened Wrappers
  import opened Graphs

  predicate Ordered(order: seq<Key>, edges: Edges) {
    forall i, j :: 0 <= i < |order| && 0 <= j < |order| && (order[i], order[j]) in edges ==> i < j
  }

  class Dag<Value> {
    var vertices: map<Key, Value>
    var edges: Edges

    ghost predicate Valid()
      reads this
    {
      && (forall e <- edges :: e.0 in vertices && e.1 in vertices)
      && NoSelfLoops(edges) && Acyclic(edges)
    }

    constructor ()
      ensures Valid() && vertices == map[] && edges == {}
    {
      vertices, edges := map[], {};
      new;
      NoEdgesNoCycle();
    }

    method AddVertex(key: Key, val: Value) returns (ok: bool)
      requires Valid()
      modifies this
      ensures Valid() && edges == old(edges)
      ensures ok <==> key !in old(vertices)
      ensures vertices == if ok then old(vertices)[key := val] else old(vertices)
    {
      if key in vertices {
        return false;
      }
      vertices := vertices[key := val];
      return true;
    }

    method RemoveVertex(key: Key) returns (ok: bool)
      requires Valid()
      modifies this
      ensures Valid() && (ok <==> key in old(vertices))
      ensures vertices == old(vertices) - {key}
      ensures edges == set e | e in old(edges) && e.0 != key && e.1 != key
    {
      if key !in vertices {
        return false;
      }
      var kept := set e | e in edges && e.0 != key && e.1 != key;
      AcyclicSubset(kept, edges);
      edges := kept;
      vertices := vertices - {key};
      return true;
    }

    /** The strongly connected component of a vertex, by two closures over the edges. */
    method Component(v: Key) returns (c: set<Key>)
      requires forall e <- edges :: e.0 in vertices && e.1 in vertices
      requires v in vertices
      ensures forall u :: u in c <==> Mutual(edges, v, u)
    {
      var ahead := Closure(v, edges);
      var reversed := set e | e in edges :: (e.1, e.0);
      ghost var es := edges;
      var back := ClosureOf(v, reversed, vertices.Keys);
      forall u ensures u in back <==> Reaches(es, u, v) {
        ReversedReaches(es, u, v);
      }
      c := ahead * back;
    }

    method Closure(v: Key, es: Edges) returns (c: set<Key>)
      requires forall e <- es :: e.0 in vertices && e.1 in vertices
      requires v in vertices
      ensures forall u :: u in c <==> Reaches(es, v, u)
    {
      c := ClosureOf(v, es, vertices.Keys);
    }

    method IsAcyclic() returns (r: bool)
      requires forall e <- edges :: e.0 in vertices && e.1 in vertices
      requires NoSelfLoops(edges)
      ensures r <==> Acyclic(edges)
    {
      AcyclicIffSmallComponents(edges);
      var todo := vertices.Keys;
      while todo != {}
        invariant todo <= vertices.Keys
        invariant forall a, b :: a in vertices && a !in todo && Mutual(edges, a, b) ==> a == b
        decreases |todo|
      {
        var v :| v in todo;
        var arr := Component(v);
        ReachesSelf(edges, v);
        assert v in arr;
        if |arr| > 1 {
          SecondMember(arr, v);
          return false;
        }
        forall b | Mutual(edges, v, b) ensures v == b {
          if v != b {
            assert {v, b} <= arr;
            SubsetSize({v, b}, arr);
          }
        }
        todo := todo - {v};
      }
      forall a, b | Mutual(edges, a, b) ensures a == b {
        if a != b {
          MutualIsVertex(edges, vertices.Keys, a, b);
        }
      }
      return true;
    }

    /** Adds one dependency; an edge that would close a cycle is taken back. */
    method AddDep(node: Key, dependency: Key) returns (ok: bool)
      requires Valid() && node in vertices
      modifies this`edges
      ensures Valid()
      ensures ok <==> dependency in vertices && node != dependency && Acyclic(old(edges) + {(dependency, node)})
      ensures edges == if ok then old(edges) + {(dependency, node)} else old(edges)
    {
      if dependency !in vertices || node == dependency {
        return false;
      }
      AddedTwice(edges, (dependency, node));
      edges := edges + {(dependency, node)};
      var acyclic := IsAcyclic();
      if !acyclic {
        edges := edges - {(dependency, node)};
        assert edges == old(edges);
        return false;
      }
      return true;
    }

    /** Stops at the first dependency that is refused; the ones before it stay. */
    method AddDependencies(vertex: Key, dependencies: seq<Key>) returns (ok: bool)
      requires Valid()
      modifies this`edges
      ensures Valid()
      ensures exists n :: Added(vertices.Keys, old(edges), edges, vertex, dependencies, n) && (ok <==> n == |dependencies|)
    {
      for i := 0 to |dependencies|
        invariant Valid() && edges == old(edges) + EdgesTo(vertex, dependencies[..i])
      {
        if vertex !in vertices {
          assert Added(vertices.Keys, old(edges), edges, vertex, dependencies, i);
          return false;
        }
        ok := AddDep(vertex, dependencies[i]);
        if !ok {
          assert Added(vertices.Keys, old(edges), edges, vertex, dependencies, i);
          return;
        }
        assert dependencies[..i + 1] == dependencies[..i] + [dependencies[i]];
        assert EdgesTo(vertex, dependencies[..i + 1]) == EdgesTo(vertex, dependencies[..i]) + {(dependencies[i], vertex)};
      }
      assert Added(vertices.Keys, old(edges), edges, vertex, dependencies, |dependencies|);
      return true;
    }

    /** Lists every vertex once, dependencies before what depends on them. */
    method Sort() returns (order: seq<Key>)
      requires Valid()
      ensures Distinct(order) && Ordered(order, edges)
      ensures forall k :: k in order <==> k in vertices
    {
      order := [];
      var todo := vertices.Keys;
      while todo != {}
        invariant todo <= vertices.Keys
        invariant forall k :: k in order <==> k in vertices && k !in todo
        invariant Distinct(order) && Ordered(order, edges)
        invariant forall e <- edges :: e.1 in order ==> e.0 in order
        decreases |todo|
      {
        SourceExists(edges, todo);
        ghost var source :| source in todo && !HasPredecessor(edges, todo, source);
        assert forall u <- todo :: (u, source) !in edges;
        var v :| v in todo && forall u <- todo :: (u, v) !in edges;
        order := order + [v];
        todo := todo - {v};
      }
    }
  }

  function EdgesTo(vertex: Key, dependencies: seq<Key>): Edges {
    set d | d in dependencies :: (d, vertex)
  }

  /** Why a dependency is refused: an unknown vertex, an edge to self, or a cycle. */
  ghost predicate Refused(vertices: set<Key>, edges: Edges, node: Key, dependency: Key) {
    node !in vertices || dependency !in vertices || node == dependency || !Acyclic(edges + {(dependency, node)})
  }

  /** The first `n` dependencies were added, and the next one, if any, is refused. */
  ghost predicate Added(vertices: set<Key>, before: Edges, after: Edges, node: Key, dependencies: seq<Key>, n: int) {
    && 0 <= n <= |dependencies| && after == before + EdgesTo(node, dependencies[..n])
    && (n < |dependencies| ==> Refused(vertices, after, node, dependencies[n]))
  }

  lemma AddedTwice(edges: Edges, e: (Key, Key))
    ensures e in edges ==> edges + {e} == edges
    ensures e !in edges ==> edges + {e} - {e} == edges
  {
  }

  lemma SecondMember(arr: set<Key>, v: Key)
    requires v in arr && |arr| > 1
    ensures exists u <- arr :: u != v
  {
    var rest := arr - {v};
    assert |rest| > 0;
    var u :| u in rest;
  }

  lemma MutualIsVertex(edges: Edges, vertices: set<Key>, a: Key, b: Key)
    requires forall e <- edges :: e.0 in vertices && e.1 in vertices
    requires Reaches(edges, a, b) && a != b
    ensures a in vertices
  {
    var p :| Connects(edges, p, a, b);
    assert (p[0], p[1]) in edges;
  }

  function Reversed(p: seq<Key>): (r: seq<Key>)
    ensures |r| == |p| && forall i :: 0 <= i < |p| ==> r[i] == p[|p| - 1 - i]
  {
    seq(|p|, i requires 0 <= i < |p| => p[|p| - 1 - i])
  }

  lemma ReversedReaches(edges: Edges, a: Key, b: Key)
    ensures Reaches(edges, a, b) <==> Reaches(set e | e in edges :: (e.1, e.0), b, a)
  {
    var back := set e | e in edges :: (e.1, e.0);
    if p :| Connects(edges, p, a, b) {
      ReversedPath(edges, back, p);
      assert Connects(back, Reversed(p), b, a);
    }
    if p :| Connects(back, p, b, a) {
      ReversedPath(back, edges, p);
      assert Connects(edges, Reversed(p), a, b);
    }
  }

  lemma ReversedPath(edges: Edges, back: Edges, p: seq<Key>)
    requires IsPath(edges, p) && forall a, b :: (a, b) in edges ==> (b, a) in back
    ensures IsPath(back, Reversed(p))
  {
    var r := Reversed(p);
    forall i | 0 <= i < |r| - 1 ensures (r[i], r[i + 1]) in back {
      var k := |p| - 2 - i;
      assert (p[k], p[k + 1]) in edges;
    }
  }

  /** Everything reachable from a vertex. */
  method ClosureOf(v: Key, edges: Edges, vertices: set<Key>) returns (c: set<Key>)
    requires forall e <- edges :: e.0 in vertices && e.1 in vertices
    requires v in vertices
    ensures forall u :: u in c <==> Reaches(edges, v, u)
  {
    ReachesSelf(edges, v);
    c := {v};
    while exists e <- edges :: e.0 in c && e.1 !in c
      invariant v in c && c <= vertices
      invariant forall u <- c :: Reaches(edges, v, u)
      decreases |vertices - c|
    {
      var e :| e in edges && e.0 in c && e.1 !in c;
      assert (e.0, e.1) in edges;
      ReachesEdge(edges, e.0, e.1);
      ReachesTransitive(edges, v, e.0, e.1);
      assert vertices - (c + {e.1}) == (vertices - c) - {e.1};
      c := c + {e.1};
    }
    forall u | Reaches(edges, v, u) ensures u in c {
      var p :| Connects(edges, p, v, u);
      StaysInside(edges, c, p, |p| - 1);
    }
  }

  lemma StaysInside(edges: Edges, c: set<Key>, p: seq<Key>, i: nat)
    requires IsPath(edges, p) && i < |p| && p[0] in c
    requires forall e <- edges :: e.0 in c ==> e.1 in c
    ensures p[i] in c
  {
    if i > 0 {
      StaysInside(edges, c, p, i - 1);
      assert (p[i - 1], p[i]) in edges;
    }
  }
}

/** Paths and cycles of a finite directed graph, given by its edges. */
module Graphs {

  type Key = string
  type Edges = set<(Key, Key)>

  ghost predicate IsPath(edges: Edges, p: seq<Key>) {
    |p| > 0 && forall i :: 0 <= i < |p| - 1 ==> (p[i], p[i + 1]) in edges
  }

  ghost predicate Connects(edges: Edges, p: seq<Key>, a: Key, b: Key) {
    IsPath(edges, p) && p[0] == a && p[|p| - 1] == b
  }

  ghost predicate Reaches(edges: Edges, a: Key, b: Key) {
    exists p :: Connects(edges, p, a, b)
  }

  ghost predicate IsCycle(edges: Edges, p: seq<Key>) {
    IsPath(edges, p) && |p| > 1 && p[0] == p[|p| - 1]
  }

  ghost predicate Acyclic(edges: Edges) {
    forall p :: !IsCycle(edges, p)
  }

  ghost predicate NoSelfLoops(edges: Edges) {
    forall a :: (a, a) !in edges
  }

  lemma ReachesSelf(edges: Edges, a: Key)
    ensures Reaches(edges, a, a)
  {
    assert Connects(edges, [a], a, a);
  }

  lemma ReachesTransitive(edges: Edges, a: Key, b: Key, c: Key)
    requires Reaches(edges, a, b) && Reaches(edges, b, c)
    ensures Reaches(edges, a, c)
  {
    var p :| Connects(edges, p, a, b);
    var q :| Connects(edges, q, b, c);
    assert Connects(edges, p + q[1..], a, c);
  }

  lemma ReachesEdge(edges: Edges, a: Key, b: Key)
    requires (a, b) in edges
    ensures Reaches(edges, a, b)
  {
    assert Connects(edges, [a, b], a, b);
  }

  /** Two vertices of one strongly connected component. */
  ghost predicate Mutual(edges: Edges, a: Key, b: Key) {
    Reaches(edges, a, b) && Reaches(edges, b, a)
  }

  /** Without self-loops, a graph has no cycle exactly when no strongly connected component has
      more than one vertex. */
  lemma AcyclicIffSmallComponents(edges: Edges)
    requires NoSelfLoops(edges)
    ensures Acyclic(edges) <==> forall a, b :: Mutual(edges, a, b) ==> a == b
  {
    if Acyclic(edges) {
      forall a, b | Mutual(edges, a, b) ensures a == b {
        var p :| Connects(edges, p, a, b);
        var q :| Connects(edges, q, b, a);
        assert a != b ==> IsCycle(edges, p + q[1..]);
      }
    }
    if forall a, b :: Mutual(edges, a, b) ==> a == b {
      forall p ensures !IsCycle(edges, p) {
        if IsCycle(edges, p) {
          ReachesEdge(edges, p[0], p[1]);
          assert Connects(edges, p[1..], p[1], p[0]);
          assert Mutual(edges, p[0], p[1]);
        }
      }
    }
  }

  lemma AcyclicSubset(edges: Edges, more: Edges)
    requires edges <= more && Acyclic(more)
    ensures Acyclic(edges)
  {
    forall p ensures !IsCycle(edges, p) {
      assert IsCycle(edges, p) ==> IsCycle(more, p);
    }
  }

  // ----- a finite acyclic graph has a source -----

  ghost predicate HasPredecessor(edges: Edges, s: set<Key>, v: Key) {
    exists u <- s :: (u, v) in edges
  }

  lemma Pigeonhole(p: seq<Key>, s: set<Key>) returns (i: nat, j: nat)
    requires |p| > |s| && forall k <- p :: k in s
    ensures i < j < |p| && p[i] == p[j]
    decreases |p|
  {
    var last := p[|p| - 1];
    var rest := p[..|p| - 1];
    if last in rest {
      i :| 0 <= i < |rest| && rest[i] == last;
      j := |p| - 1;
    } else {
      forall k <- rest ensures k in s - {last} { assert k in p; }
      i, j := Pigeonhole(rest, s - {last});
    }
  }

  lemma PathBackwards(edges: Edges, s: set<Key>, n: nat) returns (p: seq<Key>)
    requires s != {} && forall v <- s :: HasPredecessor(edges, s, v)
    ensures IsPath(edges, p) && |p| == n + 1 && forall k <- p :: k in s
  {
    if n == 0 {
      var v :| v in s;
      p := [v];
    } else {
      var q := PathBackwards(edges, s, n - 1);
      assert q[0] in s && HasPredecessor(edges, s, q[0]);
      var u :| u in s && (u, q[0]) in edges;
      p := [u] + q;
    }
  }

  lemma CycleExists(edges: Edges, s: set<Key>) returns (cycle: seq<Key>)
    requires s != {} && forall v <- s :: HasPredecessor(edges, s, v)
    ensures IsCycle(edges, cycle)
  {
    var p := PathBackwards(edges, s, |s|);
    var i, j := Pigeonhole(p, s);
    cycle := p[i..j + 1];
  }

  lemma SourceExists(edges: Edges, s: set<Key>)
    requires s != {} && Acyclic(edges)
    ensures exists v <- s :: !HasPredecessor(edges, s, v)
  {
    if forall v <- s :: HasPredecessor(edges, s, v) {
      var cycle := CycleExists(edges, s);
    }
  }

  lemma CycleHasEdge(edges: Edges, p: seq<Key>)
    requires IsCycle(edges, p)
    ensures (p[0], p[1]) in edges
  {
  }

  lemma NoEdgesNoCycle()
    ensures Acyclic({})
  {
    forall p ensures !IsCycle({}, p) {
      if IsCycle({}, p) {
        CycleHasEdge({}, p);
      }
    }
  }
}

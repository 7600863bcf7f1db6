/** Building several stacker files: reading a file's prerequisites, sorting the files, and ordering
    the layers of each (pkg/types/stackerfiles.go, pkg/stacker/deps.go, pkg/stacker/build.go). */
module MultiFile {
  import opened Collections
  import opened Wrappers
  import opened Graphs
  import opened DagModel
  import opened BuildOrder
  import CacheModel
  import CacheTheorems

  type Files = map<Path, Stackerfile>

  // An edge from each file to each of its prerequisites.
  function Uses(files: Files): Edges {
    set p, q | p in files && q in files[p].prerequisites :: (p, q)
  }

  /** Prerequisites do not lead back to the file that has them. */
  ghost predicate Ranked(files: Files, rank: map<Path, nat>) {
    forall p <- files :: p in rank && forall q <- files[p].prerequisites :: q in files ==> q in rank && rank[q] < rank[p]
  }

  /** `q` is one of the paths or is reached from one by prerequisites. */
  ghost predicate Reached(files: Files, paths: seq<Path>, q: Path) {
    exists p <- paths :: Reaches(Uses(files), p, q)
  }

  ghost predicate AllFound(files: Files, paths: seq<Path>) {
    forall q :: Reached(files, paths, q) ==> q in files
  }

  lemma ReachedStep(files: Files, p: Path, q: Path)
    requires p in files
    ensures Reaches(Uses(files), p, q) <==> q == p || Reached(files, files[p].prerequisites, q)
  {
    var edges := Uses(files);
    if Reaches(edges, p, q) && q != p {
      var path :| Connects(edges, path, p, q);
      assert (path[0], path[1]) in edges;
      assert Connects(edges, path[1..], path[1], q);
    }
    if q == p {
      ReachesSelf(edges, p);
    }
    if Reached(files, files[p].prerequisites, q) {
      var r :| r in files[p].prerequisites && Reaches(edges, r, q);
      ReachesEdge(edges, p, r);
      ReachesTransitive(edges, p, r, q);
    }
  }

  lemma ReachedSplit(files: Files, paths: seq<Path>, p: Path, q: Path)
    ensures Reached(files, paths + [p], q) <==> Reached(files, paths, q) || Reaches(Uses(files), p, q)
  {
    if Reached(files, paths + [p], q) {
      var r :| r in paths + [p] && Reaches(Uses(files), r, q);
    }
    if Reaches(Uses(files), p, q) {
      assert p in paths + [p];
    }
  }

  // ----- reading files with their prerequisites -----

  /** No two files define a layer of the same name. */
  ghost predicate UniqueNames(files: Files) {
    forall p <- files, q <- files :: p != q ==> files[p].layers.Keys !! files[q].layers.Keys
  }

  ghost predicate Collected(files: Files, paths: seq<Path>, sfm: Files) {
    forall q :: (q in sfm <==> Reached(files, paths, q)) && (q in sfm ==> q in files && sfm[q] == files[q])
  }

  lemma NotAllFound(files: Files, paths: seq<Path>, p: Path, q: Path)
    requires p in paths && Reaches(Uses(files), p, q) && q !in files
    ensures !AllFound(files, paths)
  {
    assert Reached(files, paths, q);
  }

  lemma SubsetUnique(files: Files, sfm: Files, more: Files)
    requires forall p <- sfm :: p in more && more[p] == sfm[p]
    ensures UniqueNames(more) ==> UniqueNames(sfm)
  {
  }

  method NamesAreUnique(sfm: Files) returns (unique: bool)
    requires forall p <- sfm :: WellFormed(sfm[p])
    ensures unique <==> UniqueNames(sfm)
  {
    var todo := sfm.Keys;
    var names: map<Name, Path> := map[];
    while todo != {}
      invariant todo <= sfm.Keys
      invariant forall n <- names :: names[n] in sfm && names[n] !in todo && n in sfm[names[n]].layers
      invariant forall p <- sfm :: p !in todo ==> forall n <- sfm[p].layers :: n in names && names[n] == p
      decreases |todo|
    {
      var path :| path in todo;
      todo := todo - {path};
      var sf := sfm[path];
      for i := 0 to |sf.fileOrder|
        invariant forall n <- names :: names[n] in sfm && names[n] !in todo && n in sfm[names[n]].layers
        invariant forall n <- names :: names[n] == path ==> n in sf.fileOrder[..i]
        invariant forall n <- sf.fileOrder[..i] :: n in names && names[n] == path
        invariant forall p <- sfm :: p !in todo && p != path ==> forall n <- sfm[p].layers :: n in names && names[n] == p
      {
        var layerName := sf.fileOrder[i];
        assert layerName in sf.fileOrder;
        if layerName in names {
          assert names[layerName] != path;
          return false;
        }
        names := names[layerName := path];
      }
      assert sf.fileOrder[..|sf.fileOrder|] == sf.fileOrder;
    }
    return true;
  }

  // Exhausted: the calls are nested deeper than the stack allows, which ends the program.
  datatype Outcome<+T> = Exhausted | Failed | Done(value: T)

  /** Reading the paths takes more nested calls than the stack allows. */
  ghost predicate Deeper(files: Files, paths: seq<Path>, stack: nat)
    decreases stack
  {
    stack == 0 || exists p <- paths :: p in files && Deeper(files, files[p].prerequisites, stack - 1)
  }

  /** Every file reached can be read, and no two of them share a layer name. */
  ghost predicate Readable(files: Files, paths: seq<Path>) {
    AllFound(files, paths) && forall sfm :: Collected(files, paths, sfm) ==> UniqueNames(sfm)
  }

  /** Succeeds exactly when every file reached can be read, no two of them share a layer name and the
      stack suffices, and then returns exactly the files reached. */
  method NewStackerFiles(files: Files, paths: seq<Path>, stack: nat) returns (r: Outcome<Files>)
    requires forall p <- files :: WellFormed(files[p])
    ensures r.Done? ==> Collected(files, paths, r.value) && UniqueNames(r.value)
    ensures r.Exhausted? ==> Deeper(files, paths, stack)
    ensures r.Failed? ==> !Readable(files, paths)
    ensures r.Done? <==> Readable(files, paths) && !Deeper(files, paths, stack)
    decreases stack
  {
    if stack == 0 {
      return Exhausted;
    }
    var sfm: Files := map[];
    for i := 0 to |paths|
      invariant HaveRead(files, paths[..i], sfm, stack)
    {
      var path := paths[i];
      if path !in files {
        ReachesSelf(Uses(files), path);
        NotAllFound(files, paths, path, path);
        return Failed;
      }
      var sf := files[path];
      sfm := sfm[path := sf];
      var deps := NewStackerFiles(files, sf.prerequisites, stack - 1);
      if !deps.Done? {
        NotRead(files, paths, path, stack, deps);
        return deps;
      }
      ReadOneMore(files, paths, i, sfm, deps.value, stack);
      sfm := sfm + deps.value;
    }
    assert paths[..|paths|] == paths;
    var unique := NamesAreUnique(sfm);
    SameCollected(files, paths, sfm);
    return if unique then Done(sfm) else Failed;
  }

  /** What the loop has read from the first paths. */
  ghost predicate HaveRead(files: Files, paths: seq<Path>, sfm: Files, stack: nat)
    requires stack > 0
  {
    && Collected(files, paths, sfm) && AllFound(files, paths)
    && forall p <- paths :: p in files && !Deeper(files, files[p].prerequisites, stack - 1)
  }

  lemma ReadOneMore(files: Files, paths: seq<Path>, i: nat, sfm: Files, deps: Files, stack: nat)
    requires stack > 0 && i < |paths| && paths[i] in files
    requires paths[i] in sfm && sfm[paths[i]] == files[paths[i]]
    requires exists before :: HaveRead(files, paths[..i], before, stack) && sfm == before[paths[i] := files[paths[i]]]
    requires Collected(files, files[paths[i]].prerequisites, deps)
    requires !Deeper(files, files[paths[i]].prerequisites, stack - 1)
    ensures HaveRead(files, paths[..i + 1], sfm + deps, stack)
  {
    assert paths[..i + 1] == paths[..i] + [paths[i]];
    FirstCollected(files, paths[..i], paths[i], sfm, files[paths[i]], deps);
    forall q | Reached(files, paths[..i + 1], q) ensures q in files {
      assert q in sfm + deps;
    }
  }

  lemma NotRead(files: Files, paths: seq<Path>, p: Path, stack: nat, deps: Outcome<Files>)
    requires stack > 0 && p in paths && p in files && !deps.Done?
    requires deps.Exhausted? ==> Deeper(files, files[p].prerequisites, stack - 1)
    requires deps.Failed? ==> !Readable(files, files[p].prerequisites)
    ensures deps.Exhausted? ==> Deeper(files, paths, stack)
    ensures deps.Failed? ==> !Readable(files, paths)
  {
    if deps.Failed? {
      PrerequisiteFails(files, paths, p);
    }
  }

  lemma FirstCollected(files: Files, paths: seq<Path>, p: Path, sfm: Files, sf: Stackerfile, deps: Files)
    requires p in files && sf == files[p] && p in sfm && sfm[p] == sf && Collected(files, files[p].prerequisites, deps)
    requires forall q :: q != p ==> (q in sfm <==> Reached(files, paths, q)) && (q in sfm ==> q in files && sfm[q] == files[q])
    ensures Collected(files, paths + [p], sfm + deps)
  {
    forall q ensures (q in sfm + deps <==> Reached(files, paths + [p], q)) && (q in sfm + deps ==> q in files && (sfm + deps)[q] == files[q]) {
      ReachedSplit(files, paths, p, q);
      ReachedStep(files, p, q);
    }
  }

  lemma SameCollected(files: Files, paths: seq<Path>, sfm: Files)
    requires Collected(files, paths, sfm)
    ensures UniqueNames(sfm) <==> forall other :: Collected(files, paths, other) ==> UniqueNames(other)
  {
    forall other | Collected(files, paths, other) ensures other == sfm {
      forall q ensures q in other <==> q in sfm {}
      assert other.Keys == sfm.Keys;
    }
  }

  lemma PrerequisiteFails(files: Files, paths: seq<Path>, p: Path)
    requires p in paths && p in files && !Readable(files, files[p].prerequisites)
    ensures !Readable(files, paths)
  {
    if !AllFound(files, files[p].prerequisites) {
      var q :| Reached(files, files[p].prerequisites, q) && q !in files;
      ReachedStep(files, p, q);
      NotAllFound(files, paths, p, q);
    } else if AllFound(files, paths) {
      var deps :| Collected(files, files[p].prerequisites, deps) && !UniqueNames(deps);
      var all := map q | q in files && Reached(files, paths, q) :: files[q];
      assert Collected(files, paths, all);
      forall q <- deps ensures q in all && all[q] == deps[q] {
        ReachedStep(files, p, q);
        assert Reached(files, paths, q);
      }
      SubsetUnique(files, deps, all);
    }
  }

  // ----- the layers of a file's prerequisites -----

  ghost predicate PrerequisiteLayer(sfm: Files, paths: seq<Path>, n: Name) {
    exists q :: Reached(sfm, paths, q) && q in sfm && n in sfm[q].layers
  }

  lemma LayerSplit(sfm: Files, paths: seq<Path>, p: Path, n: Name)
    requires p in sfm
    ensures PrerequisiteLayer(sfm, paths + [p], n) <==>
      PrerequisiteLayer(sfm, paths, n) || n in sfm[p].layers || PrerequisiteLayer(sfm, sfm[p].prerequisites, n)
  {
    if PrerequisiteLayer(sfm, paths + [p], n) {
      var q :| Reached(sfm, paths + [p], q) && q in sfm && n in sfm[q].layers;
      ReachedSplit(sfm, paths, p, q);
      ReachedStep(sfm, p, q);
    }
    if PrerequisiteLayer(sfm, paths, n) {
      var q :| Reached(sfm, paths, q) && q in sfm && n in sfm[q].layers;
      ReachedSplit(sfm, paths, p, q);
    }
    if n in sfm[p].layers {
      ReachesSelf(Uses(sfm), p);
      ReachedSplit(sfm, paths, p, p);
    }
    if PrerequisiteLayer(sfm, sfm[p].prerequisites, n) {
      var q :| Reached(sfm, sfm[p].prerequisites, q) && q in sfm && n in sfm[q].layers;
      ReachedStep(sfm, p, q);
      ReachedSplit(sfm, paths, p, q);
    }
  }

  lemma FoundSplit(sfm: Files, paths: seq<Path>, p: Path)
    requires p in sfm
    ensures AllFound(sfm, paths + [p]) <==> AllFound(sfm, paths) && AllFound(sfm, sfm[p].prerequisites)
  {
    if AllFound(sfm, paths + [p]) {
      forall q | Reached(sfm, paths, q) ensures q in sfm { ReachedSplit(sfm, paths, p, q); }
      forall q | Reached(sfm, sfm[p].prerequisites, q) ensures q in sfm {
        ReachedStep(sfm, p, q);
        ReachedSplit(sfm, paths, p, q);
      }
    }
    if AllFound(sfm, paths) && AllFound(sfm, sfm[p].prerequisites) {
      forall q | Reached(sfm, paths + [p], q) ensures q in sfm {
        ReachedSplit(sfm, paths, p, q);
        ReachedStep(sfm, p, q);
      }
    }
  }

  lemma FoundPrefix(sfm: Files, paths: seq<Path>, i: nat)
    requires i <= |paths|
    ensures AllFound(sfm, paths) ==> AllFound(sfm, paths[..i])
  {
    forall q | Reached(sfm, paths[..i], q) ensures Reached(sfm, paths, q) {
      var p :| p in paths[..i] && Reaches(Uses(sfm), p, q);
      assert p in paths;
    }
  }

  /** Marks the layers of every file reached as processed; fails exactly when one is missing. */
  method AddPrerequisites(sfm: Files, prerequisites: seq<Path>, processed: set<Name>, ghost rank: map<Path, nat>, ghost bound: nat)
    returns (ok: bool, processed': set<Name>)
    requires Ranked(sfm, rank) && forall p <- prerequisites :: p in sfm ==> rank[p] < bound
    ensures ok <==> AllFound(sfm, prerequisites)
    ensures ok ==> forall n :: n in processed' <==> n in processed || PrerequisiteLayer(sfm, prerequisites, n)
    decreases bound
  {
    processed' := processed;
    for i := 0 to |prerequisites|
      invariant AllFound(sfm, prerequisites[..i])
      invariant forall n :: n in processed' <==> n in processed || PrerequisiteLayer(sfm, prerequisites[..i], n)
    {
      var prereq := prerequisites[i];
      assert prerequisites[..i + 1] == prerequisites[..i] + [prereq];
      if prereq !in sfm {
        ReachesSelf(Uses(sfm), prereq);
        NotAllFound(sfm, prerequisites, prereq, prereq);
        return false, processed';
      }
      ghost var before := processed';
      processed' := processed' + sfm[prereq].layers.Keys;
      FoundSplit(sfm, prerequisites[..i], prereq);
      ok, processed' := AddPrerequisites(sfm, sfm[prereq].prerequisites, processed', rank, rank[prereq]);
      if !ok {
        FoundPrefix(sfm, prerequisites, i + 1);
        return;
      }
      forall n ensures n in processed' <==> n in processed || PrerequisiteLayer(sfm, prerequisites[..i + 1], n) {
        LayerSplit(sfm, prerequisites[..i], prereq, n);
      }
    }
    assert prerequisites[..|prerequisites|] == prerequisites;
    ok := true;
  }

  // ----- the graph of files -----

  // What the file graph should hold: an edge from a prerequisite to each file that uses it.
  function Depends(sfm: Files): Edges {
    set p, q | p in sfm && q in sfm[p].prerequisites :: (q, p)
  }

  method NewDagOf(sfm: Files) returns (dag: Dag<Stackerfile>)
    ensures fresh(dag) && dag.Valid() && dag.vertices == sfm && dag.edges == {}
  {
    dag := new Dag<Stackerfile>();
    var keys := sfm.Keys;
    while keys != {}
      invariant fresh(dag) && dag.Valid() && keys <= sfm.Keys && dag.edges == {}
      invariant dag.vertices == map p | p in sfm && p !in keys :: sfm[p]
      decreases |keys|
    {
      var path :| path in keys;
      keys := keys - {path};
      var added := dag.AddVertex(path, sfm[path]);
    }
  }

  /** One file's edges, prerequisite by prerequisite, up to the first that is refused. */
  method AddPrerequisiteEdges(dag: Dag<Stackerfile>, path: Path, prerequisites: seq<Path>) returns (ok: bool)
    requires dag.Valid() && path in dag.vertices
    modifies dag`edges
    ensures dag.Valid()
    ensures exists n ::
      Added(dag.vertices.Keys, old(dag.edges), dag.edges, path, prerequisites, n) && (ok <==> n == |prerequisites|)
  {
    for i := 0 to |prerequisites|
      invariant dag.Valid() && dag.edges == old(dag.edges) + EdgesTo(path, prerequisites[..i])
    {
      ghost var before := dag.edges;
      ok := dag.AddDependencies(path, [prerequisites[i]]);
      OneAdded(dag.vertices.Keys, before, dag.edges, path, prerequisites[i], ok);
      if !ok {
        assert Added(dag.vertices.Keys, old(dag.edges), dag.edges, path, prerequisites, i);
        return false;
      }
      assert prerequisites[..i + 1] == prerequisites[..i] + [prerequisites[i]];
      assert EdgesTo(path, prerequisites[..i + 1]) == EdgesTo(path, prerequisites[..i]) + {(prerequisites[i], path)};
    }
    assert prerequisites[..|prerequisites|] == prerequisites;
    assert Added(dag.vertices.Keys, old(dag.edges), dag.edges, path, prerequisites, |prerequisites|);
    return true;
  }

  lemma OneAdded(vertices: set<Path>, before: Edges, after: Edges, p: Path, q: Path, ok: bool)
    requires exists n :: Added(vertices, before, after, p, [q], n) && (ok <==> n == |[q]|)
    ensures if ok then after == before + {(q, p)} else after == before && Refused(vertices, after, p, q)
  {
    var n :| Added(vertices, before, after, p, [q], n) && (ok <==> n == |[q]|);
    assert [q][..0] == [] && [q][..1] == [q];
    assert EdgesTo(p, []) == {} && EdgesTo(p, [q]) == {(q, p)};
    assert before + {} == before;
  }

  /** Succeeds exactly when every prerequisite is one of the files and they are not cyclic. */
  method NewStackerFilesDAG(sfm: Files) returns (ok: bool, dag: Dag<Stackerfile>)
    ensures fresh(dag) && dag.Valid()
    ensures ok ==> dag.vertices == sfm && dag.edges == Depends(sfm)
    ensures ok <==> (forall p <- sfm, q <- sfm[p].prerequisites :: q in sfm) && NoSelfLoops(Depends(sfm)) && Acyclic(Depends(sfm))
  {
    dag := NewDagOf(sfm);
    var todo := sfm.Keys;
    while todo != {}
      invariant fresh(dag) && dag.Valid() && todo <= sfm.Keys && dag.vertices == sfm
      invariant dag.edges == DependsOf(sfm, sfm.Keys - todo)
      decreases |todo|
    {
      var path :| path in todo;
      ghost var done := sfm.Keys - todo;
      ok := AddPrerequisiteEdges(dag, path, sfm[path].prerequisites);
      DependsOfMore(sfm, done, path);
      if !ok {
        ghost var n :| Added(sfm.Keys, DependsOf(sfm, done), dag.edges, path, sfm[path].prerequisites, n) && n < |sfm[path].prerequisites|;
        RefusedOverall(sfm, done, path, n, dag.edges);
        return;
      }
      AllAdded(sfm, done, path, dag.edges);
      todo := todo - {path};
      assert sfm.Keys - todo == done + {path};
    }
    ok := true;
    AllDepend(sfm, dag.edges);
  }

  /** The edges of the files in `done`. */
  function DependsOf(sfm: Files, done: set<Path>): Edges {
    set p, q | p in done && p in sfm && q in sfm[p].prerequisites :: (q, p)
  }

  lemma DependsOfMore(sfm: Files, done: set<Path>, p: Path)
    requires p in sfm
    ensures DependsOf(sfm, done + {p}) == DependsOf(sfm, done) + EdgesTo(p, sfm[p].prerequisites)
    ensures DependsOf(sfm, done + {p}) <= Depends(sfm)
  {
  }

  lemma AllAdded(sfm: Files, done: set<Path>, p: Path, edges: Edges)
    requires p in sfm && Added(sfm.Keys, DependsOf(sfm, done), edges, p, sfm[p].prerequisites, |sfm[p].prerequisites|)
    ensures edges == DependsOf(sfm, done + {p})
  {
    var deps := sfm[p].prerequisites;
    assert deps[..|deps|] == deps;
    DependsOfMore(sfm, done, p);
  }

  lemma AllDepend(sfm: Files, edges: Edges)
    requires edges == DependsOf(sfm, sfm.Keys)
    requires forall e <- edges :: e.0 in sfm && e.1 in sfm
    ensures edges == Depends(sfm) && forall p <- sfm, q <- sfm[p].prerequisites :: q in sfm
  {
    forall p <- sfm, q <- sfm[p].prerequisites ensures q in sfm {
      assert (q, p) in edges;
    }
  }

  lemma RefusedOverall(sfm: Files, done: set<Path>, p: Path, n: int, edges: Edges)
    requires p in sfm && 0 <= n < |sfm[p].prerequisites|
    requires Added(sfm.Keys, DependsOf(sfm, done), edges, p, sfm[p].prerequisites, n)
    ensures !((forall p <- sfm, q <- sfm[p].prerequisites :: q in sfm) && NoSelfLoops(Depends(sfm)) && Acyclic(Depends(sfm)))
  {
    var deps := sfm[p].prerequisites;
    var q := deps[n];
    DependsOfMore(sfm, done, p);
    assert q in deps && (q, p) in Depends(sfm);
    forall x | x in deps[..n] ensures (x, p) in Depends(sfm) {
      assert x in deps;
    }
    if q in sfm && p != q && Acyclic(Depends(sfm)) {
      AcyclicSubset(edges + {(q, p)}, Depends(sfm));
    }
  }

  // ----- building every file -----

  function Restrict(sfm: Files, paths: seq<Path>): Files {
    map p | p in sfm && p in paths :: sfm[p]
  }

  /** Every file comes after its prerequisites. */
  ghost predicate SortedFiles(sfm: Files, paths: seq<Path>) {
    && Distinct(paths) && (forall p :: p in paths <==> p in sfm)
    && forall i {:trigger paths[i]} :: 0 <= i < |paths| ==> forall q <- sfm[paths[i]].prerequisites :: q in paths[..i]
  }

  lemma SortedDagIsSorted(sfm: Files, paths: seq<Path>)
    requires Distinct(paths) && DagModel.Ordered(paths, Depends(sfm)) && forall k :: k in paths <==> k in sfm
    requires forall p <- sfm, q <- sfm[p].prerequisites :: q in sfm
    ensures SortedFiles(sfm, paths)
  {
    forall i | 0 <= i < |paths| ensures forall q <- sfm[paths[i]].prerequisites :: q in paths[..i] {
      assert paths[i] in paths && paths[i] in sfm;
      forall q <- sfm[paths[i]].prerequisites ensures q in paths[..i] {
        assert (q, paths[i]) in Depends(sfm);
        assert q in sfm && q in paths;
        var j :| 0 <= j < |paths| && paths[j] == q;
        assert j < i;
      }
    }
  }

  lemma PrerequisitesStayEarlier(sfm: Files, paths: seq<Path>, i: nat, path: seq<Path>, k: nat)
    requires SortedFiles(sfm, paths) && i < |paths| && k < |path|
    requires IsPath(Uses(sfm), path) && path[0] in paths[..i]
    ensures path[k] in paths[..i]
  {
    if k > 0 {
      PrerequisitesStayEarlier(sfm, paths, i, path, k - 1);
      assert (path[k - 1], path[k]) in Uses(sfm);
      var j :| 0 <= j < i && paths[j] == path[k - 1];
      assert path[k] in sfm[paths[j]].prerequisites;
      assert paths[..j] <= paths[..i];
    }
  }

  lemma PathIsEarlier(sfm: Files, paths: seq<Path>, i: nat, path: seq<Path>)
    requires SortedFiles(sfm, paths) && i < |paths| && IsPath(Uses(sfm), path) && path[0] in paths[..i]
    ensures path[|path| - 1] in paths[..i] && IsPath(Uses(Restrict(sfm, paths[..i])), path)
  {
    forall k | 0 <= k < |path| ensures path[k] in paths[..i] {
      PrerequisitesStayEarlier(sfm, paths, i, path, k);
    }
    forall k | 0 <= k < |path| - 1 ensures (path[k], path[k + 1]) in Uses(Restrict(sfm, paths[..i])) {
      assert (path[k], path[k + 1]) in Uses(sfm) && path[k] in paths[..i];
    }
  }

  lemma RestrictedPath(sfm: Files, paths: seq<Path>, path: seq<Path>)
    requires IsPath(Uses(Restrict(sfm, paths)), path)
    ensures IsPath(Uses(sfm), path)
  {
    forall k | 0 <= k < |path| - 1 ensures (path[k], path[k + 1]) in Uses(sfm) {
      assert (path[k], path[k + 1]) in Uses(Restrict(sfm, paths));
    }
  }

  /** Among the files built before the i-th, its prerequisites are all found, however deep, and no
      other file is found through them. */
  lemma PrerequisitesAreBuilt(sfm: Files, paths: seq<Path>, i: nat)
    requires SortedFiles(sfm, paths) && i < |paths|
    ensures paths[i] in sfm && AllFound(Restrict(sfm, paths[..i]), sfm[paths[i]].prerequisites)
    ensures forall q :: Reached(Restrict(sfm, paths[..i]), sfm[paths[i]].prerequisites, q) <==>
      Reached(sfm, sfm[paths[i]].prerequisites, q)
  {
    assert paths[i] in paths;
    var built, wanted := Restrict(sfm, paths[..i]), sfm[paths[i]].prerequisites;
    forall q | Reached(built, wanted, q) ensures q in built && Reached(sfm, wanted, q) {
      var p :| p in wanted && Reaches(Uses(built), p, q);
      var path :| Connects(Uses(built), path, p, q);
      RestrictedPath(sfm, paths[..i], path);
      PathIsEarlier(sfm, paths, i, path);
      assert Connects(Uses(sfm), path, p, q);
    }
    forall q | Reached(sfm, wanted, q) ensures Reached(built, wanted, q) {
      var p :| p in wanted && Reaches(Uses(sfm), p, q);
      var path :| Connects(Uses(sfm), path, p, q);
      PathIsEarlier(sfm, paths, i, path);
      assert Connects(Uses(built), path, p, q);
    }
  }

  ghost function Position(paths: seq<Path>, p: Path): (i: nat)
    requires p in paths
    ensures i < |paths| && paths[i] == p
  {
    var i :| 0 <= i < |paths| && paths[i] == p;
    i
  }

  ghost function Positions(paths: seq<Path>): map<Path, nat> {
    map p | p in paths :: Position(paths, p)
  }

  lemma SortedIsRanked(sfm: Files, paths: seq<Path>, i: nat)
    requires SortedFiles(sfm, paths) && i < |paths|
    ensures Ranked(Restrict(sfm, paths[..i]), Positions(paths))
    ensures forall q <- sfm[paths[i]].prerequisites :: q in Positions(paths) && Positions(paths)[q] < i
  {
    forall k, q | 0 <= k < |paths| && q in sfm[paths[k]].prerequisites
      ensures q in paths && Position(paths, q) < k
    {
      assert q in paths[..k];
      var j :| 0 <= j < k && paths[j] == q;
    }
    forall p | p in Restrict(sfm, paths[..i])
      ensures p in Positions(paths)
      ensures forall q <- sfm[p].prerequisites :: q in Positions(paths) && Positions(paths)[q] < Positions(paths)[p]
    {
      assert p in paths;
      assert p == paths[Position(paths, p)];
    }
  }

  /** The i-th layer built is defined in some file and finds everything it needs built before it. */
  ghost predicate MetIn(sfm: Files, order: seq<Name>, i: nat)
    requires i < |order|
  {
    exists p <- sfm :: order[i] in sfm[p].layers && Needs(sfm[p].layers[order[i]]) <= Elements(order[..i])
  }

  ghost predicate AllMet(sfm: Files, order: seq<Name>) {
    Distinct(order) && forall i {:trigger MetIn(sfm, order, i)} :: 0 <= i < |order| ==> MetIn(sfm, order, i)
  }

  ghost predicate BuiltLayers(sfm: Files, paths: seq<Path>, order: seq<Name>) {
    forall n :: n in order <==> exists p <- paths :: p in sfm && n in sfm[p].layers
  }

  lemma AppendMet(sfm: Files, p: Path, prereq: set<Name>, before: seq<Name>, order: seq<Name>)
    requires AllMet(sfm, before) && p in sfm && Valid(sfm[p], prereq, order)
    requires prereq <= Elements(before) && forall n <- order :: n !in before
    ensures AllMet(sfm, before + order)
  {
    var all := before + order;
    forall i, j | 0 <= i < j < |all| ensures all[i] != all[j] {
      if i < |before| <= j {
        assert all[j] == order[j - |before|] && order[j - |before|] in order;
      }
    }
    forall i | 0 <= i < |all| ensures MetIn(sfm, all, i) {
      if i < |before| {
        assert MetIn(sfm, before, i);
        assert all[..i] == before[..i];
      } else {
        assert Met(sfm[p], prereq, order, i - |before|);
        assert all[..i] == before + order[..i - |before|];
      }
    }
  }

  /** The layers of all files that a file's prerequisites lead to. */
  ghost function PrerequisiteNames(sfm: Files, p: Path): set<Name>
    requires p in sfm
  {
    set q, n | q in sfm && n in sfm[q].layers && Reached(sfm, sfm[p].prerequisites, q) :: n
  }

  lemma ProcessedAre(sfm: Files, paths: seq<Path>, i: nat, processed: set<Name>)
    requires SortedFiles(sfm, paths) && i < |paths| && paths[i] in sfm
    requires forall n :: n in processed <==>
      PrerequisiteLayer(Restrict(sfm, paths[..i]), sfm[paths[i]].prerequisites, n)
    ensures processed == PrerequisiteNames(sfm, paths[i])
  {
    PrerequisitesAreBuilt(sfm, paths, i);
    var built, wanted := Restrict(sfm, paths[..i]), sfm[paths[i]].prerequisites;
    forall n | n in PrerequisiteNames(sfm, paths[i]) ensures n in processed {
      var q :| q in sfm && n in sfm[q].layers && Reached(sfm, wanted, q);
      assert Reached(built, wanted, q) && q in built;
      assert PrerequisiteLayer(built, wanted, n);
    }
    forall n | n in processed ensures n in PrerequisiteNames(sfm, paths[i]) {
      var q :| Reached(built, wanted, q) && q in built && n in built[q].layers;
      assert Reached(sfm, wanted, q);
    }
  }

  lemma PrerequisitesAreEarlier(sfm: Files, paths: seq<Path>, i: nat, built: seq<Name>, n: Name)
    requires SortedFiles(sfm, paths) && i < |paths| && paths[i] in sfm && BuiltLayers(sfm, paths[..i], built)
    requires n in PrerequisiteNames(sfm, paths[i])
    ensures n in built
  {
    PrerequisitesAreBuilt(sfm, paths, i);
    var q :| q in sfm && n in sfm[q].layers && Reached(sfm, sfm[paths[i]].prerequisites, q);
    assert Reached(Restrict(sfm, paths[..i]), sfm[paths[i]].prerequisites, q);
    assert q in paths[..i];
  }

  lemma NamesAreNew(sfm: Files, paths: seq<Path>, i: nat, built: seq<Name>, n: Name)
    requires SortedFiles(sfm, paths) && UniqueNames(sfm) && i < |paths| && paths[i] in sfm
    requires BuiltLayers(sfm, paths[..i], built) && n in sfm[paths[i]].layers
    ensures n !in built
  {
    forall p <- paths[..i] | p in sfm ensures n !in sfm[p].layers {
      assert p != paths[i];
      assert sfm[p].layers.Keys !! sfm[paths[i]].layers.Keys;
    }
  }

  lemma BuiltMore(sfm: Files, paths: seq<Path>, i: nat, built: seq<Name>, prereq: set<Name>, order: seq<Name>)
    requires i < |paths| && paths[i] in sfm && BuiltLayers(sfm, paths[..i], built) && Complete(sfm[paths[i]], prereq, order)
    ensures BuiltLayers(sfm, paths[..i + 1], built + order)
  {
    assert paths[..i + 1] == paths[..i] + [paths[i]];
    forall n ensures n in built + order <==> exists p <- paths[..i + 1] :: p in sfm && n in sfm[p].layers {
      if n in order {
        assert paths[i] in paths[..i + 1] && n in sfm[paths[i]].layers;
      }
      if n in built {
        var p :| p in paths[..i] && p in sfm && n in sfm[p].layers;
        assert p in paths[..i + 1];
      }
    }
  }

  ghost predicate Unorderable(s: Stackerfile, prereq: set<Name>) {
    !((forall n <- s.layers :: n !in prereq && !s.layers[n].from.NoBase?) && exists order :: Complete(s, prereq, order))
  }

  /** The file's own layers cannot be ordered, or one has a colon in its name. */
  ghost predicate FileFails(sfm: Files, p: Path)
    requires p in sfm
  {
    Unorderable(sfm[p], PrerequisiteNames(sfm, p)) || exists n <- sfm[p].layers :: ':' in n
  }

  /** No name may have a colon, which separates the directories of an overlay mount. */
  method NamesAreAllowed(order: seq<Name>) returns (ok: bool)
    ensures ok <==> forall n <- order :: ':' !in n
  {
    for i := 0 to |order|
      invariant forall n <- order[..i] :: ':' !in n
    {
      if ':' in order[i] {
        assert order[i] in order;
        return false;
      }
    }
    assert order[..|order|] == order;
    return true;
  }

  method OrderFile(sfm: Files, paths: seq<Path>, i: nat, builtStackerfiles: Files, ghost built: seq<Name>)
    returns (r: Result<seq<Name>>)
    requires SortedFiles(sfm, paths) && UniqueNames(sfm) && forall p <- sfm :: WellFormed(sfm[p])
    requires i < |paths| && paths[i] in sfm && builtStackerfiles == Restrict(sfm, paths[..i])
    requires AllMet(sfm, built) && BuiltLayers(sfm, paths[..i], built)
    ensures r.Err? <==> FileFails(sfm, paths[i])
    ensures r.Ok? ==> AllMet(sfm, built + r.value) && BuiltLayers(sfm, paths[..i + 1], built + r.value)
  {
    PrerequisitesAreBuilt(sfm, paths, i);
    SortedIsRanked(sfm, paths, i);
    var sf := sfm[paths[i]];
    var found, processed := AddPrerequisites(builtStackerfiles, sf.prerequisites, {}, Positions(paths), i);
    ProcessedAre(sfm, paths, i, processed);
    r := DependencyOrder(sf, processed);
    if r.Err? {
      assert Unorderable(sf, processed);
      return;
    }
    ghost var order := r.value;
    assert !Unorderable(sf, processed) && Complete(sf, processed, order);
    var allowed := NamesAreAllowed(r.value);
    if !allowed {
      return Err;
    }
    forall n <- processed ensures n in built { PrerequisitesAreEarlier(sfm, paths, i, built, n); }
    forall n <- order ensures n !in built { NamesAreNew(sfm, paths, i, built, n); }
    AppendMet(sfm, paths[i], processed, built, order);
    BuiltMore(sfm, paths, i, built, processed, order);
  }

  lemma OneMoreFile(sfm: Files, paths: seq<Path>, i: nat, orders: seq<seq<Name>>, order: seq<Name>)
    requires i < |paths| && paths[i] in sfm
    ensures CacheModel.Concat(orders + [order]) == CacheModel.Concat(orders) + order
    ensures Restrict(sfm, paths[..i])[paths[i] := sfm[paths[i]]] == Restrict(sfm, paths[..i + 1])
  {
    assert (orders + [order])[..|orders|] == orders;
    assert paths[..i + 1] == paths[..i] + [paths[i]];
  }

  /** Files in sorted order, layers in each file's order: no prerequisite is ever missing, and in the
      order in which everything is built each layer comes after all that it needs.  It fails if and
      only if some file's own layers cannot be ordered or one has a colon in its name. */
  method BuildMultiple(sfm: Files, paths: seq<Path>) returns (r: Result<seq<seq<Name>>>)
    requires SortedFiles(sfm, paths) && UniqueNames(sfm) && forall p <- sfm :: WellFormed(sfm[p])
    ensures r.Ok? ==> AllMet(sfm, CacheModel.Concat(r.value)) && BuiltLayers(sfm, paths, CacheModel.Concat(r.value))
    ensures r.Ok? <==> forall p <- sfm :: !FileFails(sfm, p)
  {
    var orders: seq<seq<Name>> := [];
    var builtStackerfiles: Files := map[];
    for i := 0 to |paths|
      invariant builtStackerfiles == Restrict(sfm, paths[..i])
      invariant forall p <- paths[..i] :: p in sfm && !FileFails(sfm, p)
      invariant AllMet(sfm, CacheModel.Concat(orders)) && BuiltLayers(sfm, paths[..i], CacheModel.Concat(orders))
    {
      assert paths[i] in paths;
      var order := OrderFile(sfm, paths, i, builtStackerfiles, CacheModel.Concat(orders));
      if order.Err? {
        return Err;
      }
      OneMoreFile(sfm, paths, i, orders, order.value);
      orders := orders + [order.value];
      builtStackerfiles := builtStackerfiles[paths[i] := sfm[paths[i]]];
    }
    assert paths[..|paths|] == paths;
    return Ok(orders);
  }

  // ----- the order serves the cached build -----

  /** The cache's view of a layer refers to nothing but what the layer needs. */
  ghost predicate Describes(w: CacheModel.World, sfm: Files) {
    forall p <- sfm, n <- sfm[p].layers ::
      n in w.layers && var l, needs := w.layers[n], Needs(sfm[p].layers[n]);
        (l.from.Built? ==> l.from.tag in needs) &&
        forall imp <- l.imports :: imp.location.Stacker? ==> imp.location.host in needs
  }

  /** The order in which BuildMultiple builds is one in which cached and clean builds agree
      (CacheTheorems.IncrementalEqualsClean). */
  lemma {:induction false} BuildOrderIsOrdered(w: CacheModel.World, sfm: Files, order: seq<Name>)
    requires Describes(w, sfm) && AllMet(sfm, order)
    ensures CacheTheorems.Ordered(w, order)
  {
    if order != [] {
      var before, n := order[..|order| - 1], order[|order| - 1];
      forall i | 0 <= i < |before| ensures MetIn(sfm, before, i) {
        assert MetIn(sfm, order, i);
        assert before[..i] == order[..i];
      }
      BuildOrderIsOrdered(w, sfm, before);
      assert MetIn(sfm, order, |order| - 1);
    }
  }
}

/** Building stacker files from the paths on the command line: reading them with their prerequisites,
    sorting them and ordering their layers, in one run (pkg/stacker/build.go:581-634). */
module WholeBuild {
  import opened Wrappers
  import opened Graphs
  import opened DagModel
  import opened BuildOrder
  import opened MultiFile
  import CacheModel

  // ----- how deep reading nests -----

  lemma {:induction false} DeeperWithLess(files: Files, paths: seq<Path>, more: nat, less: nat)
    requires Deeper(files, paths, more) && less <= more
    ensures Deeper(files, paths, less)
    decreases less
  {
    if less > 0 {
      var p :| p in paths && p in files && Deeper(files, files[p].prerequisites, more - 1);
      DeeperWithLess(files, files[p].prerequisites, more - 1, less - 1);
    }
  }

  /** Prerequisites that do not lead back to their file need no more nested calls than their ranks. */
  lemma {:induction false} RankedIsShallow(files: Files, paths: seq<Path>, rank: map<Path, nat>, bound: nat)
    requires Ranked(files, rank) && forall p <- paths :: p in files ==> rank[p] < bound
    ensures !Deeper(files, paths, bound + 1)
    decreases bound
  {
    if Deeper(files, paths, bound + 1) {
      var p :| p in paths && p in files && Deeper(files, files[p].prerequisites, bound);
      RankedIsShallow(files, files[p].prerequisites, rank, rank[p]);
      DeeperWithLess(files, files[p].prerequisites, bound, rank[p] + 1);
    }
  }

  /** Files each of which has a prerequisite among them. */
  ghost predicate Endless(files: Files, loop: set<Path>) {
    forall p <- loop :: p in files && Meets(files[p].prerequisites, loop)
  }

  predicate Meets(paths: seq<Path>, loop: set<Path>) {
    exists q <- paths :: q in loop
  }

  lemma {:induction false} EndlessIsDeep(files: Files, loop: set<Path>, paths: seq<Path>, stack: nat)
    requires Endless(files, loop) && Meets(paths, loop)
    ensures Deeper(files, paths, stack)
    decreases stack
  {
    if stack > 0 {
      var p :| p in paths && p in loop;
      EndlessIsDeep(files, loop, files[p].prerequisites, stack - 1);
    }
  }

  lemma FirstEdge(files: Files, p: Path, x: Path) returns (q: Path)
    requires Reaches(Uses(files), p, x) && p != x
    ensures p in files && q in files[p].prerequisites && Reaches(Uses(files), q, x)
  {
    var path :| Connects(Uses(files), path, p, x);
    assert (path[0], path[1]) in Uses(files);
    q := path[1];
    assert Connects(Uses(files), path[1..], q, x);
  }

  ghost function LeadTo(files: Files, x: Path): set<Path> {
    set p | p in files && Reaches(Uses(files), p, x)
  }

  /** What leads to a file that leads back to itself has no end. */
  lemma LoopIsEndless(files: Files, x: Path, y: Path)
    requires x in files && y in files[x].prerequisites && Reaches(Uses(files), y, x)
    ensures Endless(files, LeadTo(files, x))
  {
    var loop := LeadTo(files, x);
    forall p | p in loop ensures Meets(files[p].prerequisites, loop) {
      var q := y;
      if p != x {
        q := FirstEdge(files, p, x);
      }
      assert q in files[p].prerequisites;
      if q != x {
        var _ := FirstEdge(files, q, x);
      } else {
        ReachesSelf(Uses(files), x);
      }
    }
  }

  /** A file that leads back to itself and is reached needs a stack without end. */
  lemma CyclicIsDeep(files: Files, paths: seq<Path>, x: Path, y: Path, stack: nat)
    requires Reached(files, paths, x)
    requires x in files && y in files[x].prerequisites && Reaches(Uses(files), y, x)
    ensures Deeper(files, paths, stack)
  {
    LoopIsEndless(files, x, y);
    var p :| p in paths && Reaches(Uses(files), p, x);
    if p != x {
      var _ := FirstEdge(files, p, x);
    }
    EndlessIsDeep(files, LeadTo(files, x), paths, stack);
  }

  // ----- what was read can be sorted -----

  lemma CollectedClosed(files: Files, paths: seq<Path>, sfm: Files, p: Path, q: Path)
    requires Collected(files, paths, sfm) && p in sfm && q in sfm[p].prerequisites
    ensures q in sfm && (p, q) in Uses(files)
  {
    var r :| r in paths && Reaches(Uses(files), r, p);
    assert (p, q) in Uses(files);
    ReachesEdge(Uses(files), p, q);
    ReachesTransitive(Uses(files), r, p, q);
    assert Reached(files, paths, q);
  }

  lemma {:induction false} CycleBack(files: Files, paths: seq<Path>, sfm: Files, c: seq<Path>)
    requires Collected(files, paths, sfm) && IsPath(Depends(sfm), c)
    ensures Reaches(Uses(files), c[|c| - 1], c[0])
    decreases |c|
  {
    if |c| == 1 {
      ReachesSelf(Uses(files), c[0]);
    } else {
      CycleBack(files, paths, sfm, c[1..]);
      assert (c[0], c[1]) in Depends(sfm);
      CollectedClosed(files, paths, sfm, c[1], c[0]);
      ReachesEdge(Uses(files), c[1], c[0]);
      ReachesTransitive(Uses(files), c[|c| - 1], c[1], c[0]);
    }
  }

  /** Files whose reading came back are in no cycle, so that the graph of files refuses none. */
  lemma ReadIsAcyclic(files: Files, paths: seq<Path>, sfm: Files, stack: nat)
    requires Collected(files, paths, sfm) && !Deeper(files, paths, stack)
    ensures forall p <- sfm, q <- sfm[p].prerequisites :: q in sfm
    ensures NoSelfLoops(Depends(sfm)) && Acyclic(Depends(sfm))
  {
    forall p <- sfm, q <- sfm[p].prerequisites ensures q in sfm {
      CollectedClosed(files, paths, sfm, p, q);
    }
    forall c ensures !IsCycle(Depends(sfm), c) {
      if IsCycle(Depends(sfm), c) {
        assert (c[0], c[1]) in Depends(sfm);
        CycleBack(files, paths, sfm, c[1..]);
        CyclicIsDeep(files, paths, c[1], c[0], stack);
      }
    }
    forall a ensures (a, a) !in Depends(sfm) {
      if (a, a) in Depends(sfm) {
        assert IsCycle(Depends(sfm), [a, a]);
      }
    }
  }

  // ----- the whole run -----

  /** No file reached has layers that cannot be ordered or whose names are not allowed. */
  ghost predicate AllBuildable(files: Files, paths: seq<Path>) {
    forall sfm, p :: Collected(files, paths, sfm) && p in sfm ==> !FileFails(sfm, p)
  }

  lemma CollectedOnce(files: Files, paths: seq<Path>, sfm: Files)
    requires Collected(files, paths, sfm)
    ensures AllBuildable(files, paths) <==> forall p <- sfm :: !FileFails(sfm, p)
  {
    forall other | Collected(files, paths, other) ensures other == sfm {
      forall q ensures q in other <==> q in sfm {}
      assert other.Keys == sfm.Keys;
    }
  }

  /** From the paths given to the order in which every layer is built.  It succeeds if and only if
      every file reached can be read, layer names are unique and have no colon, each file's layers can
      be ordered, and the stack suffices, which it never does for cyclic prerequisites.  Then every
      layer of every file reached is built once, after all that it needs. */
  method BuildMultiple(files: Files, paths: seq<Path>, stack: nat) returns (r: Outcome<seq<seq<Name>>>, ghost sfm: Files)
    requires forall p <- files :: WellFormed(files[p])
    ensures r.Done? ==> Collected(files, paths, sfm) && AllMet(sfm, CacheModel.Concat(r.value))
    ensures r.Done? ==> forall n :: n in CacheModel.Concat(r.value) <==> exists p <- sfm :: n in sfm[p].layers
    ensures r.Done? <==> Readable(files, paths) && !Deeper(files, paths, stack) && AllBuildable(files, paths)
    ensures r.Exhausted? ==> Deeper(files, paths, stack)
  {
    sfm := map[];
    var read := NewStackerFiles(files, paths, stack);
    if read.Exhausted? {
      return Exhausted, sfm;
    }
    if read.Failed? {
      return Failed, sfm;
    }
    var stackerFiles := read.value;
    sfm := stackerFiles;
    ReadIsAcyclic(files, paths, stackerFiles, stack);
    var ok, dag := NewStackerFilesDAG(stackerFiles);
    var sortedPaths := dag.Sort();
    SortedDagIsSorted(stackerFiles, sortedPaths);
    var built := MultiFile.BuildMultiple(stackerFiles, sortedPaths);
    CollectedOnce(files, paths, stackerFiles);
    if built.Err? {
      return Failed, sfm;
    }
    r := Done(built.value);
  }
}

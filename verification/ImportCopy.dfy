/** The cached copy of an imported directory as an object that the import changes call by call
    (pkg/stacker/import.go:136-236, pkg/lib/file.go:14-70), proved against ImportSync.dfy. */
module ImportCopy {
  import opened Wrappers
  import opened ImportSync
  import opened ImportProofs
  import opened ImportTheorems

  class Copy {
    var tree: Tree
    const ends: Ends   // where links lead

    constructor (tree: Tree, ends: Ends)
      ensures this.tree == tree && this.ends == ends
    {
      this.tree, this.ends := tree, ends;
    }

    method RemoveAll(p: Path) returns (ok: bool)
      modifies this
      ensures ok <==> ImportSync.RemoveAll(old(tree), ends, p).Ok?
      ensures tree == if ok then ImportSync.RemoveAll(old(tree), ends, p).value else old(tree)
    {
      match PlaceOf(tree, ends, p) {
        case At(q) => tree := Without(tree, q);
        case Outside =>
        case Nowhere =>
        case _ => return false;
      }
      return true;
    }

    method Mkdir(p: Path) returns (ok: bool)
      modifies this
      ensures ok <==> ImportSync.Mkdir(old(tree), ends, p).Ok?
      ensures tree == if ok then ImportSync.Mkdir(old(tree), ends, p).value else old(tree)
    {
      match PlaceOf(tree, ends, p) {
        case At(q) =>
          if q in tree {
            return tree[q] == Directory;
          }
          tree := tree[q := Directory];
        case Outside =>
        case _ => return false;
      }
      return true;
    }

    method MkdirAll(p: Path) returns (ok: bool)
      modifies this
      ensures ok <==> ImportSync.MkdirAll(old(tree), ends, p).Ok?
      ensures ok ==> tree == ImportSync.MkdirAll(old(tree), ends, p).value
      decreases |p|
    {
      var found := Dir(tree, ends, p);
      if found.At? || found.Outside? {
        return true;
      }
      if found.NotADirectory? {
        return false;
      }
      ok := MkdirAll(Parent(p));
      if ok {
        ok := Mkdir(p);
      }
    }

    method FileCopy(p: Path, node: Node) returns (ok: bool)
      modifies this
      ensures ok <==> ImportSync.FileCopy(old(tree), ends, p, node).Ok?
      ensures ok ==> tree == ImportSync.FileCopy(old(tree), ends, p, node).value
    {
      var _ := RemoveAll(p);
      match PlaceOf(tree, ends, p) {
        case At(q) => tree := tree[q := node];
        case Outside =>
        case _ => return false;
      }
      return true;
    }

    method ImportDirectory(p: Path) returns (ok: bool)
      modifies this
      ensures ok <==> ImportSync.ImportDirectory(old(tree), ends, p).Ok?
      ensures ok ==> tree == ImportSync.ImportDirectory(old(tree), ends, p).value
    {
      var found := PlaceOf(tree, ends, p);
      if found.NotADirectory? || found.TooManyLinks? {
        return false;
      }
      // a file or link that became a directory is deleted, a directory never is
      if found.At? && found.path in tree && tree[found.path] != Directory {
        tree := tree - {found.path};
      }
      ok := MkdirAll(p);
    }

    /** Applies the differences one by one.  When all went well and every link in conflict with a
        directory is safe, the copy equals the source. */
    method ImportFile(source: Tree, diffs: seq<Path>) returns (ok: bool)
      requires WellFormed(tree) && WellFormed(source) && Covers(tree, source, diffs)
      modifies this
      ensures ok <==> Sync(old(tree), source, ends, diffs).Ok?
      ensures ok ==> tree == Sync(old(tree), source, ends, diffs).value
      ensures ok && ConflictsSettled(old(tree), source, ends) && SafeLinks(old(tree), source, ends) ==> tree == source
      ensures ok && NoConflicts(old(tree), source) ==> tree == source
    {
      for i := 0 to |diffs|
        invariant Sync(old(tree), source, ends, diffs[..i]) == Ok(tree)
      {
        var p := diffs[i];
        assert diffs[..i + 1][..i] == diffs[..i];
        if p !in source {
          ok := RemoveAll(p);
        } else if source[p].Directory? {
          ok := ImportDirectory(p);
        } else {
          ok := MkdirAll(Parent(p));
          if ok {
            ok := FileCopy(p, source[p]);
          }
        }
        if !ok {
          SyncFails(old(tree), source, ends, diffs, i + 1);
          return false;
        }
      }
      assert diffs[..|diffs|] == diffs;
      Converged(old(tree), source, ends, diffs);
      return true;
    }
  }

  lemma Converged(dest: Tree, source: Tree, ends: Ends, diffs: seq<Path>)
    requires WellFormed(dest) && WellFormed(source) && Covers(dest, source, diffs)
    requires Sync(dest, source, ends, diffs).Ok?
    ensures ConflictsSettled(dest, source, ends) && SafeLinks(dest, source, ends) ==>
      Sync(dest, source, ends, diffs).value == source
    ensures NoConflicts(dest, source) ==> Sync(dest, source, ends, diffs).value == source
  {
    if NoConflicts(dest, source) {
      NoConflictsIsSafe(dest, source, ends);
    }
    if ConflictsSettled(dest, source, ends) && SafeLinks(dest, source, ends) {
      SafeLinksConverge(dest, source, ends, diffs);
    }
  }

  lemma {:induction false} SyncFails(t: Tree, source: Tree, ends: Ends, diffs: seq<Path>, i: nat)
    requires i <= |diffs| && Sync(t, source, ends, diffs[..i]).Err?
    ensures Sync(t, source, ends, diffs).Err?
    decreases |diffs|
  {
    if i < |diffs| {
      assert diffs[..|diffs| - 1][..i] == diffs[..i];
      SyncFails(t, source, ends, diffs[..|diffs| - 1], i);
    } else {
      assert diffs[..i] == diffs;
    }
  }
}

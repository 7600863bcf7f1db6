/** With safe links every difference puts its path right and spoils no other, whatever the order. */
module ImportProofs {
  import opened Wrappers
  import opened ImportSync

  // ----- the states of a run -----

  /** Every node is the copy's or the source's, and what was right at the start is right. */
  ghost predicate Steady(t: Tree, dest: Tree, source: Tree) {
    && WellFormed(t)
    && (forall q <- t :: (q in dest && t[q] == dest[q]) || (q in source && t[q] == source[q]))
    && forall q :: Right(dest, source, q) ==> Right(t, source, q)
  }

  predicate Spoils(t: Tree, t': Tree, source: Tree, q: Path) {
    Right(t, source, q) && !Right(t', source, q)
  }

  /** A step from t to t' that puts p right. */
  ghost predicate GoodStep(t: Tree, t': Tree, dest: Tree, source: Tree, p: Path) {
    && Steady(t', dest, source) && Right(t', source, p)
    && forall q :: !Spoils(t, t', source, q)
  }

  ghost predicate Setting(dest: Tree, source: Tree, ends: Ends) {
    && WellFormed(dest) && WellFormed(source)
    && ConflictsSettled(dest, source, ends) && SafeLinks(dest, source, ends)
  }

  /** A path that stays leads to the same in every state of a run. */
  lemma SettledEnd(t: Tree, dest: Tree, source: Tree, ends: Ends, q: Path)
    requires Steady(t, dest, source) && WellFormed(dest) && WellFormed(source) && StaysPut(dest, source, q)
    ensures var place := Enter(t, ends, [], q, LINK_LIMIT - 1);
      && (place == At(q) || place == NotADirectory || place == Nowhere)
      && (place == At(q) <==> q in source && source[q] == Directory)
  {
    forall a | a in t && a <= q ensures !t[a].Link? {
      assert Right(dest, source, a);
      assert Right(t, source, a);
    }
    assert Right(dest, source, q);
    assert Right(t, source, q);
    EnterSettled(t, ends, q, LINK_LIMIT - 1);
  }

  lemma StartIsSteady(dest: Tree, source: Tree)
    requires WellFormed(dest)
    ensures Steady(dest, dest, source)
  {
  }

  // ----- what is on the way to a path -----

  /** A link or file above a path that is to be brought over. */
  lemma BlockedImport(t: Tree, dest: Tree, source: Tree, ends: Ends, a: Path, p: Path)
    requires Steady(t, dest, source) && Setting(dest, source, ends)
    requires p in source && a in t && t[a] != Directory && Below(p, a)
    ensures !IsDirectory(Dir(t, ends, a))
  {
    PrefixIsDirectory(source, a, p);
    assert a + [] == a;
    BehindNode(t, ends, a, [], LINK_LIMIT);
    if t[a].Link? {
      assert HasChildren(source, a);
      assert LinkBecomesDirectory(dest, source, a) && !Spills(dest, source, ends, a);
      BehindNode(dest, ends, a, [], LINK_LIMIT);
      var end := ends(a, t[a].target);
      assert SettledInCopy(dest, source, end, a);
      if end.Inside? {
        assert end.path + [] == end.path;
        StartIsSteady(dest, source);
        SettledEnd(t, dest, source, ends, end.path);
        SettledEnd(dest, dest, source, ends, end.path);
      }
    }
  }

  /** A link or file above a path that is to go: what is removed behind it is to go as well. */
  lemma BlockedRemoval(t: Tree, dest: Tree, source: Tree, ends: Ends, a: Path, r: Path)
    requires Steady(t, dest, source) && Setting(dest, source, ends)
    requires r in dest && r !in source && a in t && t[a] != Directory && Below(r, a)
    ensures var place := PlaceOf(t, ends, r);
      !place.Outside? && (place.At? ==> place.path != [] && place.path !in source)
  {
    PrefixIsDirectory(dest, a, r);
    Above(a, r);
    var s := Parent(r)[|a|..];
    assert a + s == Parent(r);
    BehindNode(t, ends, a, s, LINK_LIMIT);
    if t[a].Link? {
      assert HasChildren(dest, a);
      assert DirectoryBecomesLink(dest, source, a);
      var end := ends(a, t[a].target);
      assert SettledInSource(dest, source, end, a);
      BehindNode(source, ends, a, s, LINK_LIMIT);
      assert !Lingers(dest, source, ends, r);
      if end.Inside? {
        RemovalBehind(t, dest, source, ends, a, r);
      }
    }
  }

  /** The first name behind the link is one that the source does not have there. */
  lemma FirstBehind(dest: Tree, source: Tree, ends: Ends, a: Path, child: Path)
    requires Setting(dest, source, ends) && DirectoryBecomesLink(dest, source, a)
    requires child in dest && child != [] && Parent(child) == a
    requires ends(a, source[a].target).Inside?
    ensures ends(a, source[a].target).path + [Last(child)] !in source
  {
    var q := ends(a, source[a].target).path;
    assert SettledInSource(dest, source, ends(a, source[a].target), a);
    Split(child);
    if child in source {
      PrefixIsDirectory(source, a, child);
    }
    if q in source && source[q] == Directory {
      EnterSettled(source, ends, q, LINK_LIMIT - 1);
      assert !Lingers(dest, source, ends, child);
      assert a + [] == a && q + [] == q;
      BehindNode(source, ends, a, [], LINK_LIMIT);
    } else {
      Split(q + [Last(child)]);
    }
  }

  /** The names below a on the way to r. */
  lemma NamesBelow(a: Path, r: Path) returns (child: Path, s: Path)
    requires Below(r, a)
    ensures child <= r && child != [] && Parent(child) == a && child == r[..|a| + 1]
    ensures r != [] && a + s == Parent(r) && r[|a|..] == s + [Last(r)]
    ensures if s != [] then s[0] == Last(child) else Last(r) == Last(child)
  {
    Above(a, r);
    child, s := r[..|a| + 1], Parent(r)[|a|..];
  }

  lemma RemovalBehind(t: Tree, dest: Tree, source: Tree, ends: Ends, a: Path, r: Path)
    requires Steady(t, dest, source) && Setting(dest, source, ends)
    requires DirectoryBecomesLink(dest, source, a) && a in t && t[a] == source[a]
    requires r in dest && Below(r, a) && ends(a, source[a].target).Inside?
    ensures var place := PlaceOf(t, ends, r);
      !place.Outside? && (place.At? ==> place.path != [] && place.path !in source)
  {
    var q := ends(a, source[a].target).path;
    var child, s := NamesBelow(a, r);
    BehindNode(t, ends, a, s, LINK_LIMIT);
    PrefixIsDirectory(dest, child, r);
    FirstBehind(dest, source, ends, a, child);
    assert SettledInSource(dest, source, ends(a, source[a].target), a);
    BehindFree(t, dest, source, ends, a, r, q, s, Last(child));
  }

  lemma BehindFree(
      t: Tree, dest: Tree, source: Tree, ends: Ends, a: Path, r: Path, q: Path, s: Path, name: string)
    requires Steady(t, dest, source) && WellFormed(source) && LinkFree(dest, source, a, q)
    requires r in dest && Below(r, a) && r[|a|..] == s + [Last(r)]
    requires q + [name] !in source && (if s != [] then s[0] == name else Last(r) == name)
    ensures var place := Enter(t, ends, [], q + s, LINK_LIMIT - 1);
      !place.Outside? && (place.At? ==> place.path + [Last(r)] !in source)
  {
    var last := Last(r);
    assert q + [name] <= (q + s) + [last];
    NotBelowAbsent(source, q + [name], (q + s) + [last]);
    NoLinksBehind(t, dest, source, a, r, q, s, name);
    EnterSettled(t, ends, q + s, LINK_LIMIT - 1);
  }

  lemma NotBelowAbsent(t: Tree, x: Path, y: Path)
    requires WellFormed(t) && x !in t && x <= y
    ensures y !in t
  {
    if y in t {
      PrefixIsDirectory(t, x, y);
    }
  }

  lemma NoLinksBehind(t: Tree, dest: Tree, source: Tree, a: Path, r: Path, q: Path, s: Path, name: string)
    requires Steady(t, dest, source) && WellFormed(source) && LinkFree(dest, source, a, q)
    requires r in dest && Below(r, a) && r[|a|..] == s + [Last(r)]
    requires q + [name] !in source && (s != [] ==> s[0] == name)
    ensures forall y <- t :: y <= q + s ==> !t[y].Link?
  {
    forall y | y in t && y <= q + s ensures !t[y].Link? {
      if |y| > |q| {
        FirstName(q, s, y, name);
        NotBelowAbsent(source, q + [name], y);
        assert Behind(a, q, r) == (q + s) + [Last(r)];
      } else {
        assert y <= q;
      }
    }
  }

  lemma FirstName(q: Path, s: Path, y: Path, name: string)
    requires y <= q + s && |y| > |q| && (s != [] ==> s[0] == name)
    ensures q + [name] <= y && q <= y
  {
    assert y[|q|] == s[0];
  }

  // ----- removals -----

  lemma WithoutOk(t: Tree, p: Path)
    requires WellFormed(t) && p != []
    ensures WellFormed(Without(t, p))
  {
    var t' := Without(t, p);
    forall q | q in t' && q != [] ensures Parent(q) in t' && t'[Parent(q)] == Directory {
      assert p <= Parent(q) ==> p <= q;
    }
  }

  lemma NothingToRemove(t: Tree, p: Path)
    requires WellFormed(t) && p !in t
    ensures Without(t, p) == t
  {
    NothingUnder(t, p);
  }

  lemma RemovedIsGood(t: Tree, dest: Tree, source: Tree, r: Path)
    requires Steady(t, dest, source) && WellFormed(source) && r !in source && r != []
    ensures GoodStep(t, Without(t, r), dest, source, r)
  {
    WithoutOk(t, r);
    NothingUnder(source, r);
    var t' := Without(t, r);
    forall q | Right(t, source, q) ensures Right(t', source, q) {
      assert q in source ==> !(r <= q);
    }
    assert Steady(t', dest, source);
  }

  lemma RemovalOk(t: Tree, dest: Tree, source: Tree, ends: Ends, r: Path)
    requires Steady(t, dest, source) && Setting(dest, source, ends) && r in dest && r !in source
    ensures !PlaceOf(t, ends, r).Outside?
    ensures RemoveAll(t, ends, r).Ok? ==> GoodStep(t, RemoveAll(t, ends, r).value, dest, source, r)
  {
    if a :| a in t && Below(r, a) && t[a] != Directory {
      BlockedRemoval(t, dest, source, ends, a, r);
      NothingUnder(t, a);
      if PlaceOf(t, ends, r).At? {
        RemovedIsGood(t, dest, source, PlaceOf(t, ends, r).path);
      }
    } else {
      PlaceClear(t, ends, r);
      RemovedIsGood(t, dest, source, r);
      if Parent(r) !in t {
        NotBelowMissing(t, r);
        NothingToRemove(t, r);
      }
    }
  }

  lemma NotBelowMissing(t: Tree, r: Path)
    requires WellFormed(t) && r != [] && Parent(r) !in t
    ensures r !in t
  {
  }

  // ----- directories -----

  lemma AddedOk(t: Tree, t': Tree, dest: Tree, source: Tree, p: Path)
    requires Steady(t, dest, source) && WellFormed(source) && WellFormed(t') && OnlyAdds(t, t', p)
    requires p in source && source[p] == Directory && p in t' && t'[p] == Directory
    ensures GoodStep(t, t', dest, source, p)
  {
    forall q | q in t' && q !in t ensures q in source && t'[q] == source[q] {
      PrefixIsDirectory(source, q, p);
    }
    forall q | Right(t, source, q) ensures Right(t', source, q) {
      assert q in t' && q !in t ==> q in source;
    }
    assert Steady(t', dest, source);
  }

  lemma DirectoryMade(t: Tree, dest: Tree, source: Tree, ends: Ends, p: Path)
    requires Steady(t, dest, source) && WellFormed(source)
    requires p in source && source[p] == Directory && Clear(t, p) && (p in t ==> t[p] == Directory)
    ensures MkdirAll(t, ends, p).Ok? && GoodStep(t, MkdirAll(t, ends, p).value, dest, source, p)
  {
    MkdirAllClear(t, ends, p);
    AddedOk(t, MkdirAll(t, ends, p).value, dest, source, p);
  }

  lemma ClearedForDirectory(t: Tree, dest: Tree, source: Tree, p: Path)
    requires Steady(t, dest, source) && WellFormed(source) && p in t && t[p] != Directory
    requires p in source && source[p] == Directory
    ensures Steady(t - {p}, dest, source)
    ensures forall q :: !Spoils(t, t - {p}, source, q)
  {
    var t' := t - {p};
    forall q | Right(t, source, q) ensures Right(t', source, q) {
      assert q != p;
    }
    assert Steady(t', dest, source);
  }

  lemma SpoilsNeither(t: Tree, m: Tree, t': Tree, dest: Tree, source: Tree, p: Path)
    requires (forall q :: !Spoils(t, m, source, q)) && GoodStep(m, t', dest, source, p)
    ensures GoodStep(t, t', dest, source, p)
  {
    forall q ensures !Spoils(t, t', source, q) {
      assert !Spoils(t, m, source, q) && !Spoils(m, t', source, q);
    }
  }

  lemma ClearDirectoryOk(t: Tree, dest: Tree, source: Tree, ends: Ends, p: Path)
    requires Steady(t, dest, source) && WellFormed(source)
    requires p in source && source[p] == Directory && Clear(t, p)
    ensures ImportDirectory(t, ends, p).Ok? && GoodStep(t, ImportDirectory(t, ends, p).value, dest, source, p)
  {
    if p != [] {
      PlaceClear(t, ends, p);
    }
    if p in t && t[p] != Directory {
      ClearedForDirectory(t, dest, source, p);
      var cleared := t - {p};
      assert Clear(cleared, p);
      DirectoryMade(cleared, dest, source, ends, p);
      SpoilsNeither(t, cleared, MkdirAll(cleared, ends, p).value, dest, source, p);
    } else {
      DirectoryMade(t, dest, source, ends, p);
    }
  }

  // ----- files and links -----

  lemma CopyIs(t: Tree, ends: Ends, p: Path, node: Node)
    requires WellFormed(t) && p != [] && Parent(p) in t && t[Parent(p)] == Directory && node != Directory
    ensures FileCopy(t, ends, p, node) == Ok(Without(t, p)[p := node])
    ensures WellFormed(Without(t, p)[p := node])
  {
    PlacePlain(t, ends, p);
    WithoutOk(t, p);
    Split(p);
    PlacePlain(Without(t, p), ends, p);
  }

  lemma ReplacedOk(t: Tree, dest: Tree, source: Tree, p: Path)
    requires Steady(t, dest, source) && WellFormed(source)
    requires p in source && source[p] != Directory && WellFormed(Without(t, p)[p := source[p]])
    ensures GoodStep(t, Without(t, p)[p := source[p]], dest, source, p)
  {
    NothingUnder(source, p);
    var t' := Without(t, p)[p := source[p]];
    forall q | Right(t, source, q) ensures Right(t', source, q) {
      assert q in source && p <= q ==> q == p;
    }
    assert Steady(t', dest, source);
  }

  lemma ClearOtherOk(t: Tree, dest: Tree, source: Tree, ends: Ends, p: Path)
    requires Steady(t, dest, source) && WellFormed(source)
    requires p in source && source[p] != Directory && Clear(t, p)
    ensures ImportOther(t, ends, p, source[p]).Ok?
    ensures GoodStep(t, ImportOther(t, ends, p, source[p]).value, dest, source, p)
  {
    Split(p);
    var parent := Parent(p);
    forall a | a in t && Below(parent, a) ensures t[a] == Directory {
      assert Below(p, a);
    }
    assert parent in t ==> t[parent] == Directory by {
      assert Below(p, parent);
    }
    DirectoryMade(t, dest, source, ends, parent);
    var m := MkdirAll(t, ends, parent).value;
    CopyIs(m, ends, p, source[p]);
    ReplacedOk(m, dest, source, p);
    SpoilsNeither(t, m, Without(m, p)[p := source[p]], dest, source, p);
  }

  // ----- any difference -----

  /** Behind something that does not lead to a directory an import fails, and not outside. */
  lemma ImportFails(t: Tree, source: Tree, ends: Ends, a: Path, p: Path)
    requires WellFormed(t) && p in source && a in t && t[a] != Directory && Below(p, a)
    requires !IsDirectory(Dir(t, ends, a))
    ensures ApplyDiff(t, source, ends, p).Err? && !PlaceOf(t, ends, p).Outside?
  {
    Above(a, p);
    MkdirAllBlocked(t, ends, a, Parent(p));
    MkdirAllBlocked(t, ends, a, p);
  }

  lemma DiffOk(t: Tree, dest: Tree, source: Tree, ends: Ends, p: Path)
    requires Steady(t, dest, source) && Setting(dest, source, ends) && (p in dest || p in source)
    ensures !PlaceOf(t, ends, p).Outside?
    ensures ApplyDiff(t, source, ends, p).Ok? ==> GoodStep(t, ApplyDiff(t, source, ends, p).value, dest, source, p)
  {
    if p !in source {
      RemovalOk(t, dest, source, ends, p);
    } else if a :| a in t && Below(p, a) && t[a] != Directory {
      BlockedImport(t, dest, source, ends, a, p);
      ImportFails(t, source, ends, a, p);
    } else {
      if p != [] {
        PlaceClear(t, ends, p);
      }
      if source[p] == Directory {
        ClearDirectoryOk(t, dest, source, ends, p);
      } else {
        ClearOtherOk(t, dest, source, ends, p);
      }
    }
  }

  // ----- a whole run -----

  ghost predicate DoneRight(t: Tree, source: Tree, done: seq<Path>) {
    forall q <- done :: Right(t, source, q)
  }

  lemma OneMoreRight(t: Tree, t': Tree, dest: Tree, source: Tree, done: seq<Path>, p: Path)
    requires DoneRight(t, source, done) && GoodStep(t, t', dest, source, p)
    ensures DoneRight(t', source, done + [p])
  {
    forall q | q in done + [p] ensures Right(t', source, q) {
      assert !Spoils(t, t', source, q);
    }
  }

  lemma {:induction false} SyncOk(dest: Tree, source: Tree, ends: Ends, diffs: seq<Path>)
    requires Setting(dest, source, ends) && forall q <- diffs :: q in dest || q in source
    requires Sync(dest, source, ends, diffs).Ok?
    ensures Steady(Sync(dest, source, ends, diffs).value, dest, source)
    ensures DoneRight(Sync(dest, source, ends, diffs).value, source, diffs)
  {
    if diffs == [] {
      StartIsSteady(dest, source);
    } else {
      var before, p := diffs[..|diffs| - 1], diffs[|diffs| - 1];
      SyncOk(dest, source, ends, before);
      var t := Sync(dest, source, ends, before).value;
      assert p in diffs;
      DiffOk(t, dest, source, ends, p);
      OneMoreRight(t, Sync(dest, source, ends, diffs).value, dest, source, before, p);
      assert before + [p] == diffs;
    }
  }

  lemma StaysInsideOk(dest: Tree, source: Tree, ends: Ends, diffs: seq<Path>, i: nat)
    requires Setting(dest, source, ends) && (forall q <- diffs :: q in dest || q in source) && i < |diffs|
    ensures StaysInside(dest, source, ends, diffs, i)
  {
    var before := diffs[..i];
    if Sync(dest, source, ends, before).Ok? {
      SyncOk(dest, source, ends, before);
      assert diffs[i] in diffs;
      DiffOk(Sync(dest, source, ends, before).value, dest, source, ends, diffs[i]);
    }
  }

  lemma RightEverywhere(t: Tree, source: Tree)
    requires forall q :: Right(t, source, q)
    ensures t == source
  {
    forall q ensures q in t <==> q in source {
      assert Right(t, source, q);
    }
    forall q | q in t ensures t[q] == source[q] {
      assert Right(t, source, q);
    }
  }

  lemma SafeLinksConverge(dest: Tree, source: Tree, ends: Ends, diffs: seq<Path>)
    requires WellFormed(dest) && WellFormed(source)
    requires ConflictsSettled(dest, source, ends) && SafeLinks(dest, source, ends)
    requires Covers(dest, source, diffs)
    ensures RunIsRight(dest, source, ends, diffs)
  {
    forall i | 0 <= i < |diffs| ensures StaysInside(dest, source, ends, diffs, i) {
      StaysInsideOk(dest, source, ends, diffs, i);
    }
    if Sync(dest, source, ends, diffs).Ok? {
      SyncOk(dest, source, ends, diffs);
      forall q ensures Right(Sync(dest, source, ends, diffs).value, source, q) {
        assert q in diffs || Right(dest, source, q);
      }
      RightEverywhere(Sync(dest, source, ends, diffs).value, source);
    }
  }
}

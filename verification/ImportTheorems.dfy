/** When an import is right whatever order the differences come in, and orders that go wrong when a
    link and a directory are in conflict. */
module ImportTheorems {
  import opened Wrappers
  import opened ImportSync
  import opened ImportProofs

  // ----- lists of differences -----

  function WhatGoes(dest: Tree, source: Tree): set<Path> {
    set q | q in dest && q !in source
  }

  function WhatComes(dest: Tree, source: Tree): set<Path> {
    set q | q in source && !Right(dest, source, q)
  }

  lemma Deepest(s: set<Path>) returns (m: Path)
    requires s != {}
    ensures m in s && forall q <- s :: |q| <= |m|
  {
    var one :| one in s;
    m := one;
    if s != {one} {
      m := Deepest(s - {one});
      assert forall q <- s :: q == one || q in s - {one};
      if |one| > |m| {
        m := one;
      }
    }
  }

  ghost predicate Lists(diffs: seq<Path>, s: set<Path>) {
    forall q :: q in diffs <==> q in s
  }

  ghost predicate ByDepth(diffs: seq<Path>) {
    forall i, j :: 0 <= i < j < |diffs| ==> |diffs[i]| <= |diffs[j]|
  }

  lemma {:induction false} ListByDepth(s: set<Path>) returns (diffs: seq<Path>)
    ensures Lists(diffs, s) && ByDepth(diffs)
  {
    if s == {} {
      diffs := [];
    } else {
      var m := Deepest(s);
      var before := ListByDepth(s - {m});
      forall i | 0 <= i < |before| ensures |before[i]| <= |m| {
        assert before[i] in s - {m};
      }
      diffs := before + [m];
    }
  }

  /** What is due at the path above each of these is right at the start or comes first. */
  ghost predicate ParentsFirst(imports: seq<Path>, dest: Tree, source: Tree) {
    forall i :: 0 <= i < |imports| ==> ParentReady(imports[i], imports[..i], dest, source)
  }

  predicate ParentReady(q: Path, done: seq<Path>, dest: Tree, source: Tree) {
    q != [] && (Parent(q) in done || Right(dest, source, Parent(q)))
  }

  /** Parents of what is listed are listed or ready. */
  ghost predicate ParentsIn(s: set<Path>, dest: Tree, source: Tree) {
    forall q <- s :: q != [] && (Parent(q) in s || Right(dest, source, Parent(q)))
  }

  lemma DepthIsParentsFirst(imports: seq<Path>, s: set<Path>, dest: Tree, source: Tree)
    requires Lists(imports, s) && ByDepth(imports) && ParentsIn(s, dest, source)
    ensures ParentsFirst(imports, dest, source)
  {
    forall i | 0 <= i < |imports| ensures ParentReady(imports[i], imports[..i], dest, source) {
      var q := imports[i];
      assert q in imports;
      if Parent(q) in s {
        var j :| 0 <= j < |imports| && imports[j] == Parent(q);
        assert j < i;
        assert imports[..i][j] == Parent(q);
      }
    }
  }

  lemma FewerFirst(imports: seq<Path>, dest: Tree, source: Tree)
    requires imports != [] && ParentsFirst(imports, dest, source)
    ensures ParentsFirst(imports[..|imports| - 1], dest, source)
    ensures ParentReady(imports[|imports| - 1], imports[..|imports| - 1], dest, source)
  {
    var before := imports[..|imports| - 1];
    forall i | 0 <= i < |before| ensures ParentReady(before[i], before[..i], dest, source) {
      assert before[..i] == imports[..i] && before[i] == imports[i];
    }
  }

  // ----- running a list -----

  lemma OneMore(dest: Tree, source: Tree, ends: Ends, done: seq<Path>, q: Path)
    requires Sync(dest, source, ends, done).Ok?
    ensures Sync(dest, source, ends, done + [q]) == ApplyDiff(Sync(dest, source, ends, done).value, source, ends, q)
  {
    var all := done + [q];
    assert all[..|all| - 1] == done;
  }

  lemma FirstStep(dest: Tree, source: Tree, ends: Ends, p: Path)
    ensures Sync(dest, source, ends, [p]) == ApplyDiff(dest, source, ends, p)
  {
    assert [p] == [] + [p];
    OneMore(dest, source, ends, [], p);
  }

  lemma SecondStep(dest: Tree, source: Tree, ends: Ends, p: Path, r: Path)
    requires ApplyDiff(dest, source, ends, p).Ok?
    ensures Sync(dest, source, ends, [p, r]) == ApplyDiff(ApplyDiff(dest, source, ends, p).value, source, ends, r)
  {
    FirstStep(dest, source, ends, p);
    assert [p, r] == [p] + [r];
    OneMore(dest, source, ends, [p], r);
  }

  /** While some paths of the copy stay as they are, what was right or is dealt with is right. */
  ghost predicate Standing(t: Tree, dest: Tree, source: Tree, done: seq<Path>, keep: set<Path>) {
    && WellFormed(t)
    && (forall q :: q in done || Right(dest, source, q) ==> Right(t, source, q))
    && (forall k <- keep :: k in t && k in dest && k in source && t[k] == dest[k])
  }

  lemma RemovalRuns(dest: Tree, t: Tree, source: Tree, ends: Ends, d: Path)
    requires WellFormed(dest) && WellFormed(source) && WellFormed(t)
    requires (forall q <- t :: q in dest && t[q] == dest[q]) && d in dest && d !in source
    ensures RemoveAll(t, ends, d) == Ok(Without(t, d)) && WellFormed(Without(t, d))
    ensures forall q <- source :: q in t ==> q in Without(t, d)
  {
    forall q | q in t && Below(d, q) ensures t[q] == Directory {
      PrefixIsDirectory(dest, q, d);
    }
    PlaceClear(t, ends, d);
    WithoutOk(t, d);
    NothingUnder(source, d);
    if Parent(d) !in t {
      NothingToRemove(t, d);
    }
  }

  lemma {:induction false} RemovalsRun(dest: Tree, source: Tree, ends: Ends, removals: seq<Path>)
    requires WellFormed(dest) && WellFormed(source)
    requires forall q <- removals :: q in dest && q !in source
    ensures Sync(dest, source, ends, removals).Ok?
    ensures var t := Sync(dest, source, ends, removals).value;
      && WellFormed(t)
      && (forall q <- t :: q in dest && t[q] == dest[q])
      && (forall q <- source :: q in dest ==> q in t)
      && forall q <- removals :: q !in t
  {
    if removals != [] {
      var before, d := removals[..|removals| - 1], removals[|removals| - 1];
      assert removals == before + [d];
      RemovalsRun(dest, source, ends, before);
      RemovalRuns(dest, Sync(dest, source, ends, before).value, source, ends, d);
    }
  }

  lemma RemovalsStand(dest: Tree, source: Tree, ends: Ends, removals: seq<Path>, keep: set<Path>)
    requires WellFormed(dest) && WellFormed(source)
    requires forall q <- removals :: q in dest && q !in source
    requires forall k <- keep :: k in dest && k in source
    ensures Sync(dest, source, ends, removals).Ok?
    ensures Standing(Sync(dest, source, ends, removals).value, dest, source, removals, keep)
  {
    RemovalsRun(dest, source, ends, removals);
  }

  lemma ClearedIsWellFormed(t: Tree, q: Path)
    requires WellFormed(t) && q != [] && Parent(q) in t && t[Parent(q)] == Directory && (q in t ==> t[q] != Directory)
    ensures WellFormed(t - {q}) && Parent(q) in t - {q} && (t - {q})[q := Directory] == t[q := Directory]
  {
    Split(q);
  }

  /** A directory where there is none yet, or a file or link. */
  lemma DirectoryReplaces(t: Tree, ends: Ends, q: Path)
    requires WellFormed(t) && q != [] && Parent(q) in t && t[Parent(q)] == Directory && (q in t ==> t[q] != Directory)
    ensures MkdirAll(t - {q}, ends, q) == Ok(t[q := Directory])
  {
    ClearedIsWellFormed(t, q);
    MkdirPlain(t - {q}, ends, q);
  }

  lemma DirectoryRuns(t: Tree, ends: Ends, q: Path)
    requires WellFormed(t) && q != [] && Parent(q) in t && t[Parent(q)] == Directory
    ensures ImportDirectory(t, ends, q) == Ok(t[q := Directory])
  {
    PlacePlain(t, ends, q);
    if q in t && t[q] == Directory {
      MkdirAllNoop(t, ends, q);
      assert t[q := Directory] == t;
    } else {
      DirectoryReplaces(t, ends, q);
      assert q !in t ==> t - {q} == t;
    }
  }

  lemma OtherRuns(t: Tree, ends: Ends, q: Path, node: Node)
    requires WellFormed(t) && q != [] && Parent(q) in t && t[Parent(q)] == Directory && node != Directory
    ensures ImportOther(t, ends, q, node) == Ok(Without(t, q)[q := node])
    ensures WellFormed(Without(t, q)[q := node])
  {
    MkdirAllNoop(t, ends, Parent(q));
    CopyIs(t, ends, q, node);
  }

  predicate Apart(q: Path, source: Tree, keep: set<Path>) {
    q in source && forall k <- keep :: !(k <= q)
  }

  /** One more import whose parent directory is there, and which is not under what stays. */
  lemma ImportRuns(t: Tree, dest: Tree, source: Tree, ends: Ends, done: seq<Path>, keep: set<Path>, q: Path)
    requires WellFormed(source) && Standing(t, dest, source, done, keep)
    requires Apart(q, source, keep) && ParentReady(q, done, dest, source)
    ensures ApplyDiff(t, source, ends, q).Ok?
    ensures Standing(ApplyDiff(t, source, ends, q).value, dest, source, done + [q], keep)
  {
    var parent := Parent(q);
    assert parent in source && source[parent] == Directory && Right(t, source, parent);
    if source[q] == Directory {
      DirectoryRuns(t, ends, q);
      StandsWithDirectory(t, dest, source, done, keep, q);
    } else {
      OtherRuns(t, ends, q, source[q]);
      StandsWithOther(t, dest, source, done, keep, q);
    }
  }

  lemma StandsWithDirectory(t: Tree, dest: Tree, source: Tree, done: seq<Path>, keep: set<Path>, q: Path)
    requires Standing(t, dest, source, done, keep) && q in source && source[q] == Directory
    requires q != [] && Parent(q) in t && t[Parent(q)] == Directory && q !in keep
    ensures Standing(t[q := Directory], dest, source, done + [q], keep)
  {
    var t' := t[q := Directory];
    forall x | x in done + [q] || Right(dest, source, x) ensures Right(t', source, x) {
      assert x != q ==> Right(t, source, x);
    }
  }

  lemma StandsWithOther(t: Tree, dest: Tree, source: Tree, done: seq<Path>, keep: set<Path>, q: Path)
    requires WellFormed(source) && Standing(t, dest, source, done, keep) && q in source && source[q] != Directory
    requires WellFormed(Without(t, q)[q := source[q]]) && q !in keep
    ensures Standing(Without(t, q)[q := source[q]], dest, source, done + [q], keep)
  {
    NothingUnder(source, q);
    var t' := Without(t, q)[q := source[q]];
    forall x | x in done + [q] || Right(dest, source, x) ensures Right(t', source, x) {
      assert x != q ==> Right(t, source, x);
    }
  }

  ghost predicate RanBeside(
      dest: Tree, source: Tree, ends: Ends, removals: seq<Path>, imports: seq<Path>, keep: set<Path>) {
    && Sync(dest, source, ends, removals + imports).Ok?
    && Standing(Sync(dest, source, ends, removals + imports).value, dest, source, removals + imports, keep)
  }

  ghost predicate AllApart(imports: seq<Path>, source: Tree, keep: set<Path>) {
    forall q <- imports :: Apart(q, source, keep)
  }

  lemma {:induction false} ImportsRun(
      dest: Tree, source: Tree, ends: Ends, removals: seq<Path>, imports: seq<Path>, keep: set<Path>)
    requires WellFormed(dest) && WellFormed(source)
    requires forall q <- removals :: q in dest && q !in source
    requires forall k <- keep :: k in dest && k in source
    requires AllApart(imports, source, keep) && ParentsFirst(imports, dest, source)
    ensures RanBeside(dest, source, ends, removals, imports, keep)
  {
    if imports == [] {
      RemovalsStand(dest, source, ends, removals, keep);
      assert removals + imports == removals;
    } else {
      FewerFirst(imports, dest, source);
      FewerApart(imports, source, keep);
      ImportsRun(dest, source, ends, removals, imports[..|imports| - 1], keep);
      OneMoreImport(dest, source, ends, removals, imports, keep);
    }
  }

  lemma FewerApart(imports: seq<Path>, source: Tree, keep: set<Path>)
    requires imports != [] && AllApart(imports, source, keep)
    ensures AllApart(imports[..|imports| - 1], source, keep) && Apart(imports[|imports| - 1], source, keep)
  {
  }

  lemma OneMoreImport(
      dest: Tree, source: Tree, ends: Ends, removals: seq<Path>, imports: seq<Path>, keep: set<Path>)
    requires WellFormed(source) && imports != [] && Apart(imports[|imports| - 1], source, keep)
    requires ParentReady(imports[|imports| - 1], imports[..|imports| - 1], dest, source)
    requires RanBeside(dest, source, ends, removals, imports[..|imports| - 1], keep)
    ensures RanBeside(dest, source, ends, removals, imports, keep)
  {
    var done, q := removals + imports[..|imports| - 1], imports[|imports| - 1];
    assert removals + imports == done + [q];
    OneMore(dest, source, ends, done, q);
    ImportRuns(Sync(dest, source, ends, done).value, dest, source, ends, done, keep, q);
  }

  // ----- a path that names something else by the time it is removed -----

  lemma ClearNamesItself(t: Tree, ends: Ends, r: Path)
    requires WellFormed(t) && r !in t && Names(t, ends, r)
    ensures !Clear(t, r)
  {
    if Clear(t, r) {
      PlaceClear(t, ends, r);
    }
  }

  lemma LingersBehind(dest: Tree, source: Tree, ends: Ends, r: Path) returns (a: Path)
    requires WellFormed(dest) && WellFormed(source) && Lingers(dest, source, ends, r)
    ensures DirectoryBecomesLink(dest, source, a) && Below(r, a)
  {
    ClearNamesItself(source, ends, r);
    a :| a in source && Below(r, a) && source[a] != Directory;
    PrefixIsDirectory(dest, a, r);
    assert HasChildren(dest, a);
    Above(a, r);
    assert a + Parent(r)[|a|..] == Parent(r);
    BehindNode(source, ends, a, Parent(r)[|a|..], LINK_LIMIT);
  }

  lemma WhatComesParents(dest: Tree, source: Tree)
    requires WellFormed(dest) && WellFormed(source)
    ensures ParentsIn(WhatComes(dest, source), dest, source)
  {
  }

  /** All other differences first, then the removal: the copy was equal to the source, and now what
      the path names in the source is gone, or a call has acted outside the copy. */
  lemma LingeringPathLoses(dest: Tree, source: Tree, ends: Ends, r: Path) returns (others: seq<Path>)
    requires WellFormed(dest) && WellFormed(source) && Lingers(dest, source, ends, r)
    ensures Covers(dest, source, others + [r]) && Sync(dest, source, ends, others) == Ok(source)
    ensures Sync(dest, source, ends, others + [r]).Ok?
    ensures PlaceOf(source, ends, r).Outside? || Sync(dest, source, ends, others + [r]).value != source
  {
    var removals := ListByDepth(WhatGoes(dest, source) - {r});
    var imports := ListByDepth(WhatComes(dest, source));
    WhatComesParents(dest, source);
    DepthIsParentsFirst(imports, WhatComes(dest, source), dest, source);
    ImportsRun(dest, source, ends, removals, imports, {});
    others := removals + imports;
    var t := Sync(dest, source, ends, others).value;
    AllButOne(t, dest, source, ends, others, r);
    OneMore(dest, source, ends, others, r);
    assert Covers(dest, source, others + [r]);
    if PlaceOf(source, ends, r).At? {
      assert PlaceOf(source, ends, r).path !in Without(source, PlaceOf(source, ends, r).path);
    }
  }

  lemma AllButOne(t: Tree, dest: Tree, source: Tree, ends: Ends, done: seq<Path>, r: Path)
    requires WellFormed(dest) && WellFormed(source) && Lingers(dest, source, ends, r)
    requires Standing(t, dest, source, done, {})
    requires forall q :: q in done || Right(dest, source, q) || q == r
    ensures t == source
  {
    var a := LingersBehind(dest, source, ends, r);
    assert Right(t, source, a);
    NothingUnder(t, a);
    forall q ensures Right(t, source, q) {
      assert q in done || Right(dest, source, q) || q == r;
    }
    RightEverywhere(t, source);
  }

  // ----- a directory brought over behind the link that stands in its place -----

  function Underneath(source: Tree, p: Path): set<Path> {
    set q | q in source && Below(q, p)
  }

  function WhatComesBeside(dest: Tree, source: Tree, p: Path): set<Path> {
    set q | q in WhatComes(dest, source) && !(p <= q)
  }

  /** Where what is brought to s, below the link at p, ends up if the link leads to q. */
  function Image(p: Path, q: Path, s: Path): Path
    requires |p| <= |s|
  {
    q + s[|p|..]
  }

  /** The link at p stands and leads to the directory q. */
  ghost predicate LeadsTo(t: Tree, ends: Ends, p: Path, q: Path) {
    && WellFormed(t) && p in t && t[p].Link? && ends(p, t[p].target) == Inside(q)
    && q in t && t[q] == Directory && !(q <= p)
  }

  /** The directories brought over so far are behind the link. */
  ghost predicate Redirected(t: Tree, source: Tree, p: Path, q: Path, done: seq<Path>) {
    forall s <- done :: Below(s, p) && s in source && source[s] == Directory ==>
      Image(p, q, s) in t && t[Image(p, q, s)] == Directory
  }

  lemma DirBehind(t: Tree, ends: Ends, p: Path, q: Path, s: Path)
    requires LeadsTo(t, ends, p, q) && p <= s
    requires Image(p, q, s) in t && t[Image(p, q, s)] == Directory
    ensures Dir(t, ends, s) == At(Image(p, q, s))
  {
    assert p + s[|p|..] == s;
    BehindNode(t, ends, p, s[|p|..], LINK_LIMIT);
    assert [] + Image(p, q, s) == Image(p, q, s);
    EnterPlain(t, ends, [], Image(p, q, s), LINK_LIMIT - 1);
  }

  lemma ImageParent(p: Path, q: Path, s: Path)
    requires Below(s, p)
    ensures Image(p, q, s) != [] && Parent(Image(p, q, s)) == Image(p, q, Parent(s))
    ensures Image(p, q, Parent(s)) + [Last(s)] == Image(p, q, s) && q <= Image(p, q, s)
  {
  }

  lemma PlaceBehind(t: Tree, ends: Ends, p: Path, q: Path, s: Path)
    requires LeadsTo(t, ends, p, q) && Below(s, p)
    requires Image(p, q, Parent(s)) in t && t[Image(p, q, Parent(s))] == Directory
    ensures PlaceOf(t, ends, s) == At(Image(p, q, s)) && MkdirAll(t, ends, Parent(s)) == Ok(t)
  {
    DirBehind(t, ends, p, q, Parent(s));
    ImageParent(p, q, s);
  }

  lemma StillLeads(t: Tree, t': Tree, ends: Ends, p: Path, q: Path, at: Path)
    requires LeadsTo(t, ends, p, q) && q <= at && at != q && WellFormed(t')
    requires forall x <- t :: !(at <= x) ==> x in t' && t'[x] == t[x]
    ensures LeadsTo(t', ends, p, q)
  {
    assert !(at <= p) && !(at <= q);
  }

  lemma DirBehindMissing(t: Tree, ends: Ends, p: Path, q: Path, s: Path)
    requires LeadsTo(t, ends, p, q) && Below(s, p) && Image(p, q, s) !in t
    requires Image(p, q, Parent(s)) in t && t[Image(p, q, Parent(s))] == Directory
    ensures Dir(t, ends, s) == Nowhere
  {
    ImageParent(p, q, s);
    var image := Image(p, q, s);
    assert p + s[|p|..] == s && [] + image == image;
    BehindNode(t, ends, p, s[|p|..], LINK_LIMIT);
    forall a | a in t && a <= image ensures t[a] == Directory {
      Above(a, image);
      PrefixIsDirectory(t, a, Parent(image));
    }
    EnterMissing(t, ends, [], image, LINK_LIMIT - 1);
  }

  lemma MadeBehind(t: Tree, ends: Ends, p: Path, q: Path, s: Path)
    requires LeadsTo(t, ends, p, q) && Below(s, p) && Image(p, q, s) !in t
    requires Image(p, q, Parent(s)) in t && t[Image(p, q, Parent(s))] == Directory
    ensures MkdirAll(t, ends, s) == Ok(t[Image(p, q, s) := Directory])
  {
    DirBehindMissing(t, ends, p, q, s);
    PlaceBehind(t, ends, p, q, s);
  }

  lemma LeadsWithDirectory(t: Tree, ends: Ends, p: Path, q: Path, s: Path)
    requires LeadsTo(t, ends, p, q) && Below(s, p)
    requires Image(p, q, Parent(s)) in t && t[Image(p, q, Parent(s))] == Directory
    ensures LeadsTo(t[Image(p, q, s) := Directory], ends, p, q)
  {
    var image := Image(p, q, s);
    ImageParent(p, q, s);
    StillLeads(t, t[image := Directory], ends, p, q, image);
  }

  lemma DirectoryBehind(t: Tree, ends: Ends, p: Path, q: Path, s: Path)
    requires LeadsTo(t, ends, p, q) && Below(s, p)
    requires Image(p, q, Parent(s)) in t && t[Image(p, q, Parent(s))] == Directory
    ensures ImportDirectory(t, ends, s) == Ok(t[Image(p, q, s) := Directory])
    ensures LeadsTo(t[Image(p, q, s) := Directory], ends, p, q)
  {
    var image := Image(p, q, s);
    ImageParent(p, q, s);
    PlaceBehind(t, ends, p, q, s);
    LeadsWithDirectory(t, ends, p, q, s);
    if image in t && t[image] == Directory {
      DirBehind(t, ends, p, q, s);
      assert t[image := Directory] == t;
    } else if image in t {
      ReplacedBehind(t, ends, p, q, s);
    } else {
      MadeBehind(t, ends, p, q, s);
    }
  }

  lemma ClearedLeads(t: Tree, ends: Ends, p: Path, q: Path, s: Path)
    requires LeadsTo(t, ends, p, q) && Below(s, p) && Image(p, q, s) in t && t[Image(p, q, s)] != Directory
    ensures LeadsTo(t - {Image(p, q, s)}, ends, p, q)
  {
    var image := Image(p, q, s);
    ImageParent(p, q, s);
    ClearedWellFormed(t, image);
    StillLeads(t, t - {image}, ends, p, q, image);
  }

  /** A file or link behind the link gives way to the directory. */
  lemma ReplacedBehind(t: Tree, ends: Ends, p: Path, q: Path, s: Path)
    requires LeadsTo(t, ends, p, q) && Below(s, p) && Image(p, q, s) in t && t[Image(p, q, s)] != Directory
    requires Image(p, q, Parent(s)) in t && t[Image(p, q, Parent(s))] == Directory
    ensures MkdirAll(t - {Image(p, q, s)}, ends, s) == Ok(t[Image(p, q, s) := Directory])
  {
    var image := Image(p, q, s);
    ClearedLeads(t, ends, p, q, s);
    MadeBehind(t - {image}, ends, p, q, s);
    assert (t - {image})[image := Directory] == t[image := Directory];
  }

  lemma ClearedWellFormed(t: Tree, x: Path)
    requires WellFormed(t) && (x in t ==> t[x] != Directory)
    ensures WellFormed(t - {x})
  {
  }

  lemma OtherBehind(t: Tree, ends: Ends, p: Path, q: Path, s: Path, node: Node)
    requires LeadsTo(t, ends, p, q) && Below(s, p) && node != Directory
    requires Image(p, q, Parent(s)) in t && t[Image(p, q, Parent(s))] == Directory
    ensures var t' := Without(t, Image(p, q, s))[Image(p, q, s) := node];
      ImportOther(t, ends, s, node) == Ok(t') && LeadsTo(t', ends, p, q)
  {
    var image := Image(p, q, s);
    ImageParent(p, q, s);
    PlaceBehind(t, ends, p, q, s);
    WithoutOk(t, image);
    var cleared := Without(t, image);
    StillLeads(t, cleared, ends, p, q, image);
    Split(image);
    PlaceBehind(cleared, ends, p, q, s);
    StillLeads(t, cleared[image := node], ends, p, q, image);
  }

  lemma ImageOrder(p: Path, q: Path, s: Path, x: Path)
    requires Below(s, p) && Below(x, p) && Image(p, q, s) <= Image(p, q, x)
    ensures s <= x
  {
    assert |s| <= |x|;
    forall i | |p| <= i < |s| ensures s[i] == x[i] {
      assert Image(p, q, s)[|q| + i - |p|] == s[i] && Image(p, q, x)[|q| + i - |p|] == x[i];
    }
  }

  /** What is due below the link goes behind it, and no call fails. */
  lemma BehindRuns(t: Tree, dest: Tree, source: Tree, ends: Ends, p: Path, q: Path, done: seq<Path>, s: Path)
    requires WellFormed(source) && LeadsTo(t, ends, p, q) && Redirected(t, source, p, q, done)
    requires s in source && Below(s, p) && (Parent(s) == p || Parent(s) in done)
    ensures ApplyDiff(t, source, ends, s).Ok?
    ensures LeadsTo(ApplyDiff(t, source, ends, s).value, ends, p, q)
    ensures Redirected(ApplyDiff(t, source, ends, s).value, source, p, q, done + [s])
  {
    ParentBehind(t, source, ends, p, q, done, s);
    var image := Image(p, q, s);
    if source[s] == Directory {
      DirectoryBehind(t, ends, p, q, s);
    } else {
      OtherBehind(t, ends, p, q, s, source[s]);
      NothingUnder(source, s);
      forall x | x in done && Below(x, p) && x in source && source[x] == Directory ensures !(image <= Image(p, q, x)) {
        if image <= Image(p, q, x) {
          ImageOrder(p, q, s, x);
        }
      }
    }
  }

  lemma ParentBehind(t: Tree, source: Tree, ends: Ends, p: Path, q: Path, done: seq<Path>, s: Path)
    requires WellFormed(source) && LeadsTo(t, ends, p, q) && Redirected(t, source, p, q, done)
    requires s in source && Below(s, p) && (Parent(s) == p || Parent(s) in done)
    ensures Image(p, q, Parent(s)) in t && t[Image(p, q, Parent(s))] == Directory
  {
    var parent := Parent(s);
    if parent == p {
      assert Image(p, q, p) == q;
    } else {
      Above(p, s);
      Above(p, parent);
    }
  }

  /** Behind a link that leads out of the copy no call fails and none changes the copy. */
  lemma OutsideRuns(t: Tree, source: Tree, ends: Ends, p: Path, s: Path)
    requires WellFormed(t) && p in t && t[p].Link? && ends(p, t[p].target).ToDirectory?
    requires s in source && Below(s, p)
    ensures ApplyDiff(t, source, ends, s) == Ok(t)
  {
    Above(p, s);
    assert p + s[|p|..] == s && p + Parent(s)[|p|..] == Parent(s);
    BehindNode(t, ends, p, s[|p|..], LINK_LIMIT);
    BehindNode(t, ends, p, Parent(s)[|p|..], LINK_LIMIT);
  }

  /** The link stands, whether it leads out of the copy or to q in it. */
  ghost predicate StillThere(t: Tree, source: Tree, ends: Ends, p: Path, done: seq<Path>) {
    && WellFormed(t) && p in t && t[p].Link?
    && match ends(p, t[p].target)
       case ToDirectory => true
       case Inside(q) => LeadsTo(t, ends, p, q) && Redirected(t, source, p, q, done)
       case _ => false
  }

  ghost predicate RanBehind(dest: Tree, source: Tree, ends: Ends, p: Path, first: seq<Path>, below: seq<Path>) {
    && Sync(dest, source, ends, first + below).Ok?
    && StillThere(Sync(dest, source, ends, first + below).value, source, ends, p, below)
  }

  lemma {:induction false} UnderneathRuns(
      dest: Tree, source: Tree, ends: Ends, p: Path, first: seq<Path>, below: seq<Path>)
    requires WellFormed(source) && RanBehind(dest, source, ends, p, first, [])
    requires ParentsListed(below, source, p)
    ensures RanBehind(dest, source, ends, p, first, below)
  {
    if below != [] {
      FewerListed(below, source, p);
      UnderneathRuns(dest, source, ends, p, first, below[..|below| - 1]);
      OneMoreRuns(dest, source, ends, p, first, below);
    }
  }

  lemma OneMoreRuns(dest: Tree, source: Tree, ends: Ends, p: Path, first: seq<Path>, below: seq<Path>)
    requires WellFormed(source) && below != [] && RanBehind(dest, source, ends, p, first, below[..|below| - 1])
    requires ParentListed(below[|below| - 1], below[..|below| - 1], source, p)
    ensures RanBehind(dest, source, ends, p, first, below)
  {
    var before, s := below[..|below| - 1], below[|below| - 1];
    assert (first + before) + [s] == first + below && before + [s] == below;
    OneMore(dest, source, ends, first + before, s);
    OneMoreUnderneath(Sync(dest, source, ends, first + before).value, dest, source, ends, p, before, s);
  }

  ghost predicate ParentsListed(below: seq<Path>, source: Tree, p: Path) {
    forall i :: 0 <= i < |below| ==> ParentListed(below[i], below[..i], source, p)
  }

  predicate ParentListed(s: Path, done: seq<Path>, source: Tree, p: Path) {
    s in source && Below(s, p) && (Parent(s) == p || Parent(s) in done)
  }

  lemma FewerListed(below: seq<Path>, source: Tree, p: Path)
    requires below != [] && ParentsListed(below, source, p)
    ensures ParentsListed(below[..|below| - 1], source, p)
    ensures ParentListed(below[|below| - 1], below[..|below| - 1], source, p)
  {
    var before := below[..|below| - 1];
    forall i | 0 <= i < |before| ensures ParentListed(before[i], before[..i], source, p) {
      assert before[..i] == below[..i] && before[i] == below[i];
    }
  }

  lemma OneMoreUnderneath(t: Tree, dest: Tree, source: Tree, ends: Ends, p: Path, done: seq<Path>, s: Path)
    requires WellFormed(source) && StillThere(t, source, ends, p, done)
    requires ParentListed(s, done, source, p)
    ensures ApplyDiff(t, source, ends, s).Ok?
    ensures StillThere(ApplyDiff(t, source, ends, s).value, source, ends, p, done + [s])
  {
    match ends(p, t[p].target) {
      case ToDirectory => OutsideRuns(t, source, ends, p, s);
      case Inside(q) =>
        BehindRuns(t, dest, source, ends, p, q, done, s);
        SameLink(t, ApplyDiff(t, source, ends, s).value, source, ends, p, q, done, s);
    }
  }

  lemma SameLink(t: Tree, t': Tree, source: Tree, ends: Ends, p: Path, q: Path, done: seq<Path>, s: Path)
    requires LeadsTo(t', ends, p, q) && Redirected(t', source, p, q, done + [s])
    ensures StillThere(t', source, ends, p, done + [s])
  {
  }

  lemma UnderneathByDepth(source: Tree, p: Path, below: seq<Path>)
    requires WellFormed(source) && Lists(below, Underneath(source, p)) && ByDepth(below)
    ensures ParentsListed(below, source, p)
  {
    forall i | 0 <= i < |below| ensures ParentListed(below[i], below[..i], source, p) {
      var s := below[i];
      assert s in below;
      var parent := Parent(s);
      Above(p, s);
      if parent != p {
        Above(p, parent);
        assert parent in Underneath(source, p);
        var j :| 0 <= j < |below| && below[j] == parent;
        assert j < i;
        assert below[..i][j] == parent;
      }
    }
  }

  lemma BesideParents(dest: Tree, source: Tree, p: Path)
    requires WellFormed(dest) && WellFormed(source)
    ensures ParentsIn(WhatComesBeside(dest, source, p), dest, source)
  {
    forall q | q in WhatComesBeside(dest, source, p)
      ensures q != [] && (Parent(q) in WhatComesBeside(dest, source, p) || Right(dest, source, Parent(q)))
    {
      WhatComesParents(dest, source);
      Split(q);
      assert p <= Parent(q) ==> p <= q;
    }
  }

  lemma FirstStands(t: Tree, dest: Tree, source: Tree, ends: Ends, p: Path, done: seq<Path>)
    requires WellFormed(dest) && WellFormed(source) && ConflictsSettled(dest, source, ends)
    requires Spills(dest, source, ends, p) && Standing(t, dest, source, done, {p})
    ensures StillThere(t, source, ends, p, [])
  {
    assert p in {p};
    var end := ends(p, dest[p].target);
    assert SettledInCopy(dest, source, end, p);
    assert p + [] == p;
    BehindNode(dest, ends, p, [], LINK_LIMIT);
    if end.Inside? {
      var q := end.path;
      assert q + [] == q;
      StartIsSteady(dest, source);
      SettledEnd(dest, dest, source, ends, q);
      assert Right(dest, source, q) && Right(t, source, q);
    }
  }

  lemma LinkReplacedLast(t: Tree, dest: Tree, source: Tree, ends: Ends, p: Path, done: seq<Path>)
    requires WellFormed(source) && LinkBecomesDirectory(dest, source, p) && StillThere(t, source, ends, p, done)
    ensures ApplyDiff(t, source, ends, p).Ok? && ApplyDiff(t, source, ends, p).value != source
  {
    DirectoryRuns(t, ends, p);
    NothingUnder(t, p);
    var child :| child in source && Below(child, p);
    assert child !in t[p := Directory];
  }

  /** The differences in the order: deletions, what must be brought over elsewhere with parents first,
      what is due below the link, and last the directory in place of the link.  No step fails, and
      what lies in the directory is lost. */
  lemma UnsafeLinkLoses(dest: Tree, source: Tree, ends: Ends, p: Path) returns (diffs: seq<Path>)
    requires WellFormed(dest) && WellFormed(source) && ConflictsSettled(dest, source, ends)
    requires Spills(dest, source, ends, p)
    ensures Covers(dest, source, diffs)
    ensures Sync(dest, source, ends, diffs).Ok? && Sync(dest, source, ends, diffs).value != source
  {
    var removals := ListByDepth(WhatGoes(dest, source));
    var imports := ListByDepth(WhatComesBeside(dest, source, p));
    var below := ListByDepth(Underneath(source, p));
    BesideParents(dest, source, p);
    DepthIsParentsFirst(imports, WhatComesBeside(dest, source, p), dest, source);
    ImportsRun(dest, source, ends, removals, imports, {p});
    var first := removals + imports;
    FirstStands(Sync(dest, source, ends, first).value, dest, source, ends, p, first);
    UnderneathByDepth(source, p, below);
    assert first + [] == first;
    UnderneathRuns(dest, source, ends, p, first, below);
    var most := first + below;
    OneMore(dest, source, ends, most, p);
    LinkReplacedLast(Sync(dest, source, ends, most).value, dest, source, ends, p, below);
    diffs := most + [p];
    assert Covers(dest, source, diffs) by {
      AllListed(dest, source, p, removals, imports, below);
    }
  }

  lemma AllListed(dest: Tree, source: Tree, p: Path, removals: seq<Path>, imports: seq<Path>, below: seq<Path>)
    requires WellFormed(dest) && LinkBecomesDirectory(dest, source, p)
    requires Lists(removals, WhatGoes(dest, source)) && Lists(imports, WhatComesBeside(dest, source, p))
    requires Lists(below, Underneath(source, p))
    ensures Covers(dest, source, ((removals + imports) + below) + [p])
  {
    NothingUnder(dest, p);
    forall q | q !in ((removals + imports) + below) + [p] ensures Right(dest, source, q) {
      assert q !in WhatGoes(dest, source) && q !in WhatComesBeside(dest, source, p) && q !in Underneath(source, p);
      if p <= q {
        Above(p, q);
      }
    }
  }

  // ----- exactly when an import is right -----

  /** In every order no call acts outside the copy and an import that reports no error leaves the copy
      equal to the source, if and only if no link to a directory stands where a non-empty directory is
      due and no path that is to go names something through a link of the source. */
  lemma RightIffLinksAreSafe(dest: Tree, source: Tree, ends: Ends)
    requires WellFormed(dest) && WellFormed(source) && ConflictsSettled(dest, source, ends)
    ensures AlwaysRight(dest, source, ends) <==> SafeLinks(dest, source, ends)
  {
    if SafeLinks(dest, source, ends) {
      forall diffs | Covers(dest, source, diffs) ensures RunIsRight(dest, source, ends, diffs) {
        SafeLinksConverge(dest, source, ends, diffs);
      }
    } else {
      var p :| p in dest && (Spills(dest, source, ends, p) || Lingers(dest, source, ends, p));
      if Spills(dest, source, ends, p) {
        var diffs := UnsafeLinkLoses(dest, source, ends, p);
        assert !RunIsRight(dest, source, ends, diffs);
      } else {
        LingersIsWrong(dest, source, ends, p);
      }
    }
  }

  /** Wherever the links lead: a path that names something through a link of the source goes wrong. */
  lemma LingersIsWrong(dest: Tree, source: Tree, ends: Ends, r: Path)
    requires WellFormed(dest) && WellFormed(source) && Lingers(dest, source, ends, r)
    ensures !AlwaysRight(dest, source, ends)
  {
    var others := LingeringPathLoses(dest, source, ends, r);
    var diffs := others + [r];
    assert diffs[..|others|] == others && diffs[|others|] == r;
    assert PlaceOf(source, ends, r).Outside? ==> !StaysInside(dest, source, ends, diffs, |others|);
    assert !RunIsRight(dest, source, ends, diffs);
  }

  lemma NoConflictsIsSafe(dest: Tree, source: Tree, ends: Ends)
    requires WellFormed(dest) && WellFormed(source) && NoConflicts(dest, source)
    ensures ConflictsSettled(dest, source, ends) && SafeLinks(dest, source, ends)
  {
    forall p | p in dest ensures !Lingers(dest, source, ends, p) {
      if Lingers(dest, source, ends, p) {
        var a := LingersBehind(dest, source, ends, p);
      }
    }
  }

  /** Wherever links lead, without a conflict between a link and a non-empty directory the import is
      right in every order. */
  lemma NoConflictsIsRight(dest: Tree, source: Tree, ends: Ends)
    requires WellFormed(dest) && WellFormed(source) && NoConflicts(dest, source)
    ensures AlwaysRight(dest, source, ends)
  {
    NoConflictsIsSafe(dest, source, ends);
    RightIffLinksAreSafe(dest, source, ends);
  }

  // ----- exactly when no call meets a link -----

  lemma OnPath(dest: Tree, source: Tree, ends: Ends, diffs: seq<Path>, i: nat)
    requires WellFormed(dest) && WellFormed(source) && NoConflicts(dest, source)
    requires Covers(dest, source, diffs) && i < |diffs|
    ensures StaysOnPath(dest, source, ends, diffs, i)
  {
    var before, p := diffs[..i], diffs[i];
    if Sync(dest, source, ends, before).Ok? {
      NoConflictsIsSafe(dest, source, ends);
      SyncOk(dest, source, ends, before);
      var t := Sync(dest, source, ends, before).value;
      assert p in diffs;
      forall a | a in t && Below(p, a) ensures !t[a].Link? {
        if p in source {
          PrefixIsDirectory(source, a, p);
          assert HasChildren(source, a);
          assert a in dest ==> !LinkBecomesDirectory(dest, source, a);
        } else {
          PrefixIsDirectory(dest, a, p);
          assert HasChildren(dest, a);
          assert !DirectoryBecomesLink(dest, source, a);
        }
      }
    }
  }

  lemma AnyOrder(dest: Tree, source: Tree, first: seq<Path>) returns (rest: seq<Path>)
    requires forall q <- first :: q in dest || q in source
    ensures Covers(dest, source, first + rest)
  {
    rest := ListByDepth(WhatGoes(dest, source) + WhatComes(dest, source));
    forall q | q !in first + rest ensures Right(dest, source, q) {
      assert q !in WhatGoes(dest, source) + WhatComes(dest, source);
    }
  }

  lemma ChildMeetsLink(dest: Tree, source: Tree, ends: Ends, p: Path)
    requires LinkBecomesDirectory(dest, source, p)
    ensures !AlwaysOnPath(dest, source, ends)
  {
    var child :| child in source && Below(child, p);
    var rest := AnyOrder(dest, source, [child]);
    var diffs := [child] + rest;
    assert diffs[..0] == [] && diffs[0] == child;
    assert !StaysOnPath(dest, source, ends, diffs, 0);
  }

  lemma RemovalMeetsLink(dest: Tree, source: Tree, ends: Ends, p: Path)
    requires WellFormed(dest) && WellFormed(source) && DirectoryBecomesLink(dest, source, p)
    ensures !AlwaysOnPath(dest, source, ends)
  {
    var child :| child in dest && Below(child, p);
    var rest := AnyOrder(dest, source, [p, child]);
    var diffs := [p, child] + rest;
    assert diffs[..1] == [p] && diffs[1] == child;
    FirstStep(dest, source, ends, p);
    LinkReplaces(dest, source, ends, p, child);
    assert !StaysOnPath(dest, source, ends, diffs, 1);
  }

  lemma LinkReplaces(dest: Tree, source: Tree, ends: Ends, p: Path, child: Path)
    requires WellFormed(dest) && WellFormed(source) && DirectoryBecomesLink(dest, source, p) && Below(child, p)
    ensures ApplyDiff(dest, source, ends, p).Ok? && MeetsLink(ApplyDiff(dest, source, ends, p).value, child)
  {
    OtherRuns(dest, ends, p, source[p]);
    var t := Without(dest, p)[p := source[p]];
    assert p in t && t[p].Link?;
  }

  /** In every order every call has only directories on its way or fails, if and only if no link is in
      conflict with a non-empty directory. */
  lemma OnPathIffNoConflicts(dest: Tree, source: Tree, ends: Ends)
    requires WellFormed(dest) && WellFormed(source)
    ensures AlwaysOnPath(dest, source, ends) <==> NoConflicts(dest, source)
  {
    if NoConflicts(dest, source) {
      forall diffs, i | Covers(dest, source, diffs) && 0 <= i < |diffs| ensures StaysOnPath(dest, source, ends, diffs, i) {
        OnPath(dest, source, ends, diffs, i);
      }
    } else {
      var p :| p in dest && (LinkBecomesDirectory(dest, source, p) || DirectoryBecomesLink(dest, source, p));
      if LinkBecomesDirectory(dest, source, p) {
        ChildMeetsLink(dest, source, ends, p);
      } else {
        RemovalMeetsLink(dest, source, ends, p);
      }
    }
  }
}

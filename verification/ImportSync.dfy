/** Bringing a cached copy of an imported directory up to date (pkg/stacker/import.go:136-236 and
    FileCopy in pkg/lib/file.go): the differences between the copy and the directory come in any
    order, and each is applied with calls that follow symbolic links in the middle of a path, to
    wherever they lead: elsewhere in the copy, or out of it. */
module ImportSync {
  import opened Wrappers

  // A path below the directory's root, which is [].
  type Path = seq<string>

  // What the comparison sees of a file, permissions included, is its content here.
  datatype Node = Directory | File(content: string) | Link(target: string)

  type Tree = map<Path, Node>

  // Where the link at a path leads: to a path of the copy, which has still to be looked up there,
  // or to a directory, a file or nothing outside.
  datatype End = Inside(path: Path) | ToDirectory | ToFile | Dangling

  type Ends = (Path, string) -> End

  function Parent(p: Path): Path
    requires p != []
  {
    p[..|p| - 1]
  }

  function Last(p: Path): string
    requires p != []
  {
    p[|p| - 1]
  }

  predicate Below(q: Path, p: Path) {
    p < q
  }

  ghost predicate WellFormed(t: Tree) {
    && [] in t && t[[]] == Directory
    && forall p <- t :: p != [] ==> Parent(p) in t && t[Parent(p)] == Directory
  }

  // ----- looking a path up -----

  // The kernel follows at most so many links on one path.
  const LINK_LIMIT: nat := 40

  datatype Place = At(path: Path) | Outside | NotADirectory | Nowhere | TooManyLinks

  /** Goes from the directory at down the names of rest, following links; n more may be met. */
  function Enter(t: Tree, ends: Ends, at: Path, rest: Path, n: nat): Place
    decreases n, |rest|
  {
    if rest == [] then At(at)
    else
      var q := at + [rest[0]];
      if q !in t then Nowhere
      else
        match t[q]
        case Directory => Enter(t, ends, q, rest[1..], n)
        case File(_) => NotADirectory
        case Link(target) =>
          match ends(q, target)
          case Inside(r) => if n == 0 then TooManyLinks else Enter(t, ends, [], r + rest[1..], n - 1)
          case ToDirectory => Outside
          case ToFile => NotADirectory
          case Dangling => Nowhere
  }

  /** The directory that p names. */
  function Dir(t: Tree, ends: Ends, p: Path): Place {
    Enter(t, ends, [], p, LINK_LIMIT)
  }

  /** Where the entry that p names is, or would be: links are followed on the way, not at the end. */
  function PlaceOf(t: Tree, ends: Ends, p: Path): Place {
    if p == [] then At([])
    else
      match Dir(t, ends, Parent(p))
      case At(d) => At(d + [Last(p)])
      case other => other
  }

  /** Whether lstat finds something at p. */
  predicate Names(t: Tree, ends: Ends, p: Path) {
    match PlaceOf(t, ends, p)
    case At(q) => q in t
    case Outside => true
    case _ => false
  }

  // ----- the calls -----

  function Without(t: Tree, p: Path): Tree {
    map q | q in t && !(p <= q) :: t[q]
  }

  function RemoveAll(t: Tree, ends: Ends, p: Path): Result<Tree> {
    match PlaceOf(t, ends, p)
    case At(q) => Ok(Without(t, q))
    case Outside => Ok(t)
    case Nowhere => Ok(t)
    case _ => Err
  }

  function Mkdir(t: Tree, ends: Ends, p: Path): Result<Tree> {
    match PlaceOf(t, ends, p)
    case At(q) => if q !in t then Ok(t[q := Directory]) else if t[q] == Directory then Ok(t) else Err
    case Outside => Ok(t)
    case _ => Err
  }

  function MkdirAll(t: Tree, ends: Ends, p: Path): Result<Tree>
    decreases |p|
  {
    match Dir(t, ends, p)
    case At(_) => Ok(t)
    case Outside => Ok(t)
    case NotADirectory => Err
    case _ =>
      var t' :- MkdirAll(t, ends, Parent(p));
      Mkdir(t', ends, p)
  }

  /** A file or link copied to where nothing or anything was; errors of the removal are dropped. */
  function FileCopy(t: Tree, ends: Ends, p: Path, node: Node): Result<Tree> {
    var cleared := match RemoveAll(t, ends, p) case Err => t case Ok(t') => t';
    match PlaceOf(cleared, ends, p)
    case At(q) => Ok(cleared[q := node])
    case Outside => Ok(cleared)
    case _ => Err
  }

  function ImportDirectory(t: Tree, ends: Ends, p: Path): Result<Tree> {
    match PlaceOf(t, ends, p)
    case NotADirectory => Err
    case TooManyLinks => Err
    case At(q) => MkdirAll(if q in t && t[q] != Directory then t - {q} else t, ends, p)
    case _ => MkdirAll(t, ends, p)
  }

  function ImportOther(t: Tree, ends: Ends, p: Path, node: Node): Result<Tree>
    requires p != []
  {
    var t' :- MkdirAll(t, ends, Parent(p));
    FileCopy(t', ends, p, node)
  }

  /** One difference: what the source no longer has is removed, anything else is brought over. */
  function ApplyDiff(t: Tree, source: Tree, ends: Ends, p: Path): Result<Tree> {
    if p !in source then RemoveAll(t, ends, p)
    else if source[p].Directory? || p == [] then ImportDirectory(t, ends, p)
    else ImportOther(t, ends, p, source[p])
  }

  function Sync(t: Tree, source: Tree, ends: Ends, diffs: seq<Path>): Result<Tree> {
    if diffs == [] then Ok(t)
    else
      var t' :- Sync(t, source, ends, diffs[..|diffs| - 1]);
      ApplyDiff(t', source, ends, diffs[|diffs| - 1])
  }

  // ----- the comparison -----

  predicate Right(t: Tree, source: Tree, q: Path) {
    if q in source then q in t && t[q] == source[q] else q !in t
  }

  /** Every difference is listed, in some order; what is listed exists on one side. */
  ghost predicate Covers(dest: Tree, source: Tree, diffs: seq<Path>) {
    && (forall q :: q !in diffs ==> Right(dest, source, q))
    && (forall q <- diffs :: q in dest || q in source)
  }

  // ----- what is asked of an import -----

  /** No call of the run acts outside the copy, and if none fails the copy equals the source. */
  ghost predicate RunIsRight(dest: Tree, source: Tree, ends: Ends, diffs: seq<Path>) {
    && (forall i :: 0 <= i < |diffs| ==> StaysInside(dest, source, ends, diffs, i))
    && (Sync(dest, source, ends, diffs).Ok? ==> Sync(dest, source, ends, diffs).value == source)
  }

  predicate StaysInside(dest: Tree, source: Tree, ends: Ends, diffs: seq<Path>, i: nat)
    requires i < |diffs|
  {
    var before := Sync(dest, source, ends, diffs[..i]);
    before.Ok? ==> !PlaceOf(before.value, ends, diffs[i]).Outside?
  }

  /** Whatever order the differences come in. */
  ghost predicate AlwaysRight(dest: Tree, source: Tree, ends: Ends) {
    forall diffs :: Covers(dest, source, diffs) ==> RunIsRight(dest, source, ends, diffs)
  }

  predicate MeetsLink(t: Tree, p: Path) {
    exists a <- t :: Below(p, a) && t[a].Link?
  }

  predicate StaysOnPath(dest: Tree, source: Tree, ends: Ends, diffs: seq<Path>, i: nat)
    requires i < |diffs|
  {
    var before := Sync(dest, source, ends, diffs[..i]);
    before.Ok? ==> !MeetsLink(before.value, diffs[i])
  }

  /** In no order does any call have a link on its way. */
  ghost predicate AlwaysOnPath(dest: Tree, source: Tree, ends: Ends) {
    forall diffs, i :: Covers(dest, source, diffs) && 0 <= i < |diffs| ==> StaysOnPath(dest, source, ends, diffs, i)
  }

  // ----- links in conflict with directories -----

  predicate HasChildren(t: Tree, p: Path) {
    exists q <- t :: Below(q, p)
  }

  /** A link in the copy where the source has a directory with something in it. */
  predicate LinkBecomesDirectory(dest: Tree, source: Tree, p: Path) {
    && p in dest && dest[p].Link?
    && p in source && source[p] == Directory && HasChildren(source, p)
  }

  /** A link in the source where the copy has a directory with something in it. */
  predicate DirectoryBecomesLink(dest: Tree, source: Tree, p: Path) {
    && p in source && source[p].Link?
    && p in dest && dest[p] == Directory && HasChildren(dest, p)
  }

  ghost predicate NoConflicts(dest: Tree, source: Tree) {
    forall p <- dest :: !LinkBecomesDirectory(dest, source, p) && !DirectoryBecomesLink(dest, source, p)
  }

  /** The way to q stays as it is, and no link is on it. */
  ghost predicate StaysPut(dest: Tree, source: Tree, q: Path) {
    && (forall a :: a <= q ==> Right(dest, source, a))
    && (forall a <- source :: a <= q ==> !source[a].Link?)
  }

  /** What the path r, below p, names when p is a link to q. */
  function Behind(p: Path, q: Path, r: Path): Path
    requires p <= r
  {
    q + r[|p|..]
  }

  /** No link is on the way to q, nor on the way from q to where a path below p leads if p is a link to q. */
  ghost predicate LinkFree(dest: Tree, source: Tree, p: Path, q: Path) {
    && (forall a <- source :: a <= q ==> !source[a].Link?)
    && (forall a <- dest :: a <= q ==> !dest[a].Link?)
    && (forall r <- dest, y <- dest :: Below(r, p) && q <= y < Behind(p, q, r) ==> !dest[y].Link?)
  }

  /** A link in conflict leads out of the copy or, without another link, to where it leads throughout:
      one of the copy to a path that stays, and not above itself; one of the source anywhere, as far as
      the paths that are removed behind it go. */
  ghost predicate ConflictsSettled(dest: Tree, source: Tree, ends: Ends) {
    forall p <- dest ::
      && (LinkBecomesDirectory(dest, source, p) ==> SettledInCopy(dest, source, ends(p, dest[p].target), p))
      && (DirectoryBecomesLink(dest, source, p) ==> SettledInSource(dest, source, ends(p, source[p].target), p))
  }

  ghost predicate SettledInCopy(dest: Tree, source: Tree, end: End, p: Path) {
    end.Inside? ==> StaysPut(dest, source, end.path) && !(end.path <= p)
  }

  ghost predicate SettledInSource(dest: Tree, source: Tree, end: End, p: Path) {
    end.Inside? ==> LinkFree(dest, source, p, end.path)
  }

  predicate IsDirectory(place: Place) {
    place.At? || place.Outside?
  }

  /** What the directory is due to hold can be written behind the link instead. */
  predicate Spills(dest: Tree, source: Tree, ends: Ends, p: Path) {
    LinkBecomesDirectory(dest, source, p) && IsDirectory(Dir(dest, ends, p))
  }

  /** A path that is to go, and that names something else through a link of the source. */
  predicate Lingers(dest: Tree, source: Tree, ends: Ends, r: Path) {
    r in dest && r !in source && Names(source, ends, r)
  }

  ghost predicate SafeLinks(dest: Tree, source: Tree, ends: Ends) {
    forall p <- dest :: !Spills(dest, source, ends, p) && !Lingers(dest, source, ends, p)
  }

  // ----- paths -----

  lemma {:induction false} PrefixIsDirectory(t: Tree, q: Path, p: Path)
    requires WellFormed(t) && p in t && q <= p
    ensures q in t && (q != p ==> t[q] == Directory)
    decreases |p|
  {
    if q != p {
      assert p != [] && q <= Parent(p);
      PrefixIsDirectory(t, q, Parent(p));
    }
  }

  lemma NothingUnder(t: Tree, p: Path)
    requires WellFormed(t) && (p in t ==> t[p] != Directory)
    ensures forall q <- t :: p <= q ==> p == q
  {
    forall q | q in t && p <= q ensures p == q {
      PrefixIsDirectory(t, p, q);
    }
  }

  lemma Split(p: Path)
    requires p != []
    ensures Parent(p) + [Last(p)] == p && Below(p, Parent(p))
  {
  }

  lemma Above(a: Path, p: Path)
    requires a <= p && a != p
    ensures Below(p, a) && a <= Parent(p)
  {
    assert |a| == |p| ==> a == p;
  }

  // ----- lookups -----

  /** Directories of the copy are found where they are. */
  lemma {:induction false} EnterPlain(t: Tree, ends: Ends, at: Path, rest: Path, n: nat)
    requires WellFormed(t) && at + rest in t && t[at + rest] == Directory
    ensures Enter(t, ends, at, rest, n) == At(at + rest)
    decreases |rest|
  {
    if rest == [] {
      assert at + rest == at;
    } else {
      var q := at + [rest[0]];
      assert q + rest[1..] == at + rest;
      PrefixIsDirectory(t, q, at + rest);
      EnterPlain(t, ends, q, rest[1..], n);
    }
  }

  lemma {:induction false} EnterThrough(t: Tree, ends: Ends, at: Path, a: Path, b: Path, n: nat)
    requires WellFormed(t) && at + a in t && t[at + a] == Directory
    ensures Enter(t, ends, at, a + b, n) == Enter(t, ends, at + a, b, n)
    decreases |a|
  {
    if a == [] {
      assert a + b == b && at + a == at;
    } else {
      var q := at + [a[0]];
      assert q + a[1..] == at + a;
      assert (a + b)[0] == a[0] && (a + b)[1..] == a[1..] + b;
      PrefixIsDirectory(t, q, at + a);
      EnterThrough(t, ends, q, a[1..], b, n);
    }
  }

  lemma {:induction false} EnterMissing(t: Tree, ends: Ends, at: Path, rest: Path, n: nat)
    requires WellFormed(t) && at in t && at + rest !in t
    requires forall a <- t :: a <= at + rest ==> t[a] == Directory
    ensures Enter(t, ends, at, rest, n) == Nowhere
    decreases |rest|
  {
    assert rest == [] ==> at + rest == at;
    var q := at + [rest[0]];
    if q in t {
      assert q + rest[1..] == at + rest;
      EnterMissing(t, ends, q, rest[1..], n);
    }
  }

  /** A lookup that fails on the way fails. */
  lemma {:induction false} EnterFails(t: Tree, ends: Ends, at: Path, rest: Path, more: Path, n: nat)
    requires !Enter(t, ends, at, rest, n).At?
    ensures Enter(t, ends, at, rest + more, n) == Enter(t, ends, at, rest, n)
    decreases n, |rest|
  {
    var q := at + [rest[0]];
    assert (rest + more)[0] == rest[0] && (rest + more)[1..] == rest[1..] + more;
    if q in t {
      match t[q] {
        case Directory => EnterFails(t, ends, q, rest[1..], more, n);
        case File(_) =>
        case Link(target) =>
          match ends(q, target) {
            case Inside(r) =>
              assert r + (rest[1..] + more) == (r + rest[1..]) + more;
              if n > 0 {
                EnterFails(t, ends, [], r + rest[1..], more, n - 1);
              }
            case _ =>
          }
      }
    }
  }

  /** What is found behind a link. */
  function Beyond(t: Tree, ends: Ends, end: End, s: Path): Place {
    match end
    case Inside(r) => Enter(t, ends, [], r + s, LINK_LIMIT - 1)
    case ToDirectory => Outside
    case ToFile => NotADirectory
    case Dangling => Nowhere
  }

  lemma BehindNode(t: Tree, ends: Ends, p: Path, s: Path, n: nat)
    requires WellFormed(t) && p in t && t[p] != Directory
    ensures t[p].File? ==> Enter(t, ends, [], p + s, n) == NotADirectory
    ensures t[p].Link? ==> Dir(t, ends, p + s) == Beyond(t, ends, ends(p, t[p].target), s)
  {
    var parent, name := Parent(p), Last(p);
    assert p + s == parent + ([name] + s);
    assert [] + parent == parent && parent + [name] == p && ([name] + s)[0] == name && ([name] + s)[1..] == s;
    EnterThrough(t, ends, [], parent, [name] + s, n);
    EnterThrough(t, ends, [], parent, [name] + s, LINK_LIMIT);
  }

  /** Where no link is on the way, a path leads to itself or nowhere. */
  lemma EnterSettled(t: Tree, ends: Ends, q: Path, n: nat)
    requires WellFormed(t) && forall a <- t :: a <= q ==> !t[a].Link?
    ensures var place := Enter(t, ends, [], q, n);
      && (place == At(q) || place == NotADirectory || place == Nowhere)
      && (place == At(q) <==> q in t && t[q] == Directory)
  {
    assert [] + q == q;
    if q in t && t[q] == Directory {
      EnterPlain(t, ends, [], q, n);
    } else if a :| a in t && a <= q && t[a] != Directory {
      assert a + q[|a|..] == q;
      BehindNode(t, ends, a, q[|a|..], n);
    } else {
      EnterMissing(t, ends, [], q, n);
    }
  }

  lemma DirPlain(t: Tree, ends: Ends, p: Path)
    requires WellFormed(t) && p in t && t[p] == Directory
    ensures Dir(t, ends, p) == At(p)
  {
    assert [] + p == p;
    EnterPlain(t, ends, [], p, LINK_LIMIT);
  }

  lemma PlacePlain(t: Tree, ends: Ends, p: Path)
    requires WellFormed(t) && p != [] && Parent(p) in t && t[Parent(p)] == Directory
    ensures PlaceOf(t, ends, p) == At(p)
  {
    DirPlain(t, ends, Parent(p));
    Split(p);
  }

  /** Only directories above p. */
  ghost predicate Clear(t: Tree, p: Path) {
    forall a <- t :: Below(p, a) ==> t[a] == Directory
  }

  lemma PlaceClear(t: Tree, ends: Ends, p: Path)
    requires WellFormed(t) && Clear(t, p) && p != []
    ensures PlaceOf(t, ends, p) == if Parent(p) in t then At(p) else Nowhere
  {
    Split(p);
    var parent := Parent(p);
    if parent in t {
      PlacePlain(t, ends, p);
    } else {
      assert [] + parent == parent;
      forall a | a in t && a <= parent ensures t[a] == Directory {
        assert Below(p, a);
      }
      EnterMissing(t, ends, [], parent, LINK_LIMIT);
    }
  }

  // ----- creating directories -----

  /** Only missing directories on the way to p were added. */
  predicate OnlyAdds(t: Tree, t': Tree, p: Path) {
    && (forall q <- t :: q in t' && t'[q] == t[q])
    && (forall q <- t' :: q in t || (q <= p && t'[q] == Directory))
  }

  lemma MkdirAllNoop(t: Tree, ends: Ends, p: Path)
    requires WellFormed(t) && p in t && t[p] == Directory
    ensures MkdirAll(t, ends, p) == Ok(t)
  {
    DirPlain(t, ends, p);
  }

  /** Where only directories are on the way, what is missing is created. */
  lemma {:induction false} MkdirAllClear(t: Tree, ends: Ends, p: Path)
    requires WellFormed(t) && Clear(t, p) && (p in t ==> t[p] == Directory)
    ensures MkdirAll(t, ends, p).Ok?
    ensures var t' := MkdirAll(t, ends, p).value;
      WellFormed(t') && OnlyAdds(t, t', p) && p in t' && t'[p] == Directory
    decreases |p|
  {
    if p in t {
      MkdirAllNoop(t, ends, p);
    } else {
      Split(p);
      var parent := Parent(p);
      forall a | a in t && Below(parent, a) ensures t[a] == Directory {
        assert Below(p, a);
      }
      assert parent in t ==> t[parent] == Directory by {
        assert Below(p, parent);
      }
      MkdirAllClear(t, ends, parent);
      var t' := MkdirAll(t, ends, parent).value;
      MissingIsNowhere(t, ends, p);
      PlacePlain(t', ends, p);
      assert p !in t';
    }
  }

  lemma MissingIsNowhere(t: Tree, ends: Ends, p: Path)
    requires WellFormed(t) && Clear(t, p) && p !in t
    ensures Dir(t, ends, p) == Nowhere
  {
    assert [] + p == p;
    forall a | a in t && a <= p ensures t[a] == Directory {
      Above(a, p);
    }
    EnterMissing(t, ends, [], p, LINK_LIMIT);
  }

  lemma PlainIsClear(t: Tree, p: Path)
    requires WellFormed(t) && p != [] && Parent(p) in t && t[Parent(p)] == Directory
    ensures Clear(t, p)
  {
    forall a | a in t && Below(p, a) ensures t[a] == Directory {
      Above(a, p);
      PrefixIsDirectory(t, a, Parent(p));
    }
  }

  lemma MkdirPlain(t: Tree, ends: Ends, p: Path)
    requires WellFormed(t) && p != [] && Parent(p) in t && t[Parent(p)] == Directory && p !in t
    ensures MkdirAll(t, ends, p) == Ok(t[p := Directory])
  {
    PlainIsClear(t, p);
    MissingIsNowhere(t, ends, p);
    MkdirAllNoop(t, ends, Parent(p));
    PlacePlain(t, ends, p);
  }

  /** Behind something that is not and does not lead to a directory, nothing can be created. */
  lemma {:induction false} MkdirAllBlocked(t: Tree, ends: Ends, a: Path, p: Path)
    requires WellFormed(t) && a in t && t[a] != Directory && !IsDirectory(Dir(t, ends, a)) && a <= p
    ensures MkdirAll(t, ends, p).Err? && Dir(t, ends, p) == Dir(t, ends, a)
    decreases |p|
  {
    assert a + p[|a|..] == p;
    EnterFails(t, ends, [], a, p[|a|..], LINK_LIMIT);
    if p == a {
      MkdirAllNoop(t, ends, Parent(a));
      PlacePlain(t, ends, a);
    } else {
      MkdirAllBlocked(t, ends, a, Parent(p));
    }
  }
}

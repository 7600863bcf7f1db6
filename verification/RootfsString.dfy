/** The argument that mounts a layer's overlay for its container (pkg/overlay/metadata.go:97-184):
    the lower directories in the order overlayfs wants them, printed with colons between them. */
module RootfsString {
  import opened Text
  import opened Wrappers

  /** A digest as a directory name: colons separate directories in the printed argument. */
  function SafeOverlayName(digest: string): (r: string)
    ensures |r| == |digest| && ':' !in r
    ensures forall i :: 0 <= i < |r| ==> r[i] == if digest[i] == ':' then '_' else digest[i]
  {
    if digest == "" then ""
    else (if digest[0] == ':' then "_" else [digest[0]]) + SafeOverlayName(digest[1..])
  }

  // An algorithm, a colon and the encoded hash; the encodings in use have no underscore.
  predicate IsDigest(s: string, colon: nat) {
    && colon < |s| && s[colon] == ':'
    && (forall i :: 0 <= i < |s| && i != colon ==> s[i] != ':')
    && (forall i :: colon < i < |s| ==> s[i] != '_')
  }

  /** Different digests are extracted to different directories. */
  lemma SafeNamesAreDistinct(a: string, b: string, i: nat, j: nat)
    requires IsDigest(a, i) && IsDigest(b, j) && SafeOverlayName(a) == SafeOverlayName(b)
    ensures a == b
  {
    var name := SafeOverlayName(a);
    assert name[i] == '_' && name[j] == '_';
    assert i == j;
    assert forall k :: 0 <= k < |a| ==> a[k] == b[k];
  }

  /** An underscore in the encoding, which the digest grammar allows, can make two names equal. */
  lemma UnderscoresCollide()
    ensures var a, b := "x:y_z", "x_y:z";
      a != b && SafeOverlayName(a) == SafeOverlayName(b)
  {
    var a, b := "x:y_z", "x_y:z";
    assert |a| == 5 && |b| == 5;
    forall k | 0 <= k < 5 ensures SafeOverlayName(a)[k] == SafeOverlayName(b)[k] {
    }
    assert a[1] != b[1];
  }

  // ----- the directories to mount -----

  // All the state the code looks at.  `present` holds the directories that exist.
  datatype Request = Request(
    root: string, tag: string, layers: seq<string>, built: seq<string>, overlayDirs: seq<string>, present: set<string>)

  function LayerDir(r: Request, digest: string): string {
    r.root + "/" + SafeOverlayName(digest) + "/overlay"
  }

  function NameDir(r: Request, name: string): string {
    r.root + "/" + name + "/overlay"
  }

  function Workaround(r: Request): string {
    r.root + "/" + r.tag + "/workaround"
  }

  /** Layers without a directory come from empty archives and are passed over. */
  function LayerDirs(r: Request, layers: seq<string>): seq<string> {
    if layers == [] then []
    else
      var before, dir := LayerDirs(r, layers[..|layers| - 1]), LayerDir(r, layers[|layers| - 1]);
      if dir in r.present then before + [dir] else before
  }

  /** Every lower directory, the bottom one first. */
  function Lowerdirs(r: Request): (dirs: seq<string>)
    ensures |dirs| >= 1
  {
    var dirs := LayerDirs(r, r.layers)
      + seq(|r.built|, i requires 0 <= i < |r.built| => NameDir(r, r.built[i]))
      + seq(|r.overlayDirs|, i requires 0 <= i < |r.overlayDirs| => LayerDir(r, r.overlayDirs[i]));
    if dirs == [] then [Workaround(r)] else dirs
  }

  predicate AllPresent(r: Request) {
    && (forall x <- r.built :: NameDir(r, x) in r.present)
    && forall x <- r.overlayDirs :: LayerDir(r, x) in r.present
  }

  // ----- printing and splitting -----

  function Reverse(dirs: seq<string>): (r: seq<string>)
    ensures |r| == |dirs| && forall i :: 0 <= i < |r| ==> r[i] == dirs[|dirs| - 1 - i]
  {
    if dirs == [] then [] else [dirs[|dirs| - 1]] + Reverse(dirs[..|dirs| - 1])
  }

  /** Each part with a colon after it. */
  function Colons(parts: seq<string>): string {
    if parts == [] then "" else Colons(parts[..|parts| - 1]) + parts[|parts| - 1] + ":"
  }

  lemma {:induction false} SplitColons(parts: seq<string>)
    requires forall p <- parts :: ':' !in p
    ensures Split(Colons(parts), ':') == parts + [""]
  {
    if parts != [] {
      var before, p := parts[..|parts| - 1], parts[|parts| - 1];
      assert p in parts && forall x <- before :: x in parts;
      SplitColons(before);
      SplitOneMore(Colons(before), before, p, ':');
      assert before + [p] == parts;
    }
  }

  /** The printed argument, with nothing left to truncate. */
  function Argument(r: Request): string {
    Colons(["overlayfs"] + Reverse(Lowerdirs(r))) + NameDir(r, r.tag)
  }

  function Expected(r: Request): seq<string> {
    ["overlayfs"] + Reverse(Lowerdirs(r)) + [NameDir(r, r.tag)]
  }

  predicate NoColons(r: Request) {
    ':' !in r.root && ':' !in r.tag && forall x <- r.built :: ':' !in x
  }

  lemma {:induction false} LayerDirsHaveNoColon(r: Request, layers: seq<string>)
    requires ':' !in r.root
    ensures forall dir <- LayerDirs(r, layers) :: ':' !in dir
  {
    if layers != [] {
      LayerDirsHaveNoColon(r, layers[..|layers| - 1]);
    }
  }

  lemma ColonInOne(a: seq<string>, b: seq<string>, c: seq<string>)
    requires forall dir <- a :: ':' !in dir
    requires forall dir <- b :: ':' !in dir
    requires forall dir <- c :: ':' !in dir
    ensures forall dir <- a + b + c :: ':' !in dir
  {
  }

  lemma BuiltHaveNoColon(r: Request)
    requires NoColons(r)
    ensures forall dir <- seq(|r.built|, i requires 0 <= i < |r.built| => NameDir(r, r.built[i])) :: ':' !in dir
  {
  }

  lemma LowerdirsHaveNoColon(r: Request)
    requires NoColons(r)
    ensures forall dir <- Lowerdirs(r) :: ':' !in dir
  {
    LayerDirsHaveNoColon(r, r.layers);
    BuiltHaveNoColon(r);
    ColonInOne(
      LayerDirs(r, r.layers), seq(|r.built|, i requires 0 <= i < |r.built| => NameDir(r, r.built[i])),
      seq(|r.overlayDirs|, i requires 0 <= i < |r.overlayDirs| => LayerDir(r, r.overlayDirs[i])));
  }

  lemma BuiltIsMounted(r: Request, x: string)
    requires x in r.built
    ensures NameDir(r, x) in Lowerdirs(r)
  {
    var i :| 0 <= i < |r.built| && r.built[i] == x;
    assert Lowerdirs(r)[|LayerDirs(r, r.layers)| + i] == NameDir(r, x);
  }

  lemma NameHasNoColon(r: Request, x: string)
    requires ':' !in NameDir(r, x)
    ensures ':' !in r.root && ':' !in x
  {
    var dir := NameDir(r, x);
    forall k | 0 <= k < |r.root| ensures r.root[k] != ':' {
      assert dir[k] == r.root[k];
    }
    forall k | 0 <= k < |x| ensures x[k] != ':' {
      assert dir[|r.root| + 1 + k] == x[k];
    }
  }

  lemma InReverse(dirs: seq<string>, dir: string)
    ensures dir in Reverse(dirs) <==> dir in dirs
  {
    if dir in dirs {
      var i :| 0 <= i < |dirs| && dirs[i] == dir;
      assert Reverse(dirs)[|dirs| - 1 - i] == dir;
    }
  }

  lemma CleanArgumentSplits(r: Request)
    requires NoColons(r)
    ensures Split(Argument(r), ':') == Expected(r)
  {
    LowerdirsHaveNoColon(r);
    var parts := ["overlayfs"] + Reverse(Lowerdirs(r));
    forall p | p in parts ensures ':' !in p {
      InReverse(Lowerdirs(r), p);
    }
    SplitColons(parts);
    SplitAppends(Colons(parts), NameDir(r, r.tag), ':');
    assert "" + NameDir(r, r.tag) == NameDir(r, r.tag);
  }

  lemma ColonsShow(r: Request)
    requires Split(Argument(r), ':') == Expected(r)
    ensures NoColons(r)
  {
    assert NameDir(r, r.tag) in Split(Argument(r), ':');
    NameHasNoColon(r, r.tag);
    forall x | x in r.built ensures ':' !in x {
      BuiltIsMounted(r, x);
      InReverse(Lowerdirs(r), NameDir(r, x));
      assert NameDir(r, x) in Split(Argument(r), ':');
      NameHasNoColon(r, x);
    }
  }

  /** Split at its colons, the argument gives back `overlayfs`, the lower directories from the top
      down, at least one, and the upper directory, if and only if no name that is printed as it is
      has a colon. */
  lemma ArgumentSplits(r: Request)
    ensures Split(Argument(r), ':') == Expected(r) <==> NoColons(r)
  {
    if NoColons(r) {
      CleanArgumentSplits(r);
    }
    if Split(Argument(r), ':') == Expected(r) {
      ColonsShow(r);
    }
  }

  /** The directories of the source layers, those that are missing passed over. */
  method CollectLayers(r: Request) returns (dirs: seq<string>)
    ensures dirs == LayerDirs(r, r.layers)
  {
    dirs := [];
    for i := 0 to |r.layers|
      invariant dirs == LayerDirs(r, r.layers[..i])
    {
      assert r.layers[..i + 1][..i] == r.layers[..i];
      var contents := LayerDir(r, r.layers[i]);
      if contents in r.present {
        dirs := dirs + [contents];
      }
    }
    assert r.layers[..|r.layers|] == r.layers;
  }

  method CollectBuilt(r: Request, layers: seq<string>) returns (dirs: Result<seq<string>>)
    ensures dirs.Ok? <==> forall x <- r.built :: NameDir(r, x) in r.present
    ensures dirs.Ok? ==> dirs.value == layers + seq(|r.built|, k requires 0 <= k < |r.built| => NameDir(r, r.built[k]))
  {
    var collected := layers;
    for i := 0 to |r.built|
      invariant forall x <- r.built[..i] :: NameDir(r, x) in r.present
      invariant collected == layers + seq(i, k requires 0 <= k < i => NameDir(r, r.built[k]))
    {
      var contents := NameDir(r, r.built[i]);
      if contents !in r.present {
        return Err;
      }
      collected := collected + [contents];
    }
    return Ok(collected);
  }

  method CollectLowerdirs(r: Request) returns (lowerdirs: Result<seq<string>>)
    ensures lowerdirs.Ok? <==> AllPresent(r)
    ensures lowerdirs.Ok? ==> lowerdirs.value == Lowerdirs(r)
  {
    var layers := CollectLayers(r);
    var stacked :- CollectBuilt(r, layers);
    var dirs := stacked;
    for i := 0 to |r.overlayDirs|
      invariant forall x <- r.overlayDirs[..i] :: LayerDir(r, x) in r.present
      invariant dirs == stacked + seq(i, k requires 0 <= k < i => LayerDir(r, r.overlayDirs[k]))
    {
      var contents := LayerDir(r, r.overlayDirs[i]);
      if contents !in r.present {
        return Err;
      }
      dirs := dirs + [contents];
    }
    if |dirs| == 0 {
      dirs := [Workaround(r)];
    }
    return Ok(dirs);
  }

  method PrintLowerdirs(lowerdirs: seq<string>) returns (args: string)
    requires |lowerdirs| >= 1
    ensures args == Colons(["overlayfs"] + Reverse(lowerdirs))
  {
    args := "overlayfs:";
    var i := |lowerdirs|;
    ghost var printed := ["overlayfs"];
    assert Colons(printed) == Colons([]) + "overlayfs" + ":";
    while i > 0
      invariant 0 <= i <= |lowerdirs|
      invariant printed == ["overlayfs"] + Reverse(lowerdirs)[..|lowerdirs| - i]
      invariant args == Colons(printed) && |args| > 0
    {
      i := i - 1;
      args := args + lowerdirs[i] + ":";
      assert (printed + [lowerdirs[i]])[..|printed|] == printed;
      printed := printed + [lowerdirs[i]];
    }
    assert Reverse(lowerdirs)[..|lowerdirs|] == Reverse(lowerdirs);
    EndsWithColon(printed);
    // the colon after the last directory is cut off and written again
    args := args[..|args| - 1];
    args := args + ":";
  }

  lemma EndsWithColon(parts: seq<string>)
    requires parts != []
    ensures var s := Colons(parts); |s| > 0 && s[|s| - 1] == ':' && s[..|s| - 1] + ":" == s
  {
  }

  /** Succeeds exactly when all built layers and overlay directories exist.  Split at its colons, the
      argument gives back `overlayfs`, the lower directories from the top down, at least one, and
      the upper directory: if and only if no name that is printed as it is has a colon. */
  method LxcRootfsString(r: Request) returns (s: Result<string>)
    ensures s.Ok? <==> AllPresent(r)
    ensures s.Ok? ==> s.value == Argument(r) && (Split(s.value, ':') == Expected(r) <==> NoColons(r))
  {
    var lowerdirs := CollectLowerdirs(r);
    if lowerdirs.Err? {
      return Err;
    }
    var args := PrintLowerdirs(lowerdirs.value);
    args := args + NameDir(r, r.tag);
    ArgumentSplits(r);
    return Ok(args);
  }
}

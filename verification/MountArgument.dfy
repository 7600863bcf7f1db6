/** The printed argument of RootfsString.dfy and the stack of changes of OverlayDisk.dfy are the same
    thing: the directories named from right to left hold the stack's changes from bottom to top. */
module MountArgument {
  import opened Wrappers
  import opened OverlayDisk
  import R = RootfsString
  import Text

  // How a digest is written.
  type Writing = Digest -> string

  /** The string's inputs describe a layer's metadata: what is recorded, what exists, what it holds. */
  ghost predicate Describes(r: R.Request, write: Writing, dirs: map<string, Diff>, d: Disk, name: Name, pick: LayerType)
    requires name in d.meta
  {
    var layers := Picked(d.meta[name], pick);
    && r.tag == name && r.built == d.meta[name].builtLayers && r.overlayDirs == []
    && r.layers == seq(|layers|, i requires 0 <= i < |layers| => write(layers[i]))
    && r.present == dirs.Keys
    && (forall x <- layers :: R.LayerDir(r, write(x)) in dirs && dirs[R.LayerDir(r, write(x))] == x.diff)
    && (forall n <- r.built + [name] :: n in d.upper && R.NameDir(r, n) in dirs && dirs[R.NameDir(r, n)] == d.upper[n])
  }

  lemma {:induction false} AllLayersPrinted(r: R.Request, layers: seq<string>)
    requires forall x <- layers :: R.LayerDir(r, x) in r.present
    ensures |R.LayerDirs(r, layers)| == |layers|
    ensures forall i :: 0 <= i < |layers| ==> R.LayerDirs(r, layers)[i] == R.LayerDir(r, layers[i])
  {
    if layers != [] {
      var x := layers[|layers| - 1];
      assert x in layers;
      AllLayersPrinted(r, layers[..|layers| - 1]);
    }
  }

  lemma LowerdirsHold(r: R.Request, write: Writing, dirs: map<string, Diff>, d: Disk, name: Name, pick: LayerType)
    requires name in d.meta && name in d.upper && Describes(r, write, dirs, d, name, pick)
    requires Picked(d.meta[name], pick) != [] || d.meta[name].builtLayers != []
    ensures var stack, lower := MountStack(d, name, pick), R.Lowerdirs(r);
      && |stack| == |lower| + 1
      && forall i :: 0 <= i < |lower| ==> lower[i] in dirs && dirs[lower[i]] == stack[i]
  {
    var layers, lower := Picked(d.meta[name], pick), R.Lowerdirs(r);
    forall x | x in r.layers ensures R.LayerDir(r, x) in r.present {
      var i :| 0 <= i < |layers| && x == write(layers[i]);
      assert layers[i] in layers;
    }
    AllLayersPrinted(r, r.layers);
    forall i | 0 <= i < |lower| ensures lower[i] in dirs && dirs[lower[i]] == MountStack(d, name, pick)[i] {
      if i < |layers| {
        assert layers[i] in layers && lower[i] == R.LayerDir(r, write(layers[i]));
      } else {
        assert r.built[i - |layers|] in r.built + [name] && lower[i] == R.NameDir(r, r.built[i - |layers|]);
      }
    }
  }

  lemma ExpectedHold(r: R.Request, write: Writing, dirs: map<string, Diff>, d: Disk, name: Name, pick: LayerType)
    requires name in d.meta && name in d.upper && Describes(r, write, dirs, d, name, pick)
    requires Picked(d.meta[name], pick) != [] || d.meta[name].builtLayers != []
    ensures R.AllPresent(r)
    ensures var stack, parts := MountStack(d, name, pick), R.Expected(r);
      && |parts| == |stack| + 1 && parts[0] == "overlayfs"
      && (forall i :: 1 <= i < |stack| ==> parts[i] in dirs && dirs[parts[i]] == stack[|stack| - 1 - i])
      && parts[|stack|] in dirs && dirs[parts[|stack|]] == stack[|stack| - 1]
  {
    LowerdirsHold(r, write, dirs, d, name, pick);
    PresentDirs(r, write, dirs, d, name, pick);
    var stack, lower := MountStack(d, name, pick), R.Lowerdirs(r);
    forall i | 1 <= i < |stack| ensures R.Expected(r)[i] in dirs && dirs[R.Expected(r)[i]] == stack[|stack| - 1 - i] {
      ExpectedAt(r, i);
    }
    TopIsOwn(d, name, pick);
  }

  lemma MiddlePart(top: seq<string>, last: string, i: nat)
    requires 1 <= i <= |top|
    ensures (["overlayfs"] + top + [last])[i] == top[i - 1]
  {
  }

  lemma ExpectedAt(r: R.Request, i: nat)
    requires 1 <= i <= |R.Lowerdirs(r)|
    ensures i < |R.Expected(r)| && R.Expected(r)[i] == R.Lowerdirs(r)[|R.Lowerdirs(r)| - i]
  {
    MiddlePart(R.Reverse(R.Lowerdirs(r)), R.NameDir(r, r.tag), i);
  }

  lemma TopIsOwn(d: Disk, name: Name, pick: LayerType)
    requires name in d.meta && name in d.upper && (forall x <- d.meta[name].builtLayers :: x in d.upper)
    ensures var stack := MountStack(d, name, pick); |stack| > 0 && stack[|stack| - 1] == d.upper[name]
  {
  }

  lemma PresentDirs(r: R.Request, write: Writing, dirs: map<string, Diff>, d: Disk, name: Name, pick: LayerType)
    requires name in d.meta && name in d.upper && Describes(r, write, dirs, d, name, pick)
    ensures R.AllPresent(r) && R.NameDir(r, name) in dirs && dirs[R.NameDir(r, name)] == d.upper[name]
  {
    assert name in r.built + [name];
    assert forall x <- r.built :: x in r.built + [name];
  }

  /** Split at its colons, the argument names `overlayfs`, then the directories holding the stack's
      changes below the layer's own from the top one down, then the layer's own upper directory. */
  lemma PrintedIsMounted(r: R.Request, write: Writing, dirs: map<string, Diff>, d: Disk, name: Name, pick: LayerType)
    requires name in d.meta && name in d.upper && Describes(r, write, dirs, d, name, pick) && R.NoColons(r)
    requires Picked(d.meta[name], pick) != [] || d.meta[name].builtLayers != []
    ensures R.AllPresent(r)
    ensures var stack, parts := MountStack(d, name, pick), Text.Split(R.Argument(r), ':');
      && |parts| == |stack| + 1 && parts[0] == "overlayfs"
      && (forall i :: 1 <= i < |stack| ==> parts[i] in dirs && dirs[parts[i]] == stack[|stack| - 1 - i])
      && parts[|stack|] in dirs && dirs[parts[|stack|]] == stack[|stack| - 1]
  {
    R.ArgumentSplits(r);
    ExpectedHold(r, write, dirs, d, name, pick);
  }
}

/** What containers see: the merged view a layer is mounted on, and how repacking one layer
    affects the views of the others. */
module OverlayMounts {
  import opened Collections
  import opened Wrappers
  import opened OverlayDisk
  import opened OverlayRuns
  import opened OverlayProofs
  import opened OverlaySteps
  import opened OverlayTheorems

  // ----- stacks and empty directories -----

  lemma {:induction false} NonEmptyConcat(a: seq<Diff>, b: seq<Diff>)
    ensures NonEmpty(a + b) == NonEmpty(a) + NonEmpty(b)
  {
    if b == [] {
      assert a + b == a;
    } else {
      NonEmptyConcat(a, b[..|b| - 1]);
      assert (a + b)[..|a + b| - 1] == a + b[..|b| - 1];
      var last := One(b[|b| - 1]);
      assert (NonEmpty(a) + NonEmpty(b[..|b| - 1])) + last == NonEmpty(a) + (NonEmpty(b[..|b| - 1]) + last);
    }
  }

  lemma {:induction false} NonEmptyNone(a: seq<Diff>)
    requires forall i :: 0 <= i < |a| ==> a[i] == map[]
    ensures NonEmpty(a) == []
  {
    if a != [] {
      NonEmptyNone(a[..|a| - 1]);
    }
  }

  /** Empty directories do not show in the merged view. */
  lemma {:induction false} ViewNonEmpty(stack: seq<Diff>)
    ensures View(NonEmpty(stack)) == View(stack)
  {
    if stack != [] {
      var below, top := stack[..|stack| - 1], stack[|stack| - 1];
      ViewNonEmpty(below);
      if top == map[] {
        assert Apply(View(below), top) == View(below);
        assert NonEmpty(stack) == NonEmpty(below);
      } else {
        assert NonEmpty(stack)[..|NonEmpty(stack)| - 1] == NonEmpty(below);
      }
    }
  }

  /** Emptying directories of a stack keeps it, up to empty directories, only if they were empty. */
  lemma {:induction false} EmptiedStack(a: seq<Diff>, b: seq<Diff>)
    requires |a| == |b| && forall i :: 0 <= i < |a| ==> b[i] == a[i] || b[i] == map[]
    ensures |NonEmpty(b)| <= |NonEmpty(a)|
    ensures (exists i :: 0 <= i < |a| && b[i] != a[i]) ==> |NonEmpty(b)| < |NonEmpty(a)|
  {
    if a != [] {
      EmptiedStack(a[..|a| - 1], b[..|b| - 1]);
      if i :| 0 <= i < |a| && b[i] != a[i] {
        assert i < |a| - 1 ==> b[..|b| - 1][i] != a[..|a| - 1][i];
      }
    }
  }

  // ----- a sound mount -----

  ghost predicate Mountable(d: Disk, l: Lineage) {
    l.name in d.meta && l.name in d.upper && forall x <- d.meta[l.name].builtLayers :: x in d.upper
  }

  /** Whichever manifest is picked, the layer is mounted on exactly its lineage's changes. */
  ghost predicate Sound(d: Disk, l: Lineage) {
    && Mountable(d, l)
    && forall pick :: Picks(d.meta[l.name], pick) ==> NonEmpty(MountStack(d, l.name, pick)) == NonEmpty(Expected(l))
  }

  lemma SoundView(d: Disk, l: Lineage, pick: LayerType)
    requires Sound(d, l) && Picks(d.meta[l.name], pick)
    ensures View(MountStack(d, l.name, pick)) == View(Expected(l))
  {
    ViewNonEmpty(MountStack(d, l.name, pick));
    ViewNonEmpty(Expected(l));
  }

  lemma ListedStack(d: Disk, d': Disk, source: Name, target: Name, seen: LayerType)
    requires source in d.meta && source in d.upper && target in d'.meta && target in d'.upper
    requires forall x <- d.meta[source].builtLayers :: x in d.upper
    requires forall x <- Listed(d, source) :: x in d'.upper && d'.upper[x] == d.upper[x]
    requires d'.meta[target] == d.meta[source].(builtLayers := Listed(d, source))
    ensures MountStack(d', target, seen) == MountStack(d, source, seen) + [d'.upper[target]]
  {
    var names := d.meta[source].builtLayers;
    assert Uppers(d', names + [source]) == Uppers(d, names) + [d.upper[source]];
  }

  lemma ViewEmptyTop(stack: seq<Diff>)
    ensures View(stack + [map[]]) == View(stack)
  {
    assert (stack + [map[]])[..|stack|] == stack;
    assert Apply(View(stack), map[]) == View(stack);
  }

  /** Right after a snapshot the target's merged view is its source's. */
  lemma SnapshotKeepsView(d: Disk, source: Name, target: Name, pick: LayerType, seen: LayerType)
    requires StoreOk(d) && source in d.meta && source in d.upper && source != target
    requires forall x <- d.meta[source].builtLayers :: x in d.upper && x != target
    requires SetupRootfs(d, target, Built(source), pick).Ok?
    ensures var d' := SetupRootfs(d, target, Built(source), pick).value;
      && target in d'.meta && target in d'.upper && (forall x <- d'.meta[target].builtLayers :: x in d'.upper)
      && View(MountStack(d', target, seen)) == View(MountStack(d, source, seen))
  {
    SnapshotShape(d, source, target, pick);
    var d' := SetupRootfs(d, target, Built(source), pick).value;
    ListedStack(d, d', source, target, seen);
    ViewEmptyTop(MountStack(d, source, seen));
  }

  lemma SameMount(d: Disk, d': Disk, l: Lineage)
    requires Mountable(d, l) && l.name in d'.meta && l.name in d'.upper
    requires d'.meta[l.name] == d.meta[l.name] && d'.upper[l.name] == d.upper[l.name]
    requires forall x <- d.meta[l.name].builtLayers :: x in d'.upper && d'.upper[x] == d.upper[x]
    ensures Mountable(d', l) && (Sound(d, l) <==> Sound(d', l))
  {
    assert Uppers(d', d'.meta[l.name].builtLayers) == Uppers(d, d.meta[l.name].builtLayers);
    assert forall pick :: MountStack(d', l.name, pick) == MountStack(d, l.name, pick);
  }

  lemma BuiltMountable(d: Disk, built: map<Name, Lineage>, l: Lineage, lts: seq<LayerType>)
    requires BuiltOk(d, built, lts) && Known(built, l, lts)
    ensures Mountable(d, l)
    decreases l
  {
    BaseKnown(d, built, l, lts);
    if l.Child? && l.buildOnly {
      BuiltMountable(d, built, l.base, lts);
    }
  }

  lemma BuiltElsewhere(d: Disk, l: Lineage, lts: seq<LayerType>, name: Name)
    requires LayerOk(d, l, lts) && name !in Names(l)
    ensures l.name != name && forall x <- d.meta[l.name].builtLayers :: x != name
  {
    NameInNames(l);
  }

  lemma SoundBeside(d: Disk, d': Disk, built: map<Name, Lineage>, l: Lineage, lts: seq<LayerType>, name: Name)
    requires BuiltOk(d, built, lts) && Known(built, l, lts) && Beside(d, d', name) && name !in Names(l)
    ensures Mountable(d', l) && (Sound(d, l) <==> Sound(d', l))
  {
    BaseKnown(d, built, l, lts);
    BuiltMountable(d, built, l, lts);
    BuiltElsewhere(d, l, lts, name);
    SameMount(d, d', l);
  }

  lemma OwnOnTop(below: seq<Diff>, expected: seq<Diff>, own: Diff)
    requires NonEmpty(below) == NonEmpty(expected)
    ensures NonEmpty(below + [own]) == NonEmpty(expected + One(own))
  {
    NonEmptyConcat(below, [own]);
    NonEmptyConcat(expected, One(own));
    assert [own][..0] == [];
  }

  /** A layer set up on a soundly mounted base is soundly mounted, before and after it runs. */
  lemma PreparedSound(d: Disk, l: Lineage, lts: seq<LayerType>)
    requires Prepared(d, l, lts)
    requires l.Root? ==> forall pick :: Picks(d.meta[l.name], pick) ==> Diffs(Picked(d.meta[l.name], pick)) == SourceDiffs(l.source)
    requires l.Child? ==> Sound(d, l.base)
    requires l.Child? ==> d.meta[l.name] == d.meta[l.base.name].(builtLayers := Listed(d, l.base.name))
    ensures Sound(d, l)
  {
    assert Mountable(d, l);
    forall pick | Picks(d.meta[l.name], pick)
      ensures NonEmpty(MountStack(d, l.name, pick)) == NonEmpty(Expected(l))
    {
      if l.Child? {
        ListedStack(d, d, l.base.name, l.name, pick);
        OwnOnTop(MountStack(d, l.base.name, pick), Expected(l.base), l.own);
      } else {
        assert MountStack(d, l.name, pick) == SourceDiffs(l.source) + [l.own];
        OwnOnTop(SourceDiffs(l.source), SourceDiffs(l.source), l.own);
      }
    }
  }

  // ----- what rendering does to mounts -----

  /** Layers not listed are untouched, and an upper directory is left alone or emptied. */
  ghost predicate Touches(d: Disk, d': Disk, names: seq<Name>) {
    && (forall n <- d.meta :: n !in names ==> n in d'.meta && d'.meta[n] == d.meta[n])
    && (forall n <- d.upper :: n in d'.upper && (d'.upper[n] == d.upper[n] || d'.upper[n] == map[]))
    && (forall n <- d.upper :: n !in names ==> d'.upper[n] == d.upper[n])
  }

  lemma LinkedOnly(d: Disk, target: Digest, descs: seq<Digest>)
    requires target in d.store
    ensures var r := LinkDigests(d, target, descs); r == d.(store := r.store)
  {
  }

  lemma GenerateTouches(d: Disk, name: Name, lts: seq<LayerType>, muts: Mutators, enc: Encoder)
    requires |muts| == |lts| > 0 && GenerateLayer(d, name, lts, muts, enc).Ok?
    ensures Touches(d, GenerateLayer(d, name, lts, muts, enc).value.disk, [name])
  {
    if d.upper[name] != map[] {
      var diff := d.upper[name];
      var descs := Lasts(AddNew(name, diff, lts, muts, enc));
      var renamed := AddToStore(d, descs[0], diff);
      LinkedOnly(renamed.(upper := renamed.upper[name := map[]]), descs[0], descs[1..]);
    }
  }

  lemma TouchesTwice(d: Disk, d': Disk, d'': Disk, names: seq<Name>, name: Name)
    requires Touches(d, d', names) && Touches(d', d'', [name])
    ensures Touches(d, d'', names + [name])
  {
  }

  lemma {:induction false} RenderTouches(d: Disk, names: seq<Name>, lts: seq<LayerType>, muts: Mutators, enc: Encoder)
    requires |muts| == |lts| > 0 && RenderAll(d, names, lts, muts, enc).Ok?
    ensures Touches(d, RenderAll(d, names, lts, muts, enc).value.disk, names)
  {
    if names != [] {
      var pre, name := names[..|names| - 1], names[|names| - 1];
      RenderTouches(d, pre, lts, muts, enc);
      var g := RenderAll(d, pre, lts, muts, enc).value;
      GenerateTouches(g.disk, name, lts, g.mutators, enc);
      var g' := RenderBuilt(g.disk, name, lts, g.mutators, enc).value;
      TouchesTwice(d, g.disk, g'.disk, pre, name);
      assert names == pre + [name];
    }
  }

  /** A layer that a render rewrites records the images as they stand after its change. */
  lemma RewrittenManifests(d: Disk, l: Lineage, lts: seq<LayerType>, muts: Mutators, enc: Encoder, pick: LayerType)
    requires StoreOk(d) && MutsOk(d, muts, lts) && |lts| > 0 && Distinct(lts)
    requires l.buildOnly && LayerOk(d, l, lts) && !Quiet(d, l.name)
    requires RenderBuilt(d, l.name, lts, muts, enc).Ok? ==>
      Picks(RenderBuilt(d, l.name, lts, muts, enc).value.disk.meta[l.name], pick)
    ensures var r := RenderBuilt(d, l.name, lts, muts, enc);
      r.Ok? && Diffs(Picked(r.value.disk.meta[l.name], pick)) == Diffs(r.value.mutators[0])
  {
    GenerateOne(d, l.name, lts, muts, enc);
    RenderOne(d, l, lts, muts, enc);
    var g := RenderBuilt(d, l.name, lts, muts, enc).value;
    RecordedAt(d.meta[l.name], lts, g.mutators);
    assert lts[0] in g.disk.meta[l.name].manifests;
    var i :| 0 <= i < |lts| && lts[i] == pick;
    assert Diffs(g.mutators[i]) == Diffs(g.mutators[0]);
  }

  lemma DrainedMount(d: Disk, l: Lineage, pick: LayerType)
    requires Mountable(d, l) && AllDrained(d, d.meta[l.name].builtLayers) && d.upper[l.name] == map[]
    ensures NonEmpty(MountStack(d, l.name, pick)) == NonEmpty(Diffs(Picked(d.meta[l.name], pick)))
  {
    var manifest := Diffs(Picked(d.meta[l.name], pick));
    var rest := Uppers(d, d.meta[l.name].builtLayers) + [d.upper[l.name]];
    assert MountStack(d, l.name, pick) == manifest + rest;
    NonEmptyNone(rest);
    NonEmptyConcat(manifest, rest);
  }

  /** Rendering a layer makes its own mount sound. */
  lemma RewrittenSound(d: Disk, g: Generated, built: map<Name, Lineage>, b: Lineage, lts: seq<LayerType>, enc: Encoder)
    requires Known(built, b, lts) && b.buildOnly && Clean(b) && |lts| > 0 && Distinct(lts)
    requires Rendered(d, Ok(g), built, if b.Child? then Names(b.base) else {}, lts)
    requires if b.Child? then Match(b.base, Diffs(g.mutators[0])) else g.disk == d && Diffs(g.mutators[0]) == SourceDiffs(b.source)
    requires b.name in g.disk.meta && AllDrained(g.disk, g.disk.meta[b.name].builtLayers) && !Quiet(g.disk, b.name)
    ensures RenderBuilt(g.disk, b.name, lts, g.mutators, enc).Ok?
    ensures Sound(RenderBuilt(g.disk, b.name, lts, g.mutators, enc).value.disk, b)
  {
    assert Good(g.disk, built, b.name, lts);
    ChainStep(d, g, built, b, lts, enc);
    var g' := RenderBuilt(g.disk, b.name, lts, g.mutators, enc).value;
    BuiltMountable(g'.disk, built, b, lts);
    DrainedStep(g.disk, g'.disk, g.disk.meta[b.name].builtLayers, b.name);
    forall pick | Picks(g'.disk.meta[b.name], pick)
      ensures NonEmpty(MountStack(g'.disk, b.name, pick)) == NonEmpty(Expected(b))
    {
      RewrittenManifests(g.disk, b, lts, g.mutators, enc, pick);
      DrainedMount(g'.disk, b, pick);
    }
  }

  lemma AncestorNames(d: Disk, built: map<Name, Lineage>, b: Lineage, k: Name, lts: seq<LayerType>)
    requires BuiltOk(d, built, lts) && Known(built, b, lts) && k in Names(b)
    ensures k in built && Known(built, built[k], lts) && built[k].name == k && Names(built[k]) <= Names(b)
    decreases b
  {
    BaseKnown(d, built, b, lts);
    if k != b.name {
      AncestorNames(d, built, b.base, k, lts);
    }
  }

  ghost predicate RewrittenAreSound(d: Disk, d': Disk, built: map<Name, Lineage>, names: seq<Name>) {
    forall k <- names :: k in built && (!Quiet(d, k) && Clean(built[k]) ==> Sound(d', built[k]))
  }

  lemma RewrittenStaySound(d: Disk, g: Disk, g': Disk, built: map<Name, Lineage>, b: Lineage, names: seq<Name>, lts: seq<LayerType>)
    requires RewrittenAreSound(d, g, built, names) && BuiltOk(g, built, lts)
    requires b.Child? && forall k <- names :: k in Names(b.base)
    requires Known(built, b, lts) && Frame(g, g', {b.name})
    ensures RewrittenAreSound(d, g', built, names)
  {
    BaseKnown(g, built, b, lts);
    forall k <- names ensures k in built && (!Quiet(d, k) && Clean(built[k]) ==> Sound(g', built[k])) {
      AncestorNames(g, built, b.base, k, lts);
      BaseKnown(g, built, built[k], lts);
      BuiltMountable(g, built, built[k], lts);
      BuiltElsewhere(g, built[k], lts, b.name);
      SameMount(g, g', built[k]);
    }
  }

  lemma ListedNames(d: Disk, l: Lineage, lts: seq<LayerType>)
    requires LayerOk(d, l, lts)
    ensures forall k <- Listed(d, l.name) :: k in Names(l)
  {
    NameInNames(l);
  }

  lemma {:induction false} ChainMounts(
      d: Disk, built: map<Name, Lineage>, b: Lineage, lts: seq<LayerType>, muts: Mutators, enc: Encoder)
    requires StoreOk(d) && BuiltOk(d, built, lts) && Known(built, b, lts) && b.name in d.meta
    requires |lts| > 0 && Distinct(lts) && MutsOk(d, muts, lts)
    requires StartMatch(b, Diffs(muts[0]))
    ensures var r := RenderAll(d, Listed(d, b.name), lts, muts, enc);
      r.Ok? && RewrittenAreSound(d, r.value.disk, built, Listed(d, b.name))
    decreases b
  {
    BaseKnown(d, built, b, lts);
    ListedNames(d, b, lts);
    RenderChain(d, built, b, lts, muts, enc);
    var names := Listed(d, b.name);
    if !b.buildOnly {
      QuietList(d, b, lts);
      forall k <- names ensures k in built { AncestorNames(d, built, b, k, lts); }
    } else {
      var pre := d.meta[b.name].builtLayers;
      assert names[..|names| - 1] == pre;
      if b.Child? {
        RenderChain(d, built, b.base, lts, muts, enc);
        ChainMounts(d, built, b.base, lts, muts, enc);
      }
      ChainMountsStep(d, built, b, pre, lts, muts, enc);
    }
  }

  lemma RewrittenOneMore(d: Disk, d': Disk, built: map<Name, Lineage>, names: seq<Name>, k: Name)
    requires RewrittenAreSound(d, d', built, names)
    requires k in built && (!Quiet(d, k) && Clean(built[k]) ==> Sound(d', built[k]))
    ensures RewrittenAreSound(d, d', built, names + [k])
  {
  }

  lemma ChainMountsStep(d: Disk, built: map<Name, Lineage>, b: Lineage, pre: seq<Name>, lts: seq<LayerType>, muts: Mutators, enc: Encoder)
    requires Known(built, b, lts) && b.buildOnly && |lts| > 0 && Distinct(lts) && |muts| == |lts|
    requires LayerOk(d, b, lts) && pre == d.meta[b.name].builtLayers
    requires var r := RenderAll(d, pre, lts, muts, enc);
      && Rendered(d, r, built, if b.Child? then Names(b.base) else {}, lts)
      && AllDrained(r.value.disk, pre)
      && RewrittenAreSound(d, r.value.disk, built, pre)
      && if b.Child? then Match(b.base, Diffs(r.value.mutators[0]))
         else r.value.disk == d && Diffs(r.value.mutators[0]) == SourceDiffs(b.source)
    ensures var r := RenderAll(d, pre + [b.name], lts, muts, enc);
      r.Ok? && RewrittenAreSound(d, r.value.disk, built, pre + [b.name])
  {
    var names := pre + [b.name];
    assert names[..|names| - 1] == pre;
    var g := RenderAll(d, pre, lts, muts, enc).value;
    ChainStep(d, g, built, b, lts, enc);
    var g' := RenderBuilt(g.disk, b.name, lts, g.mutators, enc).value;
    RenderLast(d, names, lts, muts, enc);
    if b.Child? {
      RewrittenStaySound(d, g.disk, g'.disk, built, b, pre, lts);
    }
    if !Quiet(d, b.name) && Clean(b) {
      RewrittenSound(d, g, built, b, lts, enc);
    }
    RewrittenOneMore(d, g'.disk, built, pre, b.name);
  }

  // ----- what repacking does to mounts -----

  /** Repacking `name` rewrites the metadata of the layers it lists that have something to give.
      Any other layer that lists a directory this empties loses that directory's change. */
  predicate Hollows(d: Disk, name: Name, k: Name)
    requires name in d.meta && k in d.meta
    requires forall x <- d.meta[name].builtLayers :: x in d.upper
  {
    && (k in d.meta[name].builtLayers ==> d.upper[k] == map[] && !d.meta[k].hasBuiltOCIOutput)
    && exists x <- d.meta[k].builtLayers :: x in d.meta[name].builtLayers && d.upper[x] != map[]
  }

  lemma HollowedStack(d: Disk, d': Disk, l: Lineage, x: Name, pick: LayerType)
    requires Mountable(d, l) && Mountable(d', l)
    requires d'.meta[l.name] == d.meta[l.name] && d'.upper[l.name] == d.upper[l.name]
    requires forall n <- d.upper :: n in d'.upper && (d'.upper[n] == d.upper[n] || d'.upper[n] == map[])
    requires x in d.meta[l.name].builtLayers && d.upper[x] != map[] && d'.upper[x] == map[]
    ensures |NonEmpty(MountStack(d', l.name, pick))| < |NonEmpty(MountStack(d, l.name, pick))|
  {
    var listed := d.meta[l.name].builtLayers;
    var a, b := MountStack(d, l.name, pick), MountStack(d', l.name, pick);
    var m := Diffs(Picked(d.meta[l.name], pick));
    var i :| 0 <= i < |listed| && listed[i] == x;
    assert a[|m| + i] == d.upper[x] && b[|m| + i] == map[];
    EmptiedStack(a, b);
  }

  lemma KeptMount(d: Disk, d': Disk, l: Lineage, names: seq<Name>)
    requires Sound(d, l) && Touches(d, d', names) && l.name in d'.meta
    requires d'.meta[l.name] == d.meta[l.name] && d'.upper[l.name] == d.upper[l.name]
    requires forall x <- names :: x in d.upper
    requires AllDrained(d', names)
    ensures Mountable(d', l)
    ensures Sound(d', l) <==> !exists x <- d.meta[l.name].builtLayers :: x in names && d.upper[x] != map[]
  {
    if x :| x in d.meta[l.name].builtLayers && x in names && d.upper[x] != map[] {
      var manifests := d.meta[l.name].manifests;
      var pick := if manifests == map[] then LayerType("", false) else PickOne(manifests.Keys);
      HollowedStack(d, d', l, x, pick);
    } else {
      SameMount(d, d', l);
    }
  }

  ghost function PickOne(lts: set<LayerType>): (lt: LayerType)
    requires lts != {}
    ensures lt in lts
  {
    var lt :| lt in lts; lt
  }

  lemma RepackBeside(d: Disk, built: map<Name, Lineage>, l: Lineage, lts: seq<LayerType>, enc: Encoder)
    requires ReadyToRepack(d, built, l, lts) && !l.buildOnly
    ensures RenderAll(d, d.meta[l.name].builtLayers, lts, Images(d, l.name, lts), enc).Ok?
    ensures RepackOverlay(d, l.name, lts, enc).Ok?
    ensures Beside(RenderAll(d, d.meta[l.name].builtLayers, lts, Images(d, l.name, lts), enc).value.disk,
                   RepackOverlay(d, l.name, lts, enc).value, l.name)
  {
    RepackOk(d, built, l, lts, enc);
    RenderListed(d, built, l, lts, enc);
    var g := RenderAll(d, d.meta[l.name].builtLayers, lts, Images(d, l.name, lts), enc).value;
    RepackIsFinish(d, l.name, lts, enc);
    var own := GenerateLayer(g.disk, l.name, lts, g.mutators, enc);
    if own.Ok? && !own.value.mutated && !g.mutated {
      OwnGenerated(g, l, lts, enc);
    } else {
      FinishOk(g, l, lts, enc);
    }
  }

  lemma RenderedMount(d: Disk, built: map<Name, Lineage>, l: Lineage, lts: seq<LayerType>, enc: Encoder, k: Name)
    requires ReadyToRepack(d, built, l, lts) && !l.buildOnly
    requires k in built && built[k].name == k && Clean(built[k]) && Sound(d, built[k])
    requires forall x <- d.meta[l.name].builtLayers :: x in d.upper
    ensures var g := RenderAll(d, d.meta[l.name].builtLayers, lts, Images(d, l.name, lts), enc);
      g.Ok? && (Sound(g.value.disk, built[k]) <==> !Hollows(d, l.name, k))
  {
    var names, muts := d.meta[l.name].builtLayers, Images(d, l.name, lts);
    RenderListed(d, built, l, lts, enc);
    RenderTouches(d, names, lts, muts, enc);
    var g := RenderAll(d, names, lts, muts, enc).value;
    if k in names && !Quiet(d, k) {
      BaseKnown(d, built, l.base, lts);
      ChainMounts(d, built, l.base, lts, muts, enc);
    } else {
      KeptMount(d, g.disk, built[k], names);
    }
  }

  /** Repacking a layer keeps every other layer's mount sound, except exactly those layers that
      keep their metadata and list a directory that this repack drains: they lose its change. */
  lemma RepackKeepsMount(d: Disk, built: map<Name, Lineage>, l: Lineage, lts: seq<LayerType>, enc: Encoder, k: Name)
    requires ReadyToRepack(d, built, l, lts) && !l.buildOnly
    requires k in built && built[k].name == k && Clean(built[k]) && Sound(d, built[k])
    requires forall x <- d.meta[l.name].builtLayers :: x in d.upper
    ensures RepackOverlay(d, l.name, lts, enc).Ok?
    ensures Sound(RepackOverlay(d, l.name, lts, enc).value, built[k]) <==> !Hollows(d, l.name, k)
  {
    RepackBeside(d, built, l, lts, enc);
    RenderedMount(d, built, l, lts, enc, k);
    RenderListed(d, built, l, lts, enc);
    var g := RenderAll(d, d.meta[l.name].builtLayers, lts, Images(d, l.name, lts), enc).value;
    assert Good(g.disk, built, k, lts);
    SoundBeside(g.disk, RepackOverlay(d, l.name, lts, enc).value, built, built[k], lts, l.name);
  }

  lemma CommittedSound(d: Disk, l: Lineage, lts: seq<LayerType>, muts: Mutators)
    requires Distinct(lts) && |lts| > 0 && MutsOk(d, muts, lts)
    requires Clean(l) && Match(l, Diffs(muts[0]))
    requires l.name in d.upper && d.upper[l.name] == map[] && l.name in d.meta
    requires d.meta[l.name] == Recorded(EMPTY_METADATA, lts, muts)
    ensures Sound(d, l)
  {
    RecordedAt(EMPTY_METADATA, lts, muts);
    var m := d.meta[l.name];
    assert m.builtLayers == [];
    forall pick | Picks(m, pick) ensures NonEmpty(MountStack(d, l.name, pick)) == NonEmpty(Expected(l)) {
      assert lts[0] in m.manifests;
      var i :| 0 <= i < |lts| && lts[i] == pick;
      assert Diffs(muts[i]) == Diffs(muts[0]);
      DrainedMount(d, l, pick);
    }
  }

  lemma FinishSound(g: Generated, l: Lineage, lts: seq<LayerType>, enc: Encoder)
    requires StoreOk(g.disk) && !l.buildOnly && Distinct(lts) && |lts| > 0
    requires MutsOk(g.disk, g.mutators, lts) && Prepared(g.disk, l, lts) && Clean(l)
    requires BaseMatch(l, Diffs(g.mutators[0]))
    requires GenerateLayer(g.disk, l.name, lts, g.mutators, enc).Ok? ==>
      GenerateLayer(g.disk, l.name, lts, g.mutators, enc).value.mutated || g.mutated
    ensures Finish(g, l.name, lts, enc).Ok? && Sound(Finish(g, l.name, lts, enc).value, l)
  {
    OwnGenerated(g, l, lts, enc);
    var own := GenerateLayer(g.disk, l.name, lts, g.mutators, enc).value;
    CommitAt(own.disk, l.name, lts, own.mutators);
    var d' := Finish(g, l.name, lts, enc).value;
    MutsKept(own.disk, d', own.mutators, lts);
    CommittedSound(d', l, lts, own.mutators);
  }

  /** Repacking a layer keeps its own mount sound. */
  lemma RepackedIsSound(d: Disk, built: map<Name, Lineage>, l: Lineage, lts: seq<LayerType>, enc: Encoder)
    requires ReadyToRepack(d, built, l, lts) && !l.buildOnly && Clean(l) && Sound(d, l)
    ensures RepackOverlay(d, l.name, lts, enc).Ok? && Sound(RepackOverlay(d, l.name, lts, enc).value, l)
  {
    RepackOk(d, built, l, lts, enc);
    RenderListed(d, built, l, lts, enc);
    var g := RenderAll(d, d.meta[l.name].builtLayers, lts, Images(d, l.name, lts), enc).value;
    RepackIsFinish(d, l.name, lts, enc);
    var own := GenerateLayer(g.disk, l.name, lts, g.mutators, enc);
    if own.Ok? && !own.value.mutated && !g.mutated {
      OwnGenerated(g, l, lts, enc);
      RenderUnmutated(d, d.meta[l.name].builtLayers, lts, Images(d, l.name, lts), enc);
    } else {
      FinishSound(g, l, lts, enc);
    }
  }

  // ----- whole runs -----

  /** The step's repack hollows no other layer. */
  ghost predicate SafeStep(s: Sys, step: Step) {
    var mounted := SetupRootfs(s.disk, step.name, step.def.from, step.pick);
    mounted.Ok? && !step.def.buildOnly ==>
      Spares(RunContainer(mounted.value, step.name, step.own), Forget(s.built, step.name), step.name)
  }

  ghost predicate Spares(d: Disk, built: map<Name, Lineage>, name: Name) {
    && name in d.meta && (forall x <- d.meta[name].builtLayers :: x in d.upper)
    && forall k {:trigger built[k]} | k in built :: k in d.meta && (Clean(built[k]) ==> !Hollows(d, name, k))
  }

  ghost predicate SafeRun(s: Sys, steps: seq<Step>, lts: seq<LayerType>)
    requires |lts| > 0
  {
    steps != [] ==>
      && SafeRun(s, steps[..|steps| - 1], lts)
      && var before := Run(s, steps[..|steps| - 1], lts);
         (before.Ok? ==> SafeStep(before.value, steps[|steps| - 1]))
  }

  ghost predicate MountsSound(d: Disk, built: map<Name, Lineage>) {
    forall k {:trigger built[k]} | k in built :: Clean(built[k]) ==> Sound(d, built[k])
  }

  lemma RootSetup(d: Disk, l: Lineage, from: From, pick: LayerType, seen: LayerType)
    requires !from.Built? && l.Root? && SetupRootfs(d, l.name, from, pick).Ok?
    requires StoreOk(d) && l.source == SourceOf(from)
    ensures var ran := RunContainer(SetupRootfs(d, l.name, from, pick).value, l.name, l.own);
      l.name in ran.meta && (Picks(ran.meta[l.name], seen) ==> Diffs(Picked(ran.meta[l.name], seen)) == SourceDiffs(l.source))
  {
    if from.Image? {
      UnpackedOk(Delete(d, l.name), from.source.layers);
      var m := RunContainer(SetupRootfs(d, l.name, from, pick).value, l.name, l.own).meta[l.name];
      assert from.source.layerType in m.manifests;
    } else {
      assert Diffs([]) == [];
    }
  }

  /** Setting a layer up and running it keeps every mount sound, the new one included: the
      container ran on exactly the changes of its base's lineage. */
  lemma RanSound(s: Sys, step: Step, lts: seq<LayerType>)
    requires Inv(s, lts) && MountsSound(s.disk, s.built) && LineageOf(s, step, lts).Ok?
    requires SetupRootfs(s.disk, step.name, step.def.from, step.pick).Ok?
    ensures var l := LineageOf(s, step, lts).value;
      var ran := RunContainer(SetupRootfs(s.disk, step.name, step.def.from, step.pick).value, step.name, step.own);
      MountsSound(ran, Forget(s.built, step.name)) && (Clean(l) ==> Sound(ran, l))
  {
    var l := LineageOf(s, step, lts).value;
    var ran := RunContainer(SetupRootfs(s.disk, step.name, step.def.from, step.pick).value, step.name, step.own);
    var kept := Forget(s.built, step.name);
    RanOk(s, step, lts);
    forall k | k in kept ensures Clean(kept[k]) ==> Sound(ran, kept[k]) {
      assert Good(s.disk, s.built, k, lts);
      SoundBeside(s.disk, ran, s.built, s.built[k], lts, step.name);
    }
    if Clean(l) {
      if l.Child? {
        NameInNames(l.base);
        assert Good(s.disk, s.built, step.def.from.tag, lts);
        assert kept[l.base.name] == l.base && step.def.from == Built(l.base.name);
        SnapshotShape(s.disk, l.base.name, step.name, step.pick);
      } else {
        forall seen | Picks(ran.meta[l.name], seen) ensures Diffs(Picked(ran.meta[l.name], seen)) == SourceDiffs(l.source) {
          RootSetup(s.disk, l, step.def.from, step.pick, seen);
        }
      }
      PreparedSound(ran, l, lts);
    }
  }

  lemma OutputSound(d: Disk, built: map<Name, Lineage>, l: Lineage, lts: seq<LayerType>, enc: Encoder)
    requires StoreOk(d) && BuiltOk(d, built, lts) && Prepared(d, l, lts) && WellFormed(l, lts) && !l.buildOnly
    requires |lts| > 0 && Distinct(lts)
    requires forall k <- built :: l.name !in Names(built[k])
    requires l.Child? ==> Known(built, l.base, lts)
    requires MountsSound(d, built) && (Clean(l) ==> Sound(d, l))
    requires Spares(d, built, l.name)
    ensures var r := Repack(d, l.name, StartOf(l), lts, enc);
      r.Ok? && MountsSound(r.value, built[l.name := l])
  {
    BasesReady(d, built, l, lts, enc);
    var ready := InitializeBases(d, l.name, StartOf(l), lts, enc).value;
    RepackOk(ready, built, l, lts, enc);
    RepackSound(d, ready, built, l, lts, enc);
  }

  lemma RepackSound(d: Disk, ready: Disk, built: map<Name, Lineage>, l: Lineage, lts: seq<LayerType>, enc: Encoder)
    requires BuiltOk(d, built, lts) && Spares(d, built, l.name) && MountsSound(d, built)
    requires ready.meta == d.meta && ready.upper == d.upper && (Clean(l) ==> Sound(d, l))
    requires ReadyToRepack(ready, built, l, lts) && !l.buildOnly
    ensures RepackOverlay(ready, l.name, lts, enc).Ok?
    ensures MountsSound(RepackOverlay(ready, l.name, lts, enc).value, built[l.name := l])
  {
    RepackBeside(ready, built, l, lts, enc);
    var d' := RepackOverlay(ready, l.name, lts, enc).value;
    var built' := built[l.name := l];
    forall k | k in built' ensures Clean(built'[k]) ==> Sound(d', built'[k]) {
      if k != l.name && Clean(built[k]) {
        OtherSound(d, ready, built, l, lts, enc, k);
      } else if k == l.name && Clean(l) {
        SameMount(d, ready, l);
        RepackedIsSound(ready, built, l, lts, enc);
      }
    }
  }

  lemma OtherSound(d: Disk, ready: Disk, built: map<Name, Lineage>, l: Lineage, lts: seq<LayerType>, enc: Encoder, k: Name)
    requires BuiltOk(d, built, lts) && Spares(d, built, l.name)
    requires ready.meta == d.meta && ready.upper == d.upper
    requires ReadyToRepack(ready, built, l, lts) && !l.buildOnly
    requires k in built && Clean(built[k]) && Sound(d, built[k])
    ensures RepackOverlay(ready, l.name, lts, enc).Ok? && Sound(RepackOverlay(ready, l.name, lts, enc).value, built[k])
  {
    assert Good(d, built, k, lts);
    SameMount(d, ready, built[k]);
    assert !Hollows(ready, l.name, k);
    RepackKeepsMount(ready, built, l, lts, enc, k);
  }

  lemma NextIs(s: Sys, step: Step, l: Lineage, lts: seq<LayerType>)
    requires |lts| > 0 && LineageOf(s, step, lts) == Ok(l) && Next(s, step, lts).Ok?
    ensures SetupRootfs(s.disk, step.name, step.def.from, step.pick).Ok?
    ensures l.name == step.name && l.buildOnly == step.def.buildOnly
    ensures var ran := RunContainer(SetupRootfs(s.disk, step.name, step.def.from, step.pick).value, step.name, step.own);
      var next := Next(s, step, lts).value;
      && next.built == Forget(s.built, step.name)[step.name := l]
      && (if l.buildOnly then next.disk == ran else Repack(ran, step.name, StartOf(l), lts, step.enc) == Ok(next.disk))
  {
  }

  lemma StepKeepsMounts(s: Sys, step: Step, lts: seq<LayerType>)
    requires Inv(s, lts) && MountsSound(s.disk, s.built) && |lts| > 0 && Distinct(lts)
    requires Next(s, step, lts).Ok? && SafeStep(s, step)
    ensures MountsSound(Next(s, step, lts).value.disk, Next(s, step, lts).value.built)
  {
    var l := LineageOf(s, step, lts).value;
    NextIs(s, step, l, lts);
    RanOk(s, step, lts);
    RanSound(s, step, lts);
    if !l.buildOnly {
      var ran := RunContainer(SetupRootfs(s.disk, step.name, step.def.from, step.pick).value, step.name, step.own);
      OutputSound(ran, Forget(s.built, step.name), l, lts, step.enc);
    }
  }

  /** In every state reached without a hollowing repack, every clean layer is mounted on exactly
      its lineage's changes, and what an output layer is mounted on is what its image holds. */
  lemma {:induction false} MountsAreSound(bases: set<Digest>, steps: seq<Step>, lts: seq<LayerType>)
    requires |lts| > 0 && Distinct(lts) && Run(Initial(bases), steps, lts).Ok?
    requires SafeRun(Initial(bases), steps, lts)
    ensures var s := Run(Initial(bases), steps, lts).value; MountsSound(s.disk, s.built)
  {
    if steps != [] {
      var before := steps[..|steps| - 1];
      MountsAreSound(bases, before, lts);
      RunKeepsInv(Initial(bases), before, lts);
      StepKeepsMounts(Run(Initial(bases), before, lts).value, steps[|steps| - 1], lts);
    }
  }

  lemma MountedIsShipped(
      bases: set<Digest>, steps: seq<Step>, lts: seq<LayerType>, n: Name, lt: LayerType, pick: LayerType)
    requires |lts| > 0 && Distinct(lts) && Run(Initial(bases), steps, lts).Ok?
    requires SafeRun(Initial(bases), steps, lts) && lt in lts
    requires var s := Run(Initial(bases), steps, lts).value;
      && n in s.built && !s.built[n].buildOnly && Clean(s.built[n])
      && n in s.disk.meta && Picks(s.disk.meta[n], pick)
    ensures var s := Run(Initial(bases), steps, lts).value;
      && s.built[n].name == n && Mountable(s.disk, s.built[n])
      && Ref(n, lt) in s.disk.images
      && (forall x <- s.disk.images[Ref(n, lt)] :: x in s.disk.store)
      && View(MountStack(s.disk, n, pick)) == View(Resolve(s.disk, s.disk.images[Ref(n, lt)]))
  {
    MountsAreSound(bases, steps, lts);
    ImagesAreExact(bases, steps, lts, n, lt);
    RunKeepsInv(Initial(bases), steps, lts);
    var s := Run(Initial(bases), steps, lts).value;
    assert Good(s.disk, s.built, n, lts);
    SoundView(s.disk, s.built[n], pick);
  }

}

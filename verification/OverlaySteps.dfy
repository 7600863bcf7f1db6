/** One layer's turn in a build, from setting up its root filesystem to committing its image,
    keeps the invariant of OverlayRuns. */
module OverlaySteps {
  import opened Collections
  import opened Wrappers
  import opened OverlayDisk
  import opened OverlayRuns
  import opened OverlayProofs

  /** Only the layer `name` differs, apart from directories added to the store. */
  ghost predicate Beside(d: Disk, d': Disk, name: Name) {
    && Extends(d, d')
    && (forall n <- d.meta :: n != name ==> n in d'.meta && d'.meta[n] == d.meta[n])
    && (forall n <- d.upper :: n != name ==> n in d'.upper && d'.upper[n] == d.upper[n])
    && (forall ref <- d.images :: ref.name != name ==> ref in d'.images && d'.images[ref] == d.images[ref])
  }

  lemma NameInNames(l: Lineage)
    ensures l.name in Names(l)
  {
  }

  lemma LayerBeside(d: Disk, d': Disk, name: Name, l: Lineage, lts: seq<LayerType>)
    requires Beside(d, d', name) && LayerOk(d, l, lts) && name !in Names(l)
    ensures LayerOk(d', l, lts)
  {
    NameInNames(l);
    if l.Child? {
      NameInNames(l.base);
    }
    MetaKept(d, d', d.meta[l.name], lts);
    if !l.buildOnly {
      ImagesKept(d, d', l, lts);
    }
  }

  lemma ForgetKnown(built: map<Name, Lineage>, name: Name, l: Lineage, lts: seq<LayerType>)
    requires Known(built, l, lts) && name !in Names(l)
    ensures Known(Forget(built, name), l, lts)
  {
  }

  lemma BuiltBeside(d: Disk, d': Disk, built: map<Name, Lineage>, name: Name, lts: seq<LayerType>)
    requires BuiltOk(d, built, lts) && Beside(d, d', name)
    ensures BuiltOk(d', Forget(built, name), lts)
  {
    var kept := Forget(built, name);
    forall n | n in kept ensures Good(d', kept, n, lts) {
      assert Good(d, built, n, lts);
      ForgetKnown(built, name, built[n], lts);
      LayerBeside(d, d', name, built[n], lts);
    }
  }

  // ----- setting up the root filesystem -----

  lemma {:induction false} UnpackedOk(d: Disk, xs: Manifest)
    requires StoreOk(d) && UnpackLayers(d, xs).Ok?
    ensures var d' := UnpackLayers(d, xs).value;
      && StoreOk(d') && Extends(d, d') && d' == d.(store := d'.store)
      && forall x <- xs :: x in d'.store
  {
    if xs != [] {
      UnpackedOk(d, xs[..|xs| - 1]);
      assert xs == xs[..|xs| - 1] + [xs[|xs| - 1]];
    }
  }

  /** A layer set up and run, not yet repacked. */
  ghost predicate Prepared(d: Disk, l: Lineage, lts: seq<LayerType>) {
    && l.name in d.meta && l.name in d.upper && d.upper[l.name] == l.own
    && MetaOk(d, d.meta[l.name], lts)
    && d.meta[l.name].hasBuiltOCIOutput == Inherited(l)
    && (l.Root? ==> d.meta[l.name].builtLayers == [])
    && (l.Root? && l.source.Some? ==> Stored(d, l.source.value.layers, l.source.value.layerType))
    && (l.Child? ==> l.base.name in d.meta)
    && (l.Child? ==> d.meta[l.name].builtLayers == Listed(d, l.base.name))
  }

  lemma SnapshotShape(d: Disk, source: Name, name: Name, pick: LayerType)
    requires StoreOk(d) && source in d.meta && source != name
    requires SetupRootfs(d, name, Built(source), pick).Ok?
    ensures var d' := SetupRootfs(d, name, Built(source), pick).value;
      && StoreOk(d') && Extends(d, d') && d'.images == d.images
      && d'.meta == d.meta[name := d.meta[source].(builtLayers := Listed(d, source))]
      && d'.upper == d.upper[name := map[]]
  {
    var deleted := Delete(d, name);
    var created := deleted.(upper := deleted.upper[name := map[]]);
    UnpackedOk(created, Picked(d.meta[source], pick));
    var d' := SetupRootfs(d, name, Built(source), pick).value;
    assert d'.meta == d.meta[name := d.meta[source].(builtLayers := Listed(d, source))];
    assert d'.upper == d.upper[name := map[]];
  }

  lemma CopiedMeta(d: Disk, d': Disk, m: Metadata, names: seq<Name>, lts: seq<LayerType>)
    requires Extends(d, d') && MetaOk(d, m, lts)
    ensures MetaOk(d', m.(builtLayers := names), lts)
  {
    MetaKept(d, d', m, lts);
  }

  lemma SnapshotPrepared(d: Disk, built: map<Name, Lineage>, l: Lineage, pick: LayerType, lts: seq<LayerType>)
    requires StoreOk(d) && l.Child? && LayerOk(d, l.base, lts) && l.name !in Names(l.base)
    requires l.inherited == d.meta[l.base.name].hasBuiltOCIOutput
    requires SetupRootfs(d, l.name, Built(l.base.name), pick).Ok?
    ensures var ran := RunContainer(SetupRootfs(d, l.name, Built(l.base.name), pick).value, l.name, l.own);
      StoreOk(ran) && Beside(d, ran, l.name) && Prepared(ran, l, lts)
  {
    var n, b := l.name, l.base.name;
    NameInNames(l.base);
    SnapshotShape(d, b, n, pick);
    var ran := RunContainer(SetupRootfs(d, n, Built(b), pick).value, n, l.own);
    assert Listed(ran, b) == Listed(d, b);
    CopiedMeta(d, ran, d.meta[b], Listed(d, b), lts);
    assert ran.meta[n] == d.meta[b].(builtLayers := Listed(d, b));
  }

  lemma RootPrepared(s: Sys, step: Step, lts: seq<LayerType>)
    requires StoreOk(s.disk) && LineageOf(s, step, lts).Ok? && !step.def.from.Built?
    requires SetupRootfs(s.disk, step.name, step.def.from, step.pick).Ok?
    ensures var l := LineageOf(s, step, lts).value;
      var ran := RunContainer(SetupRootfs(s.disk, step.name, step.def.from, step.pick).value, step.name, step.own);
      && StoreOk(ran) && Beside(s.disk, ran, step.name) && Prepared(ran, l, lts) && WellFormed(l, lts)
  {
    if step.def.from.Image? {
      UnpackedOk(Delete(s.disk, step.name), step.def.from.source.layers);
    }
  }

  // ----- initializing the images -----

  ghost predicate Holds(d: Disk, name: Name, lt: LayerType, stack: seq<Diff>) {
    Ref(name, lt) in d.images && Stored(d, d.images[Ref(name, lt)], lt) && Diffs(d.images[Ref(name, lt)]) == stack
  }

  lemma StoredMore(d: Disk, ys: Manifest, lt: LayerType, y: Digest)
    requires StoreOk(d) && Stored(d, ys, lt) && y.layerType == lt
    ensures var d' := AddToStore(d, y, y.diff);
      StoreOk(d') && Extends(d, d') && d' == d.(store := d'.store) && Stored(d', ys + [y], lt)
  {
  }

  lemma ConvertedOne(d: Disk, name: Name, xs: Manifest, lt: LayerType, enc: Encoder, n: nat)
    requires n < |xs| && ConvertLayers(d, name, xs, lt, enc, n).Ok?
    requires var (d0, ys0) := ConvertLayers(d, name, xs, lt, enc, n).value; StoreOk(d0) && xs[n] in d0.store
    ensures var (d0, ys0) := ConvertLayers(d, name, xs, lt, enc, n).value;
      var y := Digest(lt, xs[n].diff, enc(name, lt, n));
      ConvertLayers(d, name, xs, lt, enc, n + 1) == Ok((AddToStore(d0, y, y.diff), ys0 + [y]))
  {
  }

  lemma ConvertedMore(d: Disk, d0: Disk, xs: Manifest, ys: Manifest, y: Digest, n: nat)
    requires 0 < n <= |xs| && Diffs(ys) == Diffs(xs)[..n - 1] && y.diff == xs[n - 1].diff
    requires Extends(d, d0) && Extends(d0, AddToStore(d0, y, y.diff))
    ensures Diffs(ys + [y]) == Diffs(xs)[..n] && Extends(d, AddToStore(d0, y, y.diff))
  {
    DiffsAppend(ys, y);
    assert Diffs(xs)[..n] == Diffs(xs)[..n - 1] + [y.diff];
  }

  lemma {:induction false} ConvertedOk(d: Disk, name: Name, xs: Manifest, lt: LayerType, enc: Encoder, n: nat)
    requires StoreOk(d) && n <= |xs| && forall x <- xs :: x in d.store
    ensures ConvertLayers(d, name, xs, lt, enc, n).Ok?
    ensures var (d', ys) := ConvertLayers(d, name, xs, lt, enc, n).value;
      && StoreOk(d') && Extends(d, d') && d' == d.(store := d'.store)
      && Stored(d', ys, lt) && Diffs(ys) == Diffs(xs)[..n]
  {
    if n > 0 {
      ConvertedOk(d, name, xs, lt, enc, n - 1);
      var (d0, ys0) := ConvertLayers(d, name, xs, lt, enc, n - 1).value;
      assert xs[n - 1] in xs;
      ConvertedOne(d, name, xs, lt, enc, n - 1);
      var y := Digest(lt, xs[n - 1].diff, enc(name, lt, n - 1));
      StoredMore(d0, ys0, lt, y);
      ConvertedMore(d, d0, xs, ys0, y, n);
    } else {
      assert Diffs([]) == [];
    }
  }

  /** What the images start from: nothing, the source image's changes, or an output base's. */
  ghost predicate StartsWith(d: Disk, start: Start, name: Name, lts: seq<LayerType>, stack: seq<Diff>) {
    match start
    case Fresh => stack == []
    case Convert(source) => Stored(d, source.layers, source.layerType) && stack == Diffs(source.layers)
    case CopyOf(tag) => tag != name && forall lt <- lts :: Holds(d, tag, lt, stack)
  }

  lemma {:induction false} BasesOk(
      d: Disk, name: Name, start: Start, lts: seq<LayerType>, enc: Encoder, stack: seq<Diff>)
    requires StoreOk(d) && StartsWith(d, start, name, lts, stack)
    ensures InitializeBases(d, name, start, lts, enc).Ok?
    ensures var d' := InitializeBases(d, name, start, lts, enc).value;
      && StoreOk(d') && Extends(d, d') && d'.meta == d.meta && d'.upper == d.upper
      && Beside(d, d', name)
      && forall lt <- lts :: Holds(d', name, lt, stack)
  {
    if lts != [] {
      var lt := lts[|lts| - 1];
      BasesOk(d, name, start, lts[..|lts| - 1], enc, stack);
      var d0 := InitializeBases(d, name, start, lts[..|lts| - 1], enc).value;
      if start.Convert? && start.source.layerType != lt {
        ConvertedOk(d0, name, start.source.layers, lt, enc, |start.source.layers|);
        assert Diffs(start.source.layers)[..|start.source.layers|] == Diffs(start.source.layers);
      }
      if start.CopyOf? {
        assert Holds(d, start.tag, lt, stack);
      }
      if start.Fresh? {
        assert Diffs([]) == [];
      }
      var d' := InitializeBases(d, name, start, lts, enc).value;
      forall t <- lts ensures Holds(d', name, t, stack) {
        assert t == lt || t in lts[..|lts| - 1];
      }
    }
  }

  lemma StackChosen(d: Disk, built: map<Name, Lineage>, b: Lineage, name: Name, lts: seq<LayerType>)
      returns (stack: seq<Diff>)
    requires BuiltOk(d, built, lts) && Known(built, b, lts) && name !in Names(b) && |lts| > 0
    ensures StartsWith(d, if b.buildOnly then StartOf(b) else CopyOf(b.name), name, lts, stack)
    ensures StartMatch(b, stack)
  {
    BaseKnown(d, built, b, lts);
    if !b.buildOnly {
      NameInNames(b);
      stack := Diffs(d.images[Ref(b.name, lts[0])]);
      forall lt <- lts ensures Holds(d, b.name, lt, stack) {
        var i :| 0 <= i < |lts| && lts[i] == lt;
        var muts := Images(d, b.name, lts);
        assert Stored(d, muts[i], lts[i]) && Diffs(muts[i]) == Diffs(muts[0]);
      }
    } else if b.Child? {
      stack := StackChosen(d, built, b.base, name, lts);
    } else {
      stack := SourceDiffs(b.source);
    }
  }

  lemma HeldImages(d: Disk, name: Name, lts: seq<LayerType>, stack: seq<Diff>)
    requires forall lt <- lts :: Holds(d, name, lt, stack)
    ensures HasImages(d, name, lts) && MutsOk(d, Images(d, name, lts), lts)
    ensures forall i :: 0 <= i < |lts| ==> Diffs(Images(d, name, lts)[i]) == stack
  {
    forall i | 0 <= i < |lts| ensures Holds(d, name, lts[i], stack) {}
  }

  // ----- repacking -----

  ghost predicate ReadyToRepack(d: Disk, built: map<Name, Lineage>, l: Lineage, lts: seq<LayerType>) {
    && StoreOk(d) && BuiltOk(d, built, lts) && Prepared(d, l, lts) && WellFormed(l, lts)
    && |lts| > 0 && Distinct(lts)
    && (forall k <- built :: l.name !in Names(built[k]))
    && (l.Child? ==> Known(built, l.base, lts))
    && HasImages(d, l.name, lts) && MutsOk(d, Images(d, l.name, lts), lts)
    && var stack := Diffs(Images(d, l.name, lts)[0]);
       if l.Root? then stack == SourceDiffs(l.source) else StartMatch(l.base, stack)
  }

  ghost predicate BaseMatch(l: Lineage, stack: seq<Diff>) {
    if l.Root? then stack == SourceDiffs(l.source) else Match(l.base, stack)
  }

  lemma RenderListed(d: Disk, built: map<Name, Lineage>, l: Lineage, lts: seq<LayerType>, enc: Encoder)
    requires ReadyToRepack(d, built, l, lts)
    ensures var r := RenderAll(d, d.meta[l.name].builtLayers, lts, Images(d, l.name, lts), enc);
      && Rendered(d, r, built, Names(l) - {l.name}, lts)
      && Prepared(r.value.disk, l, lts)
      && BaseMatch(l, Diffs(r.value.mutators[0]))
      && r.value.disk.meta[l.name] == d.meta[l.name]
      && AllDrained(r.value.disk, d.meta[l.name].builtLayers)
  {
    if l.Child? {
      BaseKnown(d, built, l.base, lts);
      RenderChain(d, built, l.base, lts, Images(d, l.name, lts), enc);
      var g := RenderAll(d, Listed(d, l.base.name), lts, Images(d, l.name, lts), enc).value;
      assert Names(l) - {l.name} == Names(l.base);
      MetaKept(d, g.disk, d.meta[l.name], lts);
    }
  }

  lemma OwnMatch(d: Disk, l: Lineage, lts: seq<LayerType>, below: seq<Diff>)
    requires Prepared(d, l, lts) && |lts| > 0
    requires BaseMatch(l, below)
    ensures lts[0] in lts && Match(l, below + Contribution(d, l.name, lts))
  {
    MatchStep(l, below, Contribution(d, l.name, lts));
  }

  lemma CommittedImages(d: Disk, l: Lineage, lts: seq<LayerType>, muts: Mutators)
    requires MutsOk(d, muts, lts) && |lts| > 0 && Match(l, Diffs(muts[0]))
    requires forall i :: 0 <= i < |lts| ==> Ref(l.name, lts[i]) in d.images && d.images[Ref(l.name, lts[i])] == muts[i]
    ensures ImagesOk(d, l, lts)
  {
    assert HasImages(d, l.name, lts);
    assert Images(d, l.name, lts) == muts;
    forall lt <- lts ensures Match(l, Diffs(d.images[Ref(l.name, lt)])) {
      var i :| 0 <= i < |lts| && lts[i] == lt;
      assert Diffs(muts[i]) == Diffs(muts[0]);
    }
  }

  // The disk once a layer's images are committed.
  function Committed(d: Disk, name: Name, lts: seq<LayerType>, muts: Mutators): Disk
    requires |muts| == |lts|
  {
    var committed := Commit(d, name, lts, muts);
    committed.(meta := committed.meta[name := Recorded(EMPTY_METADATA, lts, muts)])
  }

  lemma CommittedMeta(d: Disk, name: Name, lts: seq<LayerType>, muts: Mutators)
    requires Distinct(lts) && MutsOk(d, muts, lts)
    ensures var d' := Committed(d, name, lts, muts);
      && d'.upper == d.upper && d'.store == d.store && d'.meta == d.meta[name := d'.meta[name]]
      && d'.meta[name].builtLayers == [] && !d'.meta[name].hasBuiltOCIOutput && MetaOk(d', d'.meta[name], lts)
      && (forall i :: 0 <= i < |lts| ==> Ref(name, lts[i]) in d'.images && d'.images[Ref(name, lts[i])] == muts[i])
      && (forall ref <- d.images :: ref.name != name ==> ref in d'.images && d'.images[ref] == d.images[ref])
  {
    CommitAt(d, name, lts, muts);
    RecordedAt(EMPTY_METADATA, lts, muts);
    RecordedOk(d, EMPTY_METADATA, lts, muts);
    var m := Recorded(EMPTY_METADATA, lts, muts);
    assert m.(hasBuiltOCIOutput := false) == m;
    MetaKept(d, Committed(d, name, lts, muts), m, lts);
  }

  lemma CommittedOk(d: Disk, l: Lineage, lts: seq<LayerType>, muts: Mutators)
    requires !l.buildOnly && Distinct(lts) && |lts| > 0 && MutsOk(d, muts, lts) && StoreOk(d)
    requires Match(l, Diffs(muts[0]))
    requires l.name in d.upper && d.upper[l.name] == map[] && l.name in d.meta
    requires l.Root? && l.source.Some? ==> Stored(d, l.source.value.layers, l.source.value.layerType)
    ensures var d' := Committed(d, l.name, lts, muts);
      LayerOk(d', l, lts) && Beside(d, d', l.name) && StoreOk(d')
  {
    CommittedMeta(d, l.name, lts, muts);
    var d' := Committed(d, l.name, lts, muts);
    MutsKept(d, d', muts, lts);
    CommittedImages(d', l, lts, muts);
  }

  /** The last part of a repack: the layer's own change, then the commit. */
  function Finish(g: Generated, name: Name, lts: seq<LayerType>, enc: Encoder): Result<Disk>
    requires |lts| == |g.mutators| > 0
  {
    var own :- GenerateLayer(g.disk, name, lts, g.mutators, enc);
    if !own.mutated && !g.mutated then Ok(own.disk) else Ok(Committed(own.disk, name, lts, own.mutators))
  }

  lemma RepackIsFinish(d: Disk, name: Name, lts: seq<LayerType>, enc: Encoder)
    requires |lts| > 0 && name in d.meta && HasImages(d, name, lts)
    requires var r := RenderAll(d, d.meta[name].builtLayers, lts, Images(d, name, lts), enc);
      r.Ok? && name in r.value.disk.meta && r.value.disk.meta[name] == d.meta[name]
    ensures RepackOverlay(d, name, lts, enc) ==
      Finish(RenderAll(d, d.meta[name].builtLayers, lts, Images(d, name, lts), enc).value, name, lts, enc)
  {
    var g := RenderAll(d, d.meta[name].builtLayers, lts, Images(d, name, lts), enc).value;
    assert g.disk.meta[name := d.meta[name]] == g.disk.meta;
    assert g.disk.(meta := g.disk.meta[name := d.meta[name]]) == g.disk;
  }

  lemma OwnGenerated(g: Generated, l: Lineage, lts: seq<LayerType>, enc: Encoder)
    requires StoreOk(g.disk) && |lts| > 0
    requires MutsOk(g.disk, g.mutators, lts) && Prepared(g.disk, l, lts)
    requires BaseMatch(l, Diffs(g.mutators[0]))
    ensures var own := GenerateLayer(g.disk, l.name, lts, g.mutators, enc);
      && own.Ok? && StoreOk(own.value.disk) && Beside(g.disk, own.value.disk, l.name)
      && MutsOk(own.value.disk, own.value.mutators, lts) && Match(l, Diffs(own.value.mutators[0]))
      && l.name in own.value.disk.upper && own.value.disk.upper[l.name] == map[]
      && l.name in own.value.disk.meta
      && (!own.value.mutated ==> Quiet(g.disk, l.name) && own.value == Generated(g.disk, g.mutators, false))
  {
    GenerateOne(g.disk, l.name, lts, g.mutators, enc);
    OwnMatch(g.disk, l, lts, Diffs(g.mutators[0]));
  }

  lemma FinishIs(g: Generated, own: Generated, name: Name, lts: seq<LayerType>, enc: Encoder)
    requires |lts| == |g.mutators| == |own.mutators| > 0 && GenerateLayer(g.disk, name, lts, g.mutators, enc) == Ok(own)
    requires own.mutated || g.mutated
    ensures Finish(g, name, lts, enc) == Ok(Committed(own.disk, name, lts, own.mutators))
  {
  }

  lemma FinishOk(g: Generated, l: Lineage, lts: seq<LayerType>, enc: Encoder)
    requires StoreOk(g.disk) && !l.buildOnly && Distinct(lts) && |lts| > 0
    requires MutsOk(g.disk, g.mutators, lts) && Prepared(g.disk, l, lts)
    requires BaseMatch(l, Diffs(g.mutators[0]))
    requires GenerateLayer(g.disk, l.name, lts, g.mutators, enc).Ok? ==>
      GenerateLayer(g.disk, l.name, lts, g.mutators, enc).value.mutated || g.mutated
    ensures var r := Finish(g, l.name, lts, enc);
      r.Ok? && LayerOk(r.value, l, lts) && Beside(g.disk, r.value, l.name) && StoreOk(r.value)
  {
    OwnGenerated(g, l, lts, enc);
    var own := GenerateLayer(g.disk, l.name, lts, g.mutators, enc).value;
    if l.Root? && l.source.Some? {
      StoredKept(g.disk, own.disk, l.source.value.layers, l.source.value.layerType);
    }
    FinishIs(g, own, l.name, lts, enc);
    CommittedOk(own.disk, l, lts, own.mutators);
    BesideTwice(g.disk, own.disk, Finish(g, l.name, lts, enc).value, l.name);
  }

  lemma BesideTwice(d: Disk, d': Disk, d'': Disk, name: Name)
    requires Beside(d, d', name) && Beside(d', d'', name)
    ensures Beside(d, d'', name)
  {
  }

  lemma PreparedList(d: Disk, l: Lineage, lts: seq<LayerType>)
    requires Prepared(d, l, lts) && (l.Child? ==> LayerOk(d, l.base, lts))
    ensures l.Child? ==> forall x <- d.meta[l.name].builtLayers :: x in Names(l.base)
  {
    if l.Child? {
      NameInNames(l.base);
    }
  }

  lemma RepackUntouched(d: Disk, built: map<Name, Lineage>, l: Lineage, lts: seq<LayerType>, enc: Encoder)
    requires ReadyToRepack(d, built, l, lts) && !l.buildOnly
    requires var g := RenderAll(d, d.meta[l.name].builtLayers, lts, Images(d, l.name, lts), enc);
      g.Ok? && !g.value.mutated && BaseMatch(l, Diffs(g.value.mutators[0]))
    requires Quiet(d, l.name)
    ensures LayerOk(d, l, lts) && RepackOverlay(d, l.name, lts, enc) == Ok(d)
  {
    var muts := Images(d, l.name, lts);
    RenderUnmutated(d, d.meta[l.name].builtLayers, lts, muts, enc);
    RepackIsFinish(d, l.name, lts, enc);
    if l.Child? {
      BaseKnown(d, built, l.base, lts);
    }
    PreparedList(d, l, lts);
    OwnMatch(d, l, lts, Diffs(muts[0]));
    assert Diffs(muts[0]) + [] == Diffs(muts[0]);
    UntouchedOk(d, l, lts);
  }

  lemma ForgetNothing(built: map<Name, Lineage>, name: Name)
    requires forall k <- built :: name !in Names(built[k])
    ensures Forget(built, name) == built
  {
  }

  lemma RepackMutated(g: Generated, built: map<Name, Lineage>, l: Lineage, lts: seq<LayerType>, enc: Encoder)
    requires StoreOk(g.disk) && BuiltOk(g.disk, built, lts) && MutsOk(g.disk, g.mutators, lts)
    requires !l.buildOnly && Distinct(lts) && |lts| > 0
    requires Prepared(g.disk, l, lts) && BaseMatch(l, Diffs(g.mutators[0]))
    requires forall k <- built :: l.name !in Names(built[k])
    requires GenerateLayer(g.disk, l.name, lts, g.mutators, enc).Ok? ==>
      GenerateLayer(g.disk, l.name, lts, g.mutators, enc).value.mutated || g.mutated
    ensures var r := Finish(g, l.name, lts, enc);
      r.Ok? && StoreOk(r.value) && BuiltOk(r.value, built, lts) && LayerOk(r.value, l, lts)
  {
    FinishOk(g, l, lts, enc);
    ForgetNothing(built, l.name);
    BuiltBeside(g.disk, Finish(g, l.name, lts, enc).value, built, l.name, lts);
  }

  /** Repacking an output layer leaves every layer, itself included, as the invariant demands. */
  lemma RepackOk(d: Disk, built: map<Name, Lineage>, l: Lineage, lts: seq<LayerType>, enc: Encoder)
    requires ReadyToRepack(d, built, l, lts) && !l.buildOnly
    ensures var r := RepackOverlay(d, l.name, lts, enc);
      r.Ok? && StoreOk(r.value) && BuiltOk(r.value, built, lts) && LayerOk(r.value, l, lts)
  {
    RenderListed(d, built, l, lts, enc);
    var g := RenderAll(d, d.meta[l.name].builtLayers, lts, Images(d, l.name, lts), enc).value;
    var own := GenerateLayer(g.disk, l.name, lts, g.mutators, enc);
    if own.Ok? && !own.value.mutated && !g.mutated {
      OwnGenerated(g, l, lts, enc);
      RenderUnmutated(d, d.meta[l.name].builtLayers, lts, Images(d, l.name, lts), enc);
      RepackUntouched(d, built, l, lts, enc);
    } else {
      RepackIsFinish(d, l.name, lts, enc);
      RepackMutated(g, built, l, lts, enc);
    }
  }

  lemma UntouchedOk(d: Disk, l: Lineage, lts: seq<LayerType>)
    requires !l.buildOnly && Prepared(d, l, lts) && WellFormed(l, lts) && |lts| > 0
    requires Quiet(d, l.name) && forall x <- d.meta[l.name].builtLayers :: Quiet(d, x)
    requires l.Child? ==> forall x <- d.meta[l.name].builtLayers :: x in Names(l.base)
    requires HasImages(d, l.name, lts) && MutsOk(d, Images(d, l.name, lts), lts)
    requires Match(l, Diffs(Images(d, l.name, lts)[0]))
    ensures LayerOk(d, l, lts)
  {
    var muts := Images(d, l.name, lts);
    forall lt <- lts ensures Match(l, Diffs(d.images[Ref(l.name, lt)])) {
      var i :| 0 <= i < |lts| && lts[i] == lt;
      assert Diffs(muts[i]) == Diffs(muts[0]);
    }
  }
}

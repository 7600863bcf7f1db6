/** What every run of the overlay backend keeps. */
module OverlayTheorems {
  import opened Collections
  import opened Wrappers
  import opened OverlayDisk
  import opened OverlayRuns
  import opened OverlayProofs
  import opened OverlaySteps

  lemma RanOk(s: Sys, step: Step, lts: seq<LayerType>)
    requires Inv(s, lts) && LineageOf(s, step, lts).Ok?
    requires SetupRootfs(s.disk, step.name, step.def.from, step.pick).Ok?
    ensures var l := LineageOf(s, step, lts).value;
      var ran := RunContainer(SetupRootfs(s.disk, step.name, step.def.from, step.pick).value, step.name, step.own);
      var kept := Forget(s.built, step.name);
      && StoreOk(ran) && BuiltOk(ran, kept, lts) && Prepared(ran, l, lts) && WellFormed(l, lts)
      && Beside(s.disk, ran, step.name)
      && (l.Child? ==> Known(kept, l.base, lts))
  {
    var l := LineageOf(s, step, lts).value;
    var ran := RunContainer(SetupRootfs(s.disk, step.name, step.def.from, step.pick).value, step.name, step.own);
    if step.def.from.Built? {
      assert Good(s.disk, s.built, step.def.from.tag, lts);
      SnapshotPrepared(s.disk, s.built, l, step.pick, lts);
      ForgetKnown(s.built, step.name, l.base, lts);
    } else {
      RootPrepared(s, step, lts);
    }
    BuiltBeside(s.disk, ran, s.built, step.name, lts);
  }

  lemma BasesReady(d: Disk, built: map<Name, Lineage>, l: Lineage, lts: seq<LayerType>, enc: Encoder)
    requires StoreOk(d) && BuiltOk(d, built, lts) && Prepared(d, l, lts) && WellFormed(l, lts)
    requires |lts| > 0 && Distinct(lts)
    requires forall k <- built :: l.name !in Names(built[k])
    requires l.Child? ==> Known(built, l.base, lts)
    ensures InitializeBases(d, l.name, StartOf(l), lts, enc).Ok?
    ensures var d' := InitializeBases(d, l.name, StartOf(l), lts, enc).value;
      ReadyToRepack(d', built, l, lts) && Beside(d, d', l.name) && d'.meta == d.meta && d'.upper == d.upper
  {
    var stack := SourceDiffs(if l.Root? then l.source else None);
    if l.Child? {
      stack := StackChosen(d, built, l.base, l.name, lts);
    }
    BasesOk(d, l.name, StartOf(l), lts, enc, stack);
    var d' := InitializeBases(d, l.name, StartOf(l), lts, enc).value;
    HeldImages(d', l.name, lts, stack);
    BuiltBeside(d, d', built, l.name, lts);
    ForgetNothing(built, l.name);
    MetaKept(d, d', d.meta[l.name], lts);
  }

  lemma PreparedBuildOnly(d: Disk, l: Lineage, lts: seq<LayerType>)
    requires Prepared(d, l, lts) && l.buildOnly && (l.Child? ==> LayerOk(d, l.base, lts))
    ensures LayerOk(d, l, lts)
  {
    PreparedList(d, l, lts);
  }

  lemma BuiltWith(d: Disk, built: map<Name, Lineage>, l: Lineage, lts: seq<LayerType>)
    requires BuiltOk(d, built, lts) && LayerOk(d, l, lts) && WellFormed(l, lts)
    requires forall k <- built :: l.name !in Names(built[k])
    requires l.Child? ==> Known(built, l.base, lts)
    ensures BuiltOk(d, built[l.name := l], lts)
  {
    var built' := built[l.name := l];
    forall n | n in built' ensures Good(d, built', n, lts) {
      if n != l.name {
        assert Good(d, built, n, lts);
        if built[n].Child? {
          NameInNames(built[n].base);
        }
      }
    }
  }

  lemma BuiltOnlyOk(d: Disk, built: map<Name, Lineage>, l: Lineage, lts: seq<LayerType>)
    requires BuiltOk(d, built, lts) && Prepared(d, l, lts) && WellFormed(l, lts) && l.buildOnly
    requires forall k <- built :: l.name !in Names(built[k])
    requires l.Child? ==> Known(built, l.base, lts)
    ensures BuiltOk(d, built[l.name := l], lts)
  {
    if l.Child? {
      BaseKnown(d, built, l.base, lts);
    }
    PreparedBuildOnly(d, l, lts);
    BuiltWith(d, built, l, lts);
  }

  lemma OutputOk(d: Disk, built: map<Name, Lineage>, l: Lineage, lts: seq<LayerType>, enc: Encoder)
    requires StoreOk(d) && BuiltOk(d, built, lts) && Prepared(d, l, lts) && WellFormed(l, lts) && !l.buildOnly
    requires |lts| > 0 && Distinct(lts)
    requires forall k <- built :: l.name !in Names(built[k])
    requires l.Child? ==> Known(built, l.base, lts)
    ensures var r := Repack(d, l.name, StartOf(l), lts, enc);
      r.Ok? && StoreOk(r.value) && BuiltOk(r.value, built[l.name := l], lts)
  {
    BasesReady(d, built, l, lts, enc);
    var d' := InitializeBases(d, l.name, StartOf(l), lts, enc).value;
    RepackOk(d', built, l, lts, enc);
    BuiltWith(RepackOverlay(d', l.name, lts, enc).value, built, l, lts);
  }

  /** Every step of a run keeps the invariant, and once the root filesystem is set up nothing that
      repacking reads is missing. */
  lemma StepKeepsInv(s: Sys, step: Step, lts: seq<LayerType>)
    requires Inv(s, lts) && |lts| > 0 && Distinct(lts)
    requires LineageOf(s, step, lts).Ok? && SetupRootfs(s.disk, step.name, step.def.from, step.pick).Ok?
    ensures Next(s, step, lts).Ok? && Inv(Next(s, step, lts).value, lts)
  {
    var l := LineageOf(s, step, lts).value;
    var ran := RunContainer(SetupRootfs(s.disk, step.name, step.def.from, step.pick).value, step.name, step.own);
    RanOk(s, step, lts);
    if l.buildOnly {
      BuiltOnlyOk(ran, Forget(s.built, step.name), l, lts);
    } else {
      OutputOk(ran, Forget(s.built, step.name), l, lts, step.enc);
    }
  }

  // ----- when setting up succeeds -----

  /** The directory of this blob is populated, or the blob is among the base images. */
  predicate Available(d: Disk, x: Digest) {
    (x in d.store && d.store[x] != map[]) || x in d.bases
  }

  lemma {:induction false} UnpackSucceedsIff(d: Disk, xs: Manifest)
    ensures UnpackLayers(d, xs).Ok? <==> forall x <- xs :: Available(d, x)
    ensures UnpackLayers(d, xs).Ok? ==> forall y :: Available(UnpackLayers(d, xs).value, y) <==> Available(d, y)
  {
    if xs != [] {
      var before, x := xs[..|xs| - 1], xs[|xs| - 1];
      UnpackSucceedsIff(d, before);
      assert xs == before + [x];
      assert (forall y <- xs :: Available(d, y)) <==> (forall y <- before :: Available(d, y)) && Available(d, x) by {
        assert x in xs && forall y <- before :: y in xs;
      }
    }
  }

  /** What is wanted of the disk before a root filesystem can be set up. */
  predicate CanSetUp(d: Disk, name: Name, from: From, pick: LayerType) {
    match from
    case Built(tag) => tag != name && tag in d.meta && forall x <- Picked(d.meta[tag], pick) :: Available(d, x)
    case Image(source) => forall x <- source.layers :: Available(d, x)
    case _ => true
  }

  lemma SetupSucceedsIff(d: Disk, name: Name, from: From, pick: LayerType)
    ensures SetupRootfs(d, name, from, pick).Ok? <==> CanSetUp(d, name, from, pick)
  {
    var deleted := Delete(d, name);
    match from {
      case Built(tag) =>
        if tag in deleted.meta {
          var created := deleted.(upper := deleted.upper[name := map[]]);
          UnpackSucceedsIff(created, Picked(d.meta[tag], pick));
          assert forall x :: Available(created, x) <==> Available(d, x);
        }
      case Image(source) =>
        UnpackSucceedsIff(deleted, source.layers);
        assert forall x :: Available(deleted, x) <==> Available(d, x);
      case _ =>
    }
  }

  /** No blob of the picked manifest is an empty layer that is not a base image's own.  The empty layer
      of a base image has such a blob once it is re-encoded. */
  predicate NoStrayEmptyLayer(d: Disk, tag: Name, pick: LayerType)
    requires tag in d.meta
  {
    forall x <- Picked(d.meta[tag], pick) :: x.diff == map[] ==> x in d.bases
  }

  /** In every reachable state a layer on a base that was built can be set up, and then its step
      succeeds, if and only if the base's picked manifest has no stray empty layer; for any other layer
      the blobs of its image must be there. */
  lemma StepSucceedsIff(s: Sys, step: Step, lts: seq<LayerType>)
    requires Inv(s, lts) && |lts| > 0 && Distinct(lts) && LineageOf(s, step, lts).Ok?
    ensures Next(s, step, lts).Ok? <==>
      if step.def.from.Built? then NoStrayEmptyLayer(s.disk, step.def.from.tag, step.pick)
      else CanSetUp(s.disk, step.name, step.def.from, step.pick)
  {
    SetupSucceedsIff(s.disk, step.name, step.def.from, step.pick);
    if SetupRootfs(s.disk, step.name, step.def.from, step.pick).Ok? {
      StepKeepsInv(s, step, lts);
    }
    if step.def.from.Built? {
      var tag := step.def.from.tag;
      assert Good(s.disk, s.built, tag, lts);
      NameInNames(s.built[tag]);
      BlobsAreThere(s.disk, tag, step.pick, lts);
    }
  }

  lemma BlobsAreThere(d: Disk, tag: Name, pick: LayerType, lts: seq<LayerType>)
    requires StoreOk(d) && tag in d.meta && MetaOk(d, d.meta[tag], lts)
    ensures (forall x <- Picked(d.meta[tag], pick) :: Available(d, x)) <==> NoStrayEmptyLayer(d, tag, pick)
  {
    forall x | x in Picked(d.meta[tag], pick) ensures Available(d, x) <==> (x.diff == map[] ==> x in d.bases) {
      assert Stored(d, d.meta[tag].manifests[pick], pick);
    }
  }

  lemma {:induction false} RunKeepsInv(s: Sys, steps: seq<Step>, lts: seq<LayerType>)
    requires Inv(s, lts) && |lts| > 0 && Distinct(lts) && Run(s, steps, lts).Ok?
    ensures Inv(Run(s, steps, lts).value, lts)
  {
    if steps != [] {
      RunKeepsInv(s, steps[..|steps| - 1], lts);
      StepKeepsInv(Run(s, steps[..|steps| - 1], lts).value, steps[|steps| - 1], lts);
    }
  }

  /** The main theorem.  In every state a run can reach, every output layer has an image in every
      format, it resolves through the store, and it is exactly the stack expected of the layer's
      lineage if and only if no layer of that lineage is stale: none lost, repeated or reordered,
      however often build-only bases were shared and drained in between. */
  lemma ImagesAreExact(bases: set<Digest>, steps: seq<Step>, lts: seq<LayerType>, n: Name, lt: LayerType)
    requires |lts| > 0 && Distinct(lts) && Run(Initial(bases), steps, lts).Ok?
    requires var s := Run(Initial(bases), steps, lts).value; n in s.built && !s.built[n].buildOnly && lt in lts
    ensures var s := Run(Initial(bases), steps, lts).value;
      && Ref(n, lt) in s.disk.images
      && var image := s.disk.images[Ref(n, lt)];
         && (forall x <- image :: x in s.disk.store && x.layerType == lt)
         && (Resolve(s.disk, image) == Expected(s.built[n]) <==> Clean(s.built[n]))
  {
    RunKeepsInv(Initial(bases), steps, lts);
    var s := Run(Initial(bases), steps, lts).value;
    assert Good(s.disk, s.built, n, lts);
    ImageExact(s.disk, s.built[n], lts, lt);
  }

  lemma ImageExact(d: Disk, l: Lineage, lts: seq<LayerType>, lt: LayerType)
    requires StoreOk(d) && ImagesOk(d, l, lts) && lt in lts
    ensures Ref(l.name, lt) in d.images
    ensures var image := d.images[Ref(l.name, lt)];
      && (forall x <- image :: x in d.store && x.layerType == lt)
      && (Resolve(d, image) == Expected(l) <==> Clean(l))
  {
    var i :| 0 <= i < |lts| && lts[i] == lt;
    var image := d.images[Ref(l.name, lt)];
    assert Stored(d, Images(d, l.name, lts)[i], lt);
    assert Resolve(d, image) == Diffs(image);
  }

  predicate AllChanged(l: Lineage) {
    l.own != map[] && (l.Child? ==> AllChanged(l.base))
  }

  /** Under the hypothesis that every layer leaves a non-empty upper directory, images are always exact. */
  lemma ChangedLayersAreExact(bases: set<Digest>, steps: seq<Step>, lts: seq<LayerType>, n: Name, lt: LayerType)
    requires |lts| > 0 && Distinct(lts) && Run(Initial(bases), steps, lts).Ok?
    requires var s := Run(Initial(bases), steps, lts).value; n in s.built && !s.built[n].buildOnly && lt in lts
    requires AllChanged(Run(Initial(bases), steps, lts).value.built[n])
    ensures var s := Run(Initial(bases), steps, lts).value;
      && Ref(n, lt) in s.disk.images
      && (forall x <- s.disk.images[Ref(n, lt)] :: x in s.disk.store)
      && Resolve(s.disk, s.disk.images[Ref(n, lt)]) == Expected(s.built[n])
  {
    ImagesAreExact(bases, steps, lts, n, lt);
    ChangedIsClean(Run(Initial(bases), steps, lts).value.built[n]);
  }

  lemma ChangedIsClean(l: Lineage)
    requires AllChanged(l)
    ensures Clean(l)
  {
  }
}

/** A run in which a layer on a built base cannot be set up.  A builds on a tar image with an empty layer
    and D is output on A, as squashfs and as tar.  A's metadata then records both encodings; in squashfs
    the empty layer is an empty directory under a digest of its own, and a snapshot of A that picks
    squashfs takes it for one still to be unpacked and looks for its blob among the base images. */
module OverlayEmptyLayer {
  import opened Collections
  import opened Wrappers
  import opened OverlayDisk
  import opened OverlayRuns
  import opened OverlayProofs
  import opened OverlaySteps
  import opened OverlayTheorems
  import opened OverlayMounts
  import opened OverlayGrowth
  import F = OverlayFindings

  const SQUASHFS := LayerType("squashfs", false)
  const TAR := F.TAR
  const BOTH := [SQUASHFS, TAR]

  // A tar image with one layer, which changes nothing.
  const EMPTY := Digest(TAR, map[], 0)
  const SOURCE := Source(TAR, [EMPTY])

  const STEP_A := Step("A", LayerDef(Image(SOURCE), true), F.A_CHANGE, TAR, F.Fixed())
  const STEP_D := Step("D", LayerDef(Built("A"), false), F.D_CHANGE, TAR, F.Fixed())

  function StepB(pick: LayerType): Step {
    Step("B", LayerDef(Built("A"), true), F.B_CHANGE, pick, F.Fixed())
  }

  const LINEAGE_A := Root("A", true, Some(SOURCE), F.A_CHANGE)
  const LINEAGE_D := Child(LINEAGE_A, "D", false, F.D_CHANGE, false)

  lemma Types()
    ensures Distinct(BOTH) && BOTH[0] == SQUASHFS && BOTH[1] == TAR && SQUASHFS != TAR
  {
    assert SQUASHFS.filesystem[0] == 's' && TAR.filesystem[0] == 't';
  }

  // ----- A -----

  ghost predicate HasA(s: Sys) {
    && Inv(s, BOTH) && s.disk.bases == {EMPTY} && "A" in s.built && s.built["A"] == LINEAGE_A && s.built.Keys == {"A"}
    && "A" in s.disk.meta && s.disk.meta["A"] == EMPTY_METADATA.(manifests := map[TAR := [EMPTY]])
    && "A" in s.disk.upper && s.disk.upper["A"] == F.A_CHANGE
  }

  lemma AfterA() returns (s: Sys)
    ensures Next(Initial({EMPTY}), STEP_A, BOTH) == Ok(s) && HasA(s)
  {
    var s0 := Initial({EMPTY});
    Types();
    assert BOTH[1] in BOTH && LineageOf(s0, STEP_A, BOTH) == Ok(LINEAGE_A);
    StepSucceedsIff(s0, STEP_A, BOTH);
    StepKeepsInv(s0, STEP_A, BOTH);
    s := Next(s0, STEP_A, BOTH).value;
    UnpackedOk(Delete(s0.disk, "A"), [EMPTY]);
  }

  // ----- D -----

  lemma LineageOfD(s: Sys)
    requires HasA(s)
    ensures LineageOf(s, STEP_D, BOTH) == Ok(LINEAGE_D)
  {
  }

  lemma AfterD(s: Sys) returns (s': Sys)
    requires HasA(s)
    ensures Next(s, STEP_D, BOTH) == Ok(s') && Inv(s', BOTH) && s'.disk.bases == {EMPTY}
    ensures "A" in s'.built && s'.built["A"] == LINEAGE_A
  {
    Types();
    LineageOfD(s);
    StepSucceedsIff(s, STEP_D, BOTH);
    StepKeepsInv(s, STEP_D, BOTH);
    s' := Next(s, STEP_D, BOTH).value;
    BuildApart(s.disk, STEP_D, StartOf(LINEAGE_D), BOTH);
  }

  /** Rendering one layer records the images as they were with its change on top. */
  lemma RenderedRecords(d: Disk, base: Name, lts: seq<LayerType>, muts: Mutators, enc: Encoder)
    requires StoreOk(d) && MutsOk(d, muts, lts) && |lts| > 0 && Distinct(lts)
    requires base in d.meta && base in d.upper && d.upper[base] != map[]
    ensures var g := RenderAll(d, [base], lts, muts, enc);
      && g.Ok? && base in g.value.disk.meta
      && forall i :: 0 <= i < |lts| ==>
           lts[i] in g.value.disk.meta[base].manifests &&
           g.value.disk.meta[base].manifests[lts[i]] == muts[i] + [NewDigest(base, d.upper[base], lts[i], muts[i], enc)]
  {
    GenerateNew(d, base, lts, muts, enc);
    var g := GenerateLayer(d, base, lts, muts, enc).value;
    RecordedAt(d.meta[base], lts, g.mutators);
    assert [base][..0] == [];
    RenderLast(d, [base], lts, muts, enc);
  }

  /** Committing the layer itself leaves what was recorded for the others. */
  lemma RepackRecords(d: Disk, name: Name, base: Name, lts: seq<LayerType>, enc: Encoder)
    requires |lts| > 0 && RepackOverlay(d, name, lts, enc).Ok? && base != name
    ensures name in d.meta && HasImages(d, name, lts)
    ensures var g := RenderAll(d, d.meta[name].builtLayers, lts, Images(d, name, lts), enc);
      g.Ok? && (base in g.value.disk.meta ==>
        base in RepackOverlay(d, name, lts, enc).value.meta &&
        RepackOverlay(d, name, lts, enc).value.meta[base] == g.value.disk.meta[base])
  {
    var g, own := OverlayParts(d, name, lts, enc);
    GenerateTouches(g.disk.(meta := g.disk.meta[name := d.meta[name]]), name, lts, g.mutators, enc);
  }

  // What D was run on, and its images before the repack.
  function RanD(s: Sys): Disk
    requires SetupRootfs(s.disk, "D", Built("A"), TAR).Ok?
  {
    RunContainer(SetupRootfs(s.disk, "D", Built("A"), TAR).value, "D", F.D_CHANGE)
  }

  lemma RanOnA(s: Sys)
    requires HasA(s) && SetupRootfs(s.disk, "D", Built("A"), TAR).Ok?
    ensures var d := RanD(s);
      && "D" in d.meta && d.meta["D"].builtLayers == ["A"] && "A" in d.meta && d.meta["A"] == s.disk.meta["A"]
      && "A" in d.upper && d.upper["A"] == F.A_CHANGE
  {
    SnapshotShape(s.disk, "A", "D", TAR);
    assert Listed(s.disk, "A") == ["A"];
  }

  lemma TarStartsWithSource(d: Disk, ready: Disk)
    requires InitializeBases(d, "D", Convert(SOURCE), BOTH, F.Fixed()) == Ok(ready)
    ensures Ref("D", TAR) in ready.images && ready.images[Ref("D", TAR)] == [EMPTY]
  {
    Types();
    assert BOTH[|BOTH| - 1] == TAR;
  }

  lemma StartOfD(s: Sys) returns (ready: Disk)
    requires HasA(s) && SetupRootfs(s.disk, "D", Built("A"), TAR).Ok?
    ensures InitializeBases(RanD(s), "D", Convert(SOURCE), BOTH, F.Fixed()) == Ok(ready)
    ensures StoreOk(ready) && ready.meta == RanD(s).meta && ready.upper == RanD(s).upper && HasImages(ready, "D", BOTH)
    ensures var muts := Images(ready, "D", BOTH); MutsOk(ready, muts, BOTH) && Diffs(muts[0]) == [map[]] && muts[1] == [EMPTY]
  {
    Types();
    LineageOfD(s);
    assert StartOf(LINEAGE_D) == Convert(SOURCE);
    RanOk(s, STEP_D, BOTH);
    BasesReady(RanD(s), Forget(s.built, "D"), LINEAGE_D, BOTH, F.Fixed());
    ready := InitializeBases(RanD(s), "D", Convert(SOURCE), BOTH, F.Fixed()).value;
    TarStartsWithSource(RanD(s), ready);
  }

  /** A's metadata records the image's empty layer: in tar as the image's own blob, in squashfs under a
      digest of its own. */
  ghost predicate RecordsEmpty(d: Disk) {
    && "A" in d.meta && SQUASHFS in d.meta["A"].manifests && TAR in d.meta["A"].manifests
    && |d.meta["A"].manifests[SQUASHFS]| == 2 && d.meta["A"].manifests[SQUASHFS][0].diff == map[]
    && |d.meta["A"].manifests[TAR]| == 2 && d.meta["A"].manifests[TAR][0] == EMPTY
    && d.meta["A"].manifests[TAR][1].diff == F.A_CHANGE
  }

  lemma FirstOfTwo(xs: Manifest, x: Digest)
    requires Diffs(xs) == [map[]]
    ensures |xs + [x]| == 2 && (xs + [x])[0].diff == map[]
  {
    assert |Diffs(xs)| == |xs| && Diffs(xs)[0] == xs[0].diff;
  }

  lemma RenderedEmpty(ready: Disk)
    requires StoreOk(ready) && HasImages(ready, "D", BOTH) && "A" in ready.meta && "A" in ready.upper
    requires ready.upper["A"] == F.A_CHANGE && MutsOk(ready, Images(ready, "D", BOTH), BOTH)
    requires var muts := Images(ready, "D", BOTH); Diffs(muts[0]) == [map[]] && muts[1] == [EMPTY]
    ensures var g := RenderAll(ready, ["A"], BOTH, Images(ready, "D", BOTH), F.Fixed()); g.Ok? && RecordsEmpty(g.value.disk)
  {
    Types();
    F.NotEmpty();
    var muts := Images(ready, "D", BOTH);
    RenderedRecords(ready, "A", BOTH, muts, F.Fixed());
    FirstOfTwo(muts[0], NewDigest("A", F.A_CHANGE, SQUASHFS, muts[0], F.Fixed()));
  }

  lemma BothRecorded(s: Sys, s': Sys)
    requires HasA(s) && Next(s, STEP_D, BOTH) == Ok(s')
    ensures RecordsEmpty(s'.disk)
  {
    LineageOfD(s);
    NextIs(s, STEP_D, LINEAGE_D, BOTH);
    RanOnA(s);
    var ready := StartOfD(s);
    RenderedEmpty(ready);
    RepackRecords(ready, "D", "A", BOTH, F.Fixed());
  }

  // ----- B -----

  lemma StrayOnlyInSquashfs(s: Sys)
    requires Inv(s, BOTH) && s.disk.bases == {EMPTY} && "A" in s.built && s.built["A"] == LINEAGE_A && RecordsEmpty(s.disk)
    ensures !NoStrayEmptyLayer(s.disk, "A", SQUASHFS) && NoStrayEmptyLayer(s.disk, "A", TAR)
  {
    Types();
    F.NotEmpty();
    assert Good(s.disk, s.built, "A", BOTH);
    var m := s.disk.meta["A"];
    assert Stored(s.disk, m.manifests[SQUASHFS], SQUASHFS);
    assert m.manifests[SQUASHFS][0] in m.manifests[SQUASHFS];
  }

  lemma BDependsOnPick(s: Sys)
    requires Inv(s, BOTH) && s.disk.bases == {EMPTY} && "A" in s.built && s.built["A"] == LINEAGE_A && RecordsEmpty(s.disk)
    ensures LineageOf(s, StepB(SQUASHFS), BOTH).Ok? && Next(s, StepB(SQUASHFS), BOTH).Err?
    ensures LineageOf(s, StepB(TAR), BOTH).Ok? && Next(s, StepB(TAR), BOTH).Ok?
  {
    Types();
    StrayOnlyInSquashfs(s);
    StepSucceedsIff(s, StepB(SQUASHFS), BOTH);
    StepSucceedsIff(s, StepB(TAR), BOTH);
  }

  /** After a run of two steps that succeed, whether B can be set up on A depends on which of A's manifests
      is picked, which the order of a Go map leaves open. */
  lemma EmptyLayerBlocksSnapshot() returns (s: Sys)
    ensures Run(Initial({EMPTY}), [STEP_A] + [STEP_D], BOTH) == Ok(s) && Inv(s, BOTH)
    ensures LineageOf(s, StepB(SQUASHFS), BOTH).Ok? && Next(s, StepB(SQUASHFS), BOTH).Err?
    ensures LineageOf(s, StepB(TAR), BOTH).Ok? && Next(s, StepB(TAR), BOTH).Ok?
  {
    var a := AfterA();
    s := AfterD(a);
    BothRecorded(a, s);
    BDependsOnPick(s);
    RunOfTwo(a, s);
  }

  lemma RunOfTwo(a: Sys, s: Sys)
    requires Next(Initial({EMPTY}), STEP_A, BOTH) == Ok(a) && Next(a, STEP_D, BOTH) == Ok(s)
    ensures Run(Initial({EMPTY}), [STEP_A] + [STEP_D], BOTH) == Ok(s)
  {
    var steps := [STEP_A] + [STEP_D];
    assert steps[..1] == [STEP_A] && [STEP_A][..0] == [];
    assert Run(Initial({EMPTY}), [STEP_A], BOTH) == Ok(a);
  }
}

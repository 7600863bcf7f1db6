/** Two concrete runs in which the overlay backend does not do what its design promises.  The
    theorems in OverlayTheorems and OverlayMounts say exactly when it does. */
module OverlayFindings {
  import opened Collections
  import opened Wrappers
  import opened OverlayDisk
  import opened OverlayRuns
  import opened OverlayMounts
  import opened OverlayTheorems
  import opened OverlaySteps

  const TAR := LayerType("tar", false)
  const LTS := [TAR]

  const A_CHANGE: Diff := map["f" := Data("a")]
  const B_CHANGE: Diff := map["f" := Data("b")]
  const D_CHANGE: Diff := map["f" := Data("d")]

  function Fixed(): Encoder {
    (name, lt, i) => 0
  }

  function Blob(diff: Diff): Digest {
    Digest(TAR, diff, 0)
  }

  // A is build-only; D is output on top of it.
  const STEP_A := Step("A", LayerDef(Scratch, true), A_CHANGE, TAR, Fixed())
  const STEP_D := Step("D", LayerDef(Built("A"), false), D_CHANGE, TAR, Fixed())

  const LINEAGE_A := Root("A", true, None, A_CHANGE)
  const LINEAGE_D := Child(LINEAGE_A, "D", false, D_CHANGE, false)

  // A's upper directory is in the store, and A's metadata says so.
  const DRAINED_A := Metadata(map[TAR := [Blob(A_CHANGE)]], [], true)

  const DISK_A := Disk(map["A" := EMPTY_METADATA], map["A" := A_CHANGE], map[], map[], {})
  const SYS_A := Sys(DISK_A, map["A" := LINEAGE_A])

  lemma AfterA()
    ensures Next(Initial({}), STEP_A, LTS) == Ok(SYS_A)
  {
    var s := Initial({});
    assert Delete(s.disk, "A") == s.disk;
    assert Forget(s.built, "A") == map[];
    var mounted := SetupRootfs(s.disk, "A", Scratch, TAR);
    assert mounted == Ok(DISK_A.(upper := map["A" := map[]]));
    assert RunContainer(mounted.value, "A", A_CHANGE) == DISK_A;
    assert LineageOf(s, STEP_A, LTS) == Ok(LINEAGE_A);
    assert BuildLayer(s.disk, STEP_A, StartOf(LINEAGE_A), LTS) == Ok(DISK_A);
    assert s.built["A" := LINEAGE_A] == SYS_A.built;
  }

  lemma BuildOnlyStep(s: Sys, step: Step, l: Lineage)
    requires LineageOf(s, step, LTS) == Ok(l) && step.def.buildOnly
    requires SetupRootfs(s.disk, step.name, step.def.from, step.pick).Ok?
    ensures var ran := RunContainer(SetupRootfs(s.disk, step.name, step.def.from, step.pick).value, step.name, step.own);
      Next(s, step, LTS) == Ok(Sys(ran, Forget(s.built, step.name)[step.name := l]))
  {
  }

  lemma OutputStep(s: Sys, step: Step, l: Lineage, ran: Disk)
    requires LineageOf(s, step, LTS) == Ok(l) && !step.def.buildOnly
    requires SetupRootfs(s.disk, step.name, step.def.from, step.pick).Ok?
    requires ran == RunContainer(SetupRootfs(s.disk, step.name, step.def.from, step.pick).value, step.name, step.own)
    ensures Next(s, step, LTS) ==
      var r := Repack(ran, step.name, StartOf(l), LTS, step.enc);
      if r.Ok? then Ok(Sys(r.value, Forget(s.built, step.name)[step.name := l])) else Err
  {
  }

  const META_D := Metadata(map[TAR := [Blob(A_CHANGE), Blob(D_CHANGE)]], [], false)
  const DISK_D := Disk(
    map["A" := DRAINED_A, "D" := META_D],
    map["A" := map[], "D" := map[]],
    map[Blob(A_CHANGE) := A_CHANGE, Blob(D_CHANGE) := D_CHANGE],
    map[Ref("D", TAR) := [Blob(A_CHANGE), Blob(D_CHANGE)]], {})
  const SYS_D := Sys(DISK_D, map["A" := LINEAGE_A, "D" := LINEAGE_D])

  lemma SnapshotOfA(d: Disk, name: Name, own: Diff)
    requires "A" in d.meta && d.meta["A"] == EMPTY_METADATA && name != "A"
    requires name !in d.meta && name !in d.upper
    ensures SetupRootfs(d, name, Built("A"), TAR).Ok?
    ensures RunContainer(SetupRootfs(d, name, Built("A"), TAR).value, name, own) ==
      d.(meta := d.meta[name := EMPTY_METADATA.(builtLayers := ["A"])], upper := d.upper[name := own])
  {
    assert Delete(d, name) == d;
    assert [] + ["A"] == ["A"];
    assert SetupRootfs(d, name, Built("A"), TAR).value ==
      d.(meta := d.meta[name := EMPTY_METADATA.(builtLayers := ["A"])], upper := d.upper[name := map[]]);
    assert d.upper[name := map[]][name := own] == d.upper[name := own];
  }

  // ----- single operations on one layer type -----

  lemma GenerateFresh(d: Disk, name: Name, mut: Manifest)
    requires name in d.upper && d.upper[name] != map[]
    ensures var x := Blob(d.upper[name]);
      GenerateLayer(d, name, LTS, [mut], Fixed()) ==
        Ok(Generated(AddToStore(d, x, d.upper[name]).(upper := d.upper[name := map[]]), [mut + [x]], true))
  {
    var muts' := AddNew(name, d.upper[name], LTS, [mut], Fixed());
    assert muts' == [mut + [Blob(d.upper[name])]];
    assert Lasts(muts') == [Blob(d.upper[name])];
    assert Lasts(muts')[1..] == [];
  }

  lemma GenerateAgain(d: Disk, name: Name, mut: Manifest, recorded: Manifest)
    requires name in d.upper && d.upper[name] == map[] && name in d.meta && d.meta[name].hasBuiltOCIOutput
    requires TAR in d.meta[name].manifests && d.meta[name].manifests[TAR] == recorded && |recorded| > 0
    ensures GenerateLayer(d, name, LTS, [mut], Fixed()) ==
      Ok(Generated(d, [mut + [recorded[|recorded| - 1]]], true))
  {
    assert AddExisting(d.meta[name], LTS, [mut]) == [mut + [recorded[|recorded| - 1]]];
  }

  function Note(d: Disk, name: Name, mut: Manifest): Disk
    requires name in d.meta
  {
    var m := d.meta[name];
    d.(meta := d.meta[name := Metadata(m.manifests[TAR := mut], m.builtLayers, true)])
  }

  lemma RecordedSingle(m: Metadata, mut: Manifest)
    ensures Recorded(m, LTS, [mut]) == m.(manifests := m.manifests[TAR := mut])
  {
    assert Recorded(m, LTS[..0], [mut][..0]) == m;
  }

  lemma RenderFresh(d: Disk, name: Name, mut: Manifest)
    requires name in d.upper && d.upper[name] != map[] && name in d.meta
    ensures var x := Blob(d.upper[name]);
      RenderBuilt(d, name, LTS, [mut], Fixed()) ==
        Ok(Generated(Note(AddToStore(d, x, d.upper[name]).(upper := d.upper[name := map[]]), name, mut + [x]), [mut + [x]], true))
  {
    GenerateFresh(d, name, mut);
    RecordedSingle(d.meta[name], mut + [Blob(d.upper[name])]);
  }

  lemma RenderAgain(d: Disk, name: Name, mut: Manifest, recorded: Manifest)
    requires name in d.upper && d.upper[name] == map[] && name in d.meta && d.meta[name].hasBuiltOCIOutput
    requires TAR in d.meta[name].manifests && d.meta[name].manifests[TAR] == recorded && |recorded| > 0
    ensures var more := mut + [recorded[|recorded| - 1]];
      RenderBuilt(d, name, LTS, [mut], Fixed()) == Ok(Generated(Note(d, name, more), [more], true))
  {
    GenerateAgain(d, name, mut, recorded);
    RecordedSingle(d.meta[name], mut + [recorded[|recorded| - 1]]);
  }

  lemma RenderNone(d: Disk, mut: Manifest)
    ensures RenderAll(d, [], LTS, [mut], Fixed()) == Ok(Generated(d, [mut], false))
  {
  }

  lemma RenderMore(d: Disk, names: seq<Name>, name: Name, mut: Manifest)
    requires RenderAll(d, names, LTS, [mut], Fixed()).Ok?
    requires var g := RenderAll(d, names, LTS, [mut], Fixed()).value;
      var r := RenderBuilt(g.disk, name, LTS, g.mutators, Fixed()); r.Ok? && r.value.mutated
    ensures var g := RenderAll(d, names, LTS, [mut], Fixed()).value;
      RenderAll(d, names + [name], LTS, [mut], Fixed()) == RenderBuilt(g.disk, name, LTS, g.mutators, Fixed())
  {
    assert (names + [name])[..|names + [name]| - 1] == names;
  }

  lemma CommitSingle(d: Disk, name: Name, mut: Manifest)
    ensures Commit(d, name, LTS, [mut]) == SetImage(d, name, TAR, mut)
  {
    assert Commit(d, name, LTS[..0], [mut][..0]) == d;
  }

  lemma FreshBase(d: Disk, name: Name)
    ensures InitializeBases(d, name, Fresh, LTS, Fixed()) == Ok(SetImage(d, name, TAR, []))
  {
    assert InitializeBases(d, name, Fresh, LTS[..0], Fixed()) == Ok(d);
  }

  /** A repack of `name` on `d` that emits `image`. */
  ghost predicate Emits(d: Disk, name: Name, image: Manifest) {
    var r := Repack(d, name, Fresh, LTS, Fixed());
    && r.Ok? && Ref(name, TAR) in r.value.images && r.value.images[Ref(name, TAR)] == image
  }

  lemma RepackEmits(d: Disk, name: Name, g: Generated, own: Generated)
    requires name in d.meta && name in g.disk.meta && g.disk.meta[name] == d.meta[name]
    requires RenderAll(SetImage(d, name, TAR, []), d.meta[name].builtLayers, LTS, [[]], Fixed()) == Ok(g)
    requires GenerateLayer(g.disk, name, LTS, g.mutators, Fixed()) == Ok(own)
    requires |g.mutators| == 1 && |own.mutators| == 1 && own.mutated
    ensures Repack(d, name, Fresh, LTS, Fixed()) == Ok(SetImage(own.disk, name, TAR, own.mutators[0]).(
      meta := own.disk.meta[name := Metadata(map[TAR := own.mutators[0]], [], false)]))
    ensures Emits(d, name, own.mutators[0])
  {
    FreshBase(d, name);
    var d' := SetImage(d, name, TAR, []);
    assert Images(d', name, LTS) == [[]];
    assert g.disk.meta[name := d.meta[name]] == g.disk.meta;
    assert g.disk.(meta := g.disk.meta[name := d.meta[name]]) == g.disk;
    assert own.mutators == [own.mutators[0]];
    CommitSingle(own.disk, name, own.mutators[0]);
    RecordedSingle(EMPTY_METADATA, own.mutators[0]);
  }

  // ----- an unchanged child re-adds an older layer -----

  lemma NotEmpty()
    ensures A_CHANGE != map[] && B_CHANGE != map[] && D_CHANGE != map[]
  {
    assert "f" in A_CHANGE && "f" in B_CHANGE && "f" in D_CHANGE;
  }

  const RAN_D := DISK_A.(
    meta := DISK_A.meta["D" := EMPTY_METADATA.(builtLayers := ["A"])], upper := DISK_A.upper["D" := D_CHANGE])

  // RAN_D after rendering A, the image of D being initialized.
  const RENDERED_A := Disk(
    map["A" := DRAINED_A, "D" := EMPTY_METADATA.(builtLayers := ["A"])],
    map["A" := map[], "D" := D_CHANGE],
    map[Blob(A_CHANGE) := A_CHANGE],
    map[Ref("D", TAR) := []], {})

  lemma NotedMeta()
    ensures RAN_D.meta["A" := Metadata(map[TAR := [Blob(A_CHANGE)]], [], true)] == RENDERED_A.meta
    ensures EMPTY_METADATA.manifests[TAR := [Blob(A_CHANGE)]] == map[TAR := [Blob(A_CHANGE)]]
  {
  }

  lemma NotedRest()
    ensures RAN_D.upper["A" := map[]] == RENDERED_A.upper
    ensures RAN_D.images[Ref("D", TAR) := []] == RENDERED_A.images
    ensures RAN_D.store == map[] && RAN_D.bases == {}
  {
  }

  lemma NotedForD()
    ensures var start := SetImage(RAN_D, "D", TAR, []);
      Note(AddToStore(start, Blob(A_CHANGE), A_CHANGE).(upper := start.upper["A" := map[]]), "A", [Blob(A_CHANGE)]) == RENDERED_A
  {
    NotedMeta();
    NotedRest();
  }

  lemma RenderForD()
    ensures RenderAll(SetImage(RAN_D, "D", TAR, []), ["A"], LTS, [[]], Fixed()) ==
      Ok(Generated(RENDERED_A, [[Blob(A_CHANGE)]], true))
  {
    var start := SetImage(RAN_D, "D", TAR, []);
    RenderNone(start, []);
    NotEmpty();
    RenderFresh(start, "A", []);
    assert [] + [Blob(A_CHANGE)] == [Blob(A_CHANGE)];
    NotedForD();
    RenderMore(start, [], "A", []);
    assert [] + ["A"] == ["A"];
  }

  lemma DiskAfterD()
    ensures var d := AddToStore(RENDERED_A, Blob(D_CHANGE), D_CHANGE).(upper := RENDERED_A.upper["D" := map[]]);
      var mut := [Blob(A_CHANGE), Blob(D_CHANGE)];
      SetImage(d, "D", TAR, mut).(meta := d.meta["D" := Metadata(map[TAR := mut], [], false)]) == DISK_D
  {
    var mut := [Blob(A_CHANGE), Blob(D_CHANGE)];
    assert RENDERED_A.meta["D" := Metadata(map[TAR := mut], [], false)] == DISK_D.meta;
    assert RENDERED_A.upper["D" := map[]] == DISK_D.upper;
    assert RENDERED_A.store[Blob(D_CHANGE) := D_CHANGE] == DISK_D.store;
    assert RENDERED_A.images[Ref("D", TAR) := mut] == DISK_D.images;
    NotStored();
  }

  lemma NotStored()
    ensures Blob(D_CHANGE) !in RENDERED_A.store
  {
    assert A_CHANGE["f"] == Data("a") && D_CHANGE["f"] == Data("d");
  }

  lemma RepackForD()
    ensures Repack(RAN_D, "D", Fresh, LTS, Fixed()) == Ok(DISK_D)
  {
    RenderForD();
    NotEmpty();
    GenerateFresh(RENDERED_A, "D", [Blob(A_CHANGE)]);
    assert [Blob(A_CHANGE)] + [Blob(D_CHANGE)] == [Blob(A_CHANGE), Blob(D_CHANGE)];
    var own := GenerateLayer(RENDERED_A, "D", LTS, [[Blob(A_CHANGE)]], Fixed()).value;
    RepackEmits(RAN_D, "D", Generated(RENDERED_A, [[Blob(A_CHANGE)]], true), own);
    DiskAfterD();
  }

  lemma AfterD()
    ensures Next(SYS_A, STEP_D, LTS) == Ok(SYS_D)
  {
    SnapshotOfA(DISK_A, "D", D_CHANGE);
    RepackForD();
    assert Forget(SYS_A.built, "D") == SYS_A.built;
    assert LineageOf(SYS_A, STEP_D, LTS) == Ok(LINEAGE_D);
    assert SYS_A.built["D" := LINEAGE_D] == SYS_D.built;
  }

  // B is build-only and set up after A was drained; C is output on B and changes nothing.
  const STEP_B := Step("B", LayerDef(Built("A"), true), B_CHANGE, TAR, Fixed())
  const STEP_C := Step("C", LayerDef(Built("B"), false), map[], TAR, Fixed())
  const LINEAGE_B := Child(LINEAGE_A, "B", true, B_CHANGE, true)
  const LINEAGE_C := Child(LINEAGE_B, "C", false, map[], true)

  const META_B := DRAINED_A.(builtLayers := ["A"])
  const DISK_B := DISK_D.(meta := DISK_D.meta["B" := META_B], upper := DISK_D.upper["B" := B_CHANGE])
  const SYS_B := Sys(DISK_B, SYS_D.built["B" := LINEAGE_B])

  lemma UnpackedAlready(d: Disk)
    requires Blob(A_CHANGE) in d.store && d.store[Blob(A_CHANGE)] == A_CHANGE
    ensures UnpackLayers(d, [Blob(A_CHANGE)]) == Ok(d)
  {
    assert UnpackLayers(d, [Blob(A_CHANGE)][..0]) == Ok(d);
    NotEmpty();
  }

  lemma SnapshotDrained(d: Disk, source: Name, name: Name, own: Diff)
    requires source in d.meta && d.meta[source].manifests == map[TAR := [Blob(A_CHANGE)]] && name != source
    requires Blob(A_CHANGE) in d.store && d.store[Blob(A_CHANGE)] == A_CHANGE
    requires name !in d.meta && name !in d.upper
    ensures SetupRootfs(d, name, Built(source), TAR).Ok?
    ensures RunContainer(SetupRootfs(d, name, Built(source), TAR).value, name, own) ==
      d.(meta := d.meta[name := d.meta[source].(builtLayers := Listed(d, source))], upper := d.upper[name := own])
  {
    assert Delete(d, name) == d;
    UnpackedAlready(d.(upper := d.upper[name := map[]]));
    assert d.upper[name := map[]][name := own] == d.upper[name := own];
  }

  lemma LineageOfB()
    ensures LineageOf(SYS_D, STEP_B, LTS) == Ok(LINEAGE_B)
  {
  }

  lemma RanB()
    ensures SetupRootfs(DISK_D, "B", Built("A"), TAR).Ok?
    ensures RunContainer(SetupRootfs(DISK_D, "B", Built("A"), TAR).value, "B", B_CHANGE) == DISK_B
  {
    SnapshotDrained(DISK_D, "A", "B", B_CHANGE);
    assert Listed(DISK_D, "A") == ["A"];
  }

  lemma AfterB()
    ensures Next(SYS_D, STEP_B, LTS) == Ok(SYS_B)
  {
    RanB();
    LineageOfB();
    BuildOnlyStep(SYS_D, STEP_B, LINEAGE_B);
    assert Forget(SYS_D.built, "B") == SYS_D.built;
  }

  const IMAGE_C := [Blob(A_CHANGE), Blob(B_CHANGE), Blob(A_CHANGE)]

  lemma RenderAB(d: Disk) returns (g: Generated)
    requires {"A", "B", "C"} <= d.meta.Keys && {"A", "B", "C"} <= d.upper.Keys
    requires d.meta["A"] == DRAINED_A && d.upper["A"] == map[] && d.upper["B"] == B_CHANGE
    ensures RenderAll(d, ["A", "B"], LTS, [[]], Fixed()) == Ok(g)
    ensures g.mutators == [[Blob(A_CHANGE), Blob(B_CHANGE)]] && g.mutated
    ensures "C" in g.disk.meta && g.disk.meta["C"] == d.meta["C"]
    ensures "C" in g.disk.upper && g.disk.upper["C"] == d.upper["C"]
  {
    var a := [Blob(A_CHANGE)];
    RenderNone(d, []);
    RenderAgain(d, "A", [], a);
    assert [] + a == a;
    RenderMore(d, [], "A", []);
    assert [] + ["A"] == ["A"];
    var first := RenderAll(d, ["A"], LTS, [[]], Fixed()).value;
    NotEmpty();
    RenderFresh(first.disk, "B", a);
    assert a + [Blob(B_CHANGE)] == [Blob(A_CHANGE), Blob(B_CHANGE)];
    RenderMore(d, ["A"], "B", []);
    assert ["A"] + ["B"] == ["A", "B"];
    g := RenderAll(d, ["A", "B"], LTS, [[]], Fixed()).value;
  }

  lemma RepackC(ran: Disk)
    requires {"A", "B", "C"} <= ran.meta.Keys && {"A", "B", "C"} <= ran.upper.Keys
    requires ran.meta["A"] == DRAINED_A && ran.upper["A"] == map[] && ran.upper["B"] == B_CHANGE
    requires ran.meta["C"] == DRAINED_A.(builtLayers := ["A", "B"]) && ran.upper["C"] == map[]
    ensures Emits(ran, "C", IMAGE_C)
  {
    var g := RenderAB(SetImage(ran, "C", TAR, []));
    var a, ab := [Blob(A_CHANGE)], [Blob(A_CHANGE), Blob(B_CHANGE)];
    GenerateAgain(g.disk, "C", ab, a);
    assert ab + [a[|a| - 1]] == IMAGE_C;
    var own := GenerateLayer(g.disk, "C", LTS, g.mutators, Fixed()).value;
    RepackEmits(ran, "C", g, own);
  }

  lemma LineageOfC()
    ensures LineageOf(SYS_B, STEP_C, LTS) == Ok(LINEAGE_C) && StartOf(LINEAGE_C) == Fresh
  {
  }

  lemma StepC()
    ensures var r := Next(SYS_B, STEP_C, LTS);
      && r.Ok? && "C" in r.value.built && r.value.built["C"] == LINEAGE_C
      && Ref("C", TAR) in r.value.disk.images && r.value.disk.images[Ref("C", TAR)] == IMAGE_C
  {
    SnapshotDrained(DISK_B, "B", "C", map[]);
    LineageOfC();
    var ran := RunContainer(SetupRootfs(DISK_B, "C", Built("B"), TAR).value, "C", map[]);
    OutputStep(SYS_B, STEP_C, LINEAGE_C, ran);
    assert Listed(DISK_B, "B") == ["A", "B"];
    RepackC(ran);
  }

  lemma RunExtend(steps: seq<Step>, step: Step, s: Sys)
    requires Run(Initial({}), steps, LTS) == Ok(s)
    ensures Run(Initial({}), steps + [step], LTS) == Next(s, step, LTS)
  {
    assert (steps + [step])[..|steps + [step]| - 1] == steps;
  }

  lemma RunADB()
    ensures Run(Initial({}), [STEP_A] + [STEP_D] + [STEP_B], LTS) == Ok(SYS_B)
  {
    AfterA();
    AfterD();
    AfterB();
    RunExtend([], STEP_A, Initial({}));
    assert [] + [STEP_A] == [STEP_A];
    RunExtend([STEP_A], STEP_D, SYS_A);
    RunExtend([STEP_A] + [STEP_D], STEP_B, SYS_D);
  }

  lemma TopWins(below: seq<Diff>, top: Diff, p: string)
    requires p in top && top[p].Data?
    ensures p in View(below + [top]) && View(below + [top])[p] == top[p].content
  {
    assert (below + [top])[..|below|] == below;
  }

  lemma ExpectedC()
    ensures Expected(LINEAGE_C) == [A_CHANGE] + [B_CHANGE]
  {
    NotEmpty();
    assert SourceDiffs(None) + One(A_CHANGE) == [A_CHANGE];
    assert Expected(LINEAGE_A) == [A_CHANGE];
    assert Expected(LINEAGE_B) == [A_CHANGE] + [B_CHANGE];
    assert Expected(LINEAGE_B) + [] == Expected(LINEAGE_B);
  }

  ghost predicate Shows(stack: seq<Diff>, path: string, content: string) {
    path in View(stack) && View(stack)[path] == content
  }

  lemma ShippedC()
    ensures Shows(Diffs(IMAGE_C), "f", "a") && Shows(Expected(LINEAGE_C), "f", "b")
  {
    assert Diffs(IMAGE_C) == [A_CHANGE, B_CHANGE] + [A_CHANGE];
    TopWins([A_CHANGE, B_CHANGE], A_CHANGE, "f");
    ExpectedC();
    TopWins([A_CHANGE], B_CHANGE, "f");
  }

  /** In the run A, D, B, C the image of C is A's change, B's change and A's change again: where
      both wrote a file, C ships A's version although B is built on top of A. */
  lemma UnchangedChildRestoresOldFile()
    ensures var r := Run(Initial({}), [STEP_A] + [STEP_D] + [STEP_B] + [STEP_C], LTS);
      && r.Ok? && "C" in r.value.built && Ref("C", TAR) in r.value.disk.images
      && Shows(Diffs(r.value.disk.images[Ref("C", TAR)]), "f", "a")
      && Shows(Expected(r.value.built["C"]), "f", "b")
  {
    RunADB();
    RunExtend([STEP_A] + [STEP_D] + [STEP_B], STEP_C, SYS_B);
    StepC();
    ShippedC();
  }

  // ----- the same after an edit -----

  // A, an older B and C on it, built from nothing; then B is edited and B and C are built again.
  const STEP_OLD_B := STEP_B.(own := D_CHANGE)
  const LINEAGE_OLD_B := Child(LINEAGE_A, "B", true, D_CHANGE, false)
  const DISK_OLD_B := DISK_A.(
    meta := DISK_A.meta["B" := EMPTY_METADATA.(builtLayers := ["A"])], upper := DISK_A.upper["B" := D_CHANGE])
  const SYS_OLD_B := Sys(DISK_OLD_B, map["A" := LINEAGE_A, "B" := LINEAGE_OLD_B])

  lemma AfterOldB()
    ensures Next(SYS_A, STEP_OLD_B, LTS) == Ok(SYS_OLD_B)
  {
    SnapshotOfA(DISK_A, "B", D_CHANGE);
    assert Forget(SYS_A.built, "B") == SYS_A.built;
    assert LineageOf(SYS_A, STEP_OLD_B, LTS) == Ok(LINEAGE_OLD_B);
    assert SYS_A.built["B" := LINEAGE_OLD_B] == SYS_OLD_B.built;
  }

  /** A is drained; B and C are there in whatever state. */
  ghost predicate ADrained(s: Sys) {
    && Inv(s, LTS) && "A" in s.built && s.built["A"] == LINEAGE_A
    && "A" in s.disk.meta && s.disk.meta["A"] == DRAINED_A && "A" in s.disk.upper && s.disk.upper["A"] == map[]
    && Blob(A_CHANGE) in s.disk.store
  }

  // B's metadata once B is drained too.
  const DRAINED_B := Metadata(map[TAR := [Blob(A_CHANGE), Blob(D_CHANGE)]], ["A"], true)

  /** B is drained, as it was built first. */
  ghost predicate BDrained(s: Sys) {
    && "B" in s.built && s.built["B"] == LINEAGE_OLD_B
    && "B" in s.disk.meta && s.disk.meta["B"] == DRAINED_B && "B" in s.disk.upper && s.disk.upper["B"] == map[]
    && Blob(D_CHANGE) in s.disk.store
  }

  lemma RenderOldB(d: Disk) returns (g: Generated)
    requires {"A", "B", "C"} <= d.meta.Keys && {"A", "B", "C"} <= d.upper.Keys && StoreOk(d)
    requires d.meta["A"] == EMPTY_METADATA && d.upper["A"] == A_CHANGE && d.upper["B"] == D_CHANGE
    requires d.meta["B"] == EMPTY_METADATA.(builtLayers := ["A"])
    ensures RenderAll(d, ["A", "B"], LTS, [[]], Fixed()) == Ok(g)
    ensures g.mutators == [[Blob(A_CHANGE), Blob(D_CHANGE)]] && g.mutated
    ensures "A" in g.disk.meta && g.disk.meta["A"] == DRAINED_A && "A" in g.disk.upper && g.disk.upper["A"] == map[]
    ensures "B" in g.disk.meta && g.disk.meta["B"] == DRAINED_B && "B" in g.disk.upper && g.disk.upper["B"] == map[]
    ensures Blob(A_CHANGE) in g.disk.store && Blob(D_CHANGE) in g.disk.store
    ensures "C" in g.disk.meta && g.disk.meta["C"] == d.meta["C"]
    ensures "C" in g.disk.upper && g.disk.upper["C"] == d.upper["C"]
  {
    var first := RenderOldA(d);
    var both := RenderOnlyB(first.disk);
    RenderMore(d, ["A"], "B", []);
    assert ["A"] + ["B"] == ["A", "B"];
    g := RenderAll(d, ["A", "B"], LTS, [[]], Fixed()).value;
  }

  lemma RenderOnlyB(d: Disk) returns (g: Generated)
    requires {"A", "B", "C"} <= d.meta.Keys && {"A", "B", "C"} <= d.upper.Keys
    requires d.upper["B"] == D_CHANGE && d.meta["B"] == EMPTY_METADATA.(builtLayers := ["A"])
    ensures RenderBuilt(d, "B", LTS, [[Blob(A_CHANGE)]], Fixed()) == Ok(g)
    ensures g.mutators == [[Blob(A_CHANGE), Blob(D_CHANGE)]] && g.mutated
    ensures g.disk.meta == d.meta["B" := DRAINED_B] && g.disk.upper == d.upper["B" := map[]]
    ensures g.disk.store.Keys == d.store.Keys + {Blob(D_CHANGE)}
  {
    NotEmpty();
    RenderFresh(d, "B", [Blob(A_CHANGE)]);
    assert [Blob(A_CHANGE)] + [Blob(D_CHANGE)] == [Blob(A_CHANGE), Blob(D_CHANGE)];
    assert EMPTY_METADATA.manifests[TAR := [Blob(A_CHANGE), Blob(D_CHANGE)]] == DRAINED_B.manifests;
    g := RenderBuilt(d, "B", LTS, [[Blob(A_CHANGE)]], Fixed()).value;
  }

  lemma RenderOldA(d: Disk) returns (g: Generated)
    requires {"A", "B", "C"} <= d.meta.Keys && {"A", "B", "C"} <= d.upper.Keys
    requires d.meta["A"] == EMPTY_METADATA && d.upper["A"] == A_CHANGE && d.upper["B"] == D_CHANGE
    ensures RenderAll(d, ["A"], LTS, [[]], Fixed()) == Ok(g)
    ensures g.mutators == [[Blob(A_CHANGE)]] && g.mutated && g.disk.upper == d.upper["A" := map[]]
    ensures g.disk.meta == d.meta["A" := DRAINED_A] && Blob(A_CHANGE) in g.disk.store
    ensures "B" in g.disk.upper && g.disk.upper["B"] != map[]
  {
    NotEmpty();
    RenderNone(d, []);
    RenderFresh(d, "A", []);
    assert [] + [Blob(A_CHANGE)] == [Blob(A_CHANGE)];
    assert EMPTY_METADATA.manifests[TAR := [Blob(A_CHANGE)]] == DRAINED_A.manifests;
    RenderMore(d, [], "A", []);
    assert [] + ["A"] == ["A"];
    g := RenderAll(d, ["A"], LTS, [[]], Fixed()).value;
  }

  lemma FirstC(ran: Disk)
    requires {"A", "B", "C"} <= ran.meta.Keys && {"A", "B", "C"} <= ran.upper.Keys && StoreOk(ran)
    requires ran.meta["A"] == EMPTY_METADATA && ran.upper["A"] == A_CHANGE
    requires ran.upper["B"] == D_CHANGE && ran.meta["B"] == EMPTY_METADATA.(builtLayers := ["A"])
    requires ran.meta["C"] == EMPTY_METADATA.(builtLayers := ["A", "B"]) && ran.upper["C"] == map[]
    ensures var r := Repack(ran, "C", Fresh, LTS, Fixed());
      && r.Ok? && "A" in r.value.meta && r.value.meta["A"] == DRAINED_A && "A" in r.value.upper && r.value.upper["A"] == map[]
      && "B" in r.value.meta && r.value.meta["B"] == DRAINED_B && "B" in r.value.upper && r.value.upper["B"] == map[]
      && Blob(A_CHANGE) in r.value.store && Blob(D_CHANGE) in r.value.store
      && Ref("C", TAR) in r.value.images && r.value.images[Ref("C", TAR)] == [Blob(A_CHANGE), Blob(D_CHANGE)]
  {
    var both := RenderOldB(SetImage(ran, "C", TAR, []));
    QuietRepack(ran, "C", both);
  }

  /** A layer that changed nothing ships what its base's layers rendered. */
  lemma QuietRepack(d: Disk, name: Name, g: Generated)
    requires name in d.meta && name in g.disk.meta && g.disk.meta[name] == d.meta[name] && !d.meta[name].hasBuiltOCIOutput
    requires name in g.disk.upper && g.disk.upper[name] == map[]
    requires RenderAll(SetImage(d, name, TAR, []), d.meta[name].builtLayers, LTS, [[]], Fixed()) == Ok(g)
    requires |g.mutators| == 1 && g.mutated
    ensures Repack(d, name, Fresh, LTS, Fixed()) == Ok(SetImage(g.disk, name, TAR, g.mutators[0]).(
      meta := g.disk.meta[name := Metadata(map[TAR := g.mutators[0]], [], false)]))
  {
    FreshBase(d, name);
    var d' := SetImage(d, name, TAR, []);
    assert Images(d', name, LTS) == [[]];
    assert g.disk.meta[name := d.meta[name]] == g.disk.meta;
    assert g.disk.(meta := g.disk.meta[name := d.meta[name]]) == g.disk;
    assert g.mutators == [g.mutators[0]];
    CommitSingle(g.disk, name, g.mutators[0]);
    RecordedSingle(EMPTY_METADATA, g.mutators[0]);
  }

  const LINEAGE_FIRST_C := Child(LINEAGE_OLD_B, "C", false, map[], false)

  lemma RunOldB()
    ensures Run(Initial({}), [STEP_A] + [STEP_OLD_B], LTS) == Ok(SYS_OLD_B) && Inv(SYS_OLD_B, LTS)
  {
    AfterA();
    AfterOldB();
    RunExtend([], STEP_A, Initial({}));
    assert [] + [STEP_A] == [STEP_A];
    RunExtend([STEP_A], STEP_OLD_B, SYS_A);
    RunKeepsInv(Initial({}), [STEP_A] + [STEP_OLD_B], LTS);
  }

  lemma LineageOfFirstC()
    ensures LineageOf(SYS_OLD_B, STEP_C, LTS) == Ok(LINEAGE_FIRST_C) && StartOf(LINEAGE_FIRST_C) == Fresh
  {
  }

  lemma RanFirstC()
    ensures SetupRootfs(DISK_OLD_B, "C", Built("B"), TAR).Ok?
    ensures var ran := RunContainer(SetupRootfs(DISK_OLD_B, "C", Built("B"), TAR).value, "C", map[]);
      && StoreOk(ran) && {"A", "B", "C"} <= ran.meta.Keys && {"A", "B", "C"} <= ran.upper.Keys
      && ran.meta["A"] == EMPTY_METADATA && ran.upper["A"] == A_CHANGE && ran.upper["B"] == D_CHANGE
      && ran.meta["B"] == EMPTY_METADATA.(builtLayers := ["A"])
      && ran.meta["C"] == EMPTY_METADATA.(builtLayers := ["A", "B"]) && ran.upper["C"] == map[]
  {
    var d := DISK_OLD_B;
    assert Delete(d, "C") == d;
    assert SetupRootfs(d, "C", Built("B"), TAR).Ok?;
    assert Listed(d, "B") == ["A", "B"];
  }

  /** The first image of C is what it should be; A is drained from now on. */
  lemma AfterFirstC()
    ensures var r := Next(SYS_OLD_B, STEP_C, LTS);
      && r.Ok? && ADrained(r.value) && BDrained(r.value) && "C" in r.value.built && r.value.built["C"] == LINEAGE_FIRST_C
      && Ref("C", TAR) in r.value.disk.images && r.value.disk.images[Ref("C", TAR)] == [Blob(A_CHANGE), Blob(D_CHANGE)]
  {
    RanFirstC();
    LineageOfFirstC();
    var ran := RunContainer(SetupRootfs(DISK_OLD_B, "C", Built("B"), TAR).value, "C", map[]);
    FirstC(ran);
    OutputStep(SYS_OLD_B, STEP_C, LINEAGE_FIRST_C, ran);
    RunOldB();
    StepKeepsInv(SYS_OLD_B, STEP_C, LTS);
  }

  lemma SnapshotReady(d: Disk, source: Name, name: Name)
    requires source in d.meta && d.meta[source].manifests == map[TAR := [Blob(A_CHANGE)]] && name != source
    requires Blob(A_CHANGE) in d.store && StoreOk(d)
    ensures SetupRootfs(d, name, Built(source), TAR).Ok?
  {
    var deleted := Delete(d, name);
    UnpackedAlready(deleted.(upper := deleted.upper[name := map[]]));
  }

  /** A snapshot's directories are there to be mounted. */
  lemma Shape(d: Disk, source: Name, name: Name)
    requires StoreOk(d) && source in d.meta && source in d.upper && source != name
    requires SetupRootfs(d, name, Built(source), TAR).Ok? && forall x <- d.meta[source].builtLayers :: x in d.upper
    ensures var d' := SetupRootfs(d, name, Built(source), TAR).value;
      && name in d'.meta && name in d'.upper && d'.meta[name].manifests == d.meta[source].manifests
      && forall x <- d'.meta[name].builtLayers :: x in d'.upper
  {
    SnapshotShape(d, source, name, TAR);
  }

  /** Whatever state B and C are in, the edited B is set up with A's metadata. */
  lemma AfterEditedB(s: Sys)
    requires ADrained(s)
    ensures var r := Next(s, STEP_B, LTS);
      && r.Ok? && ADrained(r.value) && "B" in r.value.built && r.value.built["B"] == LINEAGE_B
      && "B" in r.value.disk.meta && r.value.disk.meta["B"] == META_B
      && "B" in r.value.disk.upper && r.value.disk.upper["B"] == B_CHANGE
  {
    SnapshotReady(s.disk, "A", "B");
    SnapshotShape(s.disk, "A", "B", TAR);
    assert LineageOf(s, STEP_B, LTS) == Ok(LINEAGE_B);
    BuildOnlyStep(s, STEP_B, LINEAGE_B);
    assert Listed(s.disk, "A") == ["A"];
    StepKeepsInv(s, STEP_B, LTS);
  }

  lemma EditedC(s: Sys)
    requires ADrained(s) && "B" in s.built && s.built["B"] == LINEAGE_B
    requires "B" in s.disk.meta && s.disk.meta["B"] == META_B && "B" in s.disk.upper && s.disk.upper["B"] == B_CHANGE
    ensures SetupRootfs(s.disk, "C", Built("B"), TAR).Ok? && LineageOf(s, STEP_C, LTS) == Ok(LINEAGE_C)
    ensures Emits(RunContainer(SetupRootfs(s.disk, "C", Built("B"), TAR).value, "C", map[]), "C", IMAGE_C)
  {
    SnapshotReady(s.disk, "B", "C");
    SnapshotShape(s.disk, "B", "C", TAR);
    assert Listed(s.disk, "B") == ["A", "B"];
    RepackC(RunContainer(SetupRootfs(s.disk, "C", Built("B"), TAR).value, "C", map[]));
  }

  /** C, which did not change, is shipped with A's files again on top of the edited B. */
  lemma AfterEditedC(s: Sys)
    requires ADrained(s) && "B" in s.built && s.built["B"] == LINEAGE_B
    requires "B" in s.disk.meta && s.disk.meta["B"] == META_B && "B" in s.disk.upper && s.disk.upper["B"] == B_CHANGE
    ensures var r := Next(s, STEP_C, LTS);
      && r.Ok? && "C" in r.value.built && r.value.built["C"] == LINEAGE_C
      && Ref("C", TAR) in r.value.disk.images && r.value.disk.images[Ref("C", TAR)] == IMAGE_C
  {
    EditedC(s);
    OutputStep(s, STEP_C, LINEAGE_C, RunContainer(SetupRootfs(s.disk, "C", Built("B"), TAR).value, "C", map[]));
    assert StartOf(LINEAGE_C) == Fresh;
  }

  // ----- the hypotheses of the theorems can be met -----

  lemma RunAD()
    ensures Run(Initial({}), [STEP_A] + [STEP_D], LTS) == Ok(SYS_D)
    ensures Run(Initial({}), [STEP_A], LTS) == Ok(SYS_A)
  {
    AfterA();
    AfterD();
    RunExtend([], STEP_A, Initial({}));
    assert [] + [STEP_A] == [STEP_A];
    RunExtend([STEP_A], STEP_D, SYS_A);
  }

  lemma SafeD()
    ensures SafeStep(SYS_A, STEP_D)
  {
    NotEmpty();
    SnapshotOfA(DISK_A, "D", D_CHANGE);
  }

  lemma SafeAD()
    ensures SafeRun(Initial({}), [STEP_A] + [STEP_D], LTS)
  {
    RunAD();
    SafeD();
    var steps := [STEP_A] + [STEP_D];
    assert steps[..1] == [STEP_A] && [STEP_A][..0] == [];
    assert SafeRun(Initial({}), [], LTS);
    assert SafeRun(Initial({}), [STEP_A], LTS);
  }

  /** A run that all the theorems about runs apply to: a build-only layer and an output layer on it. */
  lemma HypothesesHold()
    ensures |LTS| > 0 && Distinct(LTS) && TAR in LTS
    ensures Run(Initial({}), [STEP_A] + [STEP_D], LTS) == Ok(SYS_D) && SafeRun(Initial({}), [STEP_A] + [STEP_D], LTS)
    ensures "D" in SYS_D.built && !SYS_D.built["D"].buildOnly && Clean(SYS_D.built["D"]) && AllChanged(SYS_D.built["D"])
    ensures "D" in SYS_D.disk.meta && Picks(SYS_D.disk.meta["D"], TAR)
  {
    RunAD();
    SafeAD();
    NotEmpty();
  }

  // ----- draining a shared base hollows a sibling -----

  // The same A and B, but B is set up before A is drained; D then drains A.
  const LINEAGE_B0 := Child(LINEAGE_A, "B", true, B_CHANGE, false)
  const DISK_AB := DISK_A.(
    meta := DISK_A.meta["B" := EMPTY_METADATA.(builtLayers := ["A"])], upper := DISK_A.upper["B" := B_CHANGE])
  const SYS_AB := Sys(DISK_AB, map["A" := LINEAGE_A, "B" := LINEAGE_B0])

  lemma AfterAB()
    ensures Next(SYS_A, STEP_B, LTS) == Ok(SYS_AB)
  {
    SnapshotOfA(DISK_A, "B", B_CHANGE);
    assert Forget(SYS_A.built, "B") == SYS_A.built;
    assert LineageOf(SYS_A, STEP_B, LTS) == Ok(LINEAGE_B0);
    assert SYS_A.built["B" := LINEAGE_B0] == SYS_AB.built;
  }

  lemma RepackD(ran: Disk)
    requires {"A", "B", "D"} <= ran.meta.Keys && {"A", "B", "D"} <= ran.upper.Keys
    requires ran.meta["A"] == EMPTY_METADATA && ran.upper["A"] == A_CHANGE
    requires ran.meta["D"] == EMPTY_METADATA.(builtLayers := ["A"]) && ran.upper["D"] == D_CHANGE
    ensures var r := Repack(ran, "D", Fresh, LTS, Fixed());
      && r.Ok? && "B" in r.value.meta && r.value.meta["B"] == ran.meta["B"]
      && "B" in r.value.upper && r.value.upper["B"] == ran.upper["B"]
      && "A" in r.value.upper && r.value.upper["A"] == map[]
  {
    var start := SetImage(ran, "D", TAR, []);
    RenderNone(start, []);
    NotEmpty();
    RenderFresh(start, "A", []);
    RenderMore(start, [], "A", []);
    assert [] + ["A"] == ["A"];
    var g := RenderAll(start, ["A"], LTS, [[]], Fixed()).value;
    GenerateFresh(g.disk, "D", g.mutators[0]);
    var own := GenerateLayer(g.disk, "D", LTS, g.mutators, Fixed()).value;
    RepackEmits(ran, "D", g, own);
  }

  lemma RunABD()
    ensures Run(Initial({}), [STEP_A] + [STEP_B] + [STEP_D], LTS) == Next(SYS_AB, STEP_D, LTS)
  {
    AfterA();
    AfterAB();
    RunExtend([], STEP_A, Initial({}));
    assert [] + [STEP_A] == [STEP_A];
    RunExtend([STEP_A], STEP_B, SYS_A);
    RunExtend([STEP_A] + [STEP_B], STEP_D, SYS_AB);
  }

  lemma LineageOfD()
    ensures LineageOf(SYS_AB, STEP_D, LTS) == Ok(LINEAGE_D) && StartOf(LINEAGE_D) == Fresh
  {
  }

  lemma AfterABD()
    ensures var r := Next(SYS_AB, STEP_D, LTS);
      && r.Ok? && "B" in r.value.built && r.value.built["B"] == LINEAGE_B0
      && Mountable(r.value.disk, LINEAGE_B0) && !Sound(r.value.disk, LINEAGE_B0)
  {
    SnapshotOfA(DISK_AB, "D", D_CHANGE);
    var ran := RunContainer(SetupRootfs(DISK_AB, "D", Built("A"), TAR).value, "D", D_CHANGE);
    RepackD(ran);
    LineageOfD();
    OutputStep(SYS_AB, STEP_D, LINEAGE_D, ran);
    HollowB(Repack(ran, "D", Fresh, LTS, Fixed()).value);
  }

  /** In the run A, B, D the last step leaves B mounted without A's change. */
  lemma DrainingHollowsSibling()
    ensures var r := Run(Initial({}), [STEP_A] + [STEP_B] + [STEP_D], LTS);
      && r.Ok? && "B" in r.value.built && Clean(r.value.built["B"])
      && Mountable(r.value.disk, r.value.built["B"]) && !Sound(r.value.disk, r.value.built["B"])
  {
    RunABD();
    AfterABD();
  }

  lemma MountedB()
    ensures NonEmpty([map[], B_CHANGE]) == [B_CHANGE]
  {
    NotEmpty();
    var stack: seq<Diff> := [map[], B_CHANGE];
    assert stack[..1] == [map[]] && stack[..1][..0] == [];
    assert NonEmpty(stack[..1]) == [];
  }

  lemma ExpectedB()
    ensures |NonEmpty(Expected(LINEAGE_B0))| == 2
  {
    NotEmpty();
    assert SourceDiffs(None) + One(A_CHANGE) == [A_CHANGE];
    var expected := Expected(LINEAGE_B0);
    assert expected == [A_CHANGE, B_CHANGE];
    assert expected[..1] == [A_CHANGE] && expected[..1][..0] == [];
    assert NonEmpty(expected[..1]) == [A_CHANGE];
  }

  lemma HollowB(d: Disk)
    requires "B" in d.meta && d.meta["B"] == EMPTY_METADATA.(builtLayers := ["A"])
    requires "A" in d.upper && d.upper["A"] == map[] && "B" in d.upper && d.upper["B"] == B_CHANGE
    ensures Mountable(d, LINEAGE_B0) && !Sound(d, LINEAGE_B0)
  {
    MountedB();
    ExpectedB();
    assert MountStack(d, "B", TAR) == [map[], B_CHANGE];
    assert Picks(d.meta["B"], TAR);
  }
}

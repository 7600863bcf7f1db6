/** A cached build that ships what no clean build ships although no layer is stale, no repack hollowed
    another layer and nothing failed.  A, B, which only builds on A, and C, output on B, are built; C's
    repack drains A and B.  A is edited and built, and put back and built.  A's entry is what it was, so
    B hits and stays drained; but A's directory is filled again, and B is mounted on A's change twice, the
    second time above its own.  D, built on B, sees an older version of a file.  OverlayReturns.dfy says
    exactly when such a mount is still right, and CachedStoreMounts.dfy asks for it. */
module CachedStoreRefilled {
  import opened Wrappers
  import opened CacheModel
  import opened CacheProofs
  import opened CacheTheorems
  import opened CachedStore
  import opened CachedStoreProofs
  import opened CachedStoreTheorems
  import opened CachedStoreMounts
  import opened CachedStoreFindings
  import opened OverlayProofs
  import opened OverlaySteps
  import opened OverlayTheorems
  import opened OverlayMounts
  import opened OverlayReturns
  import D = OverlayDisk
  import R = OverlayRuns
  import F = OverlayFindings

  // ----- building A again -----

  // A with its command taken out.
  const EDITED := Layer(Scratch, [], [], ["true"], [], true)

  function WorldWith(a: Layer): World {
    TheWorld("old b").(layers := TheWorld("old b").layers["A" := a])
  }

  predicate IsA(a: Layer) {
    a == A || a == EDITED
  }

  /** A's root after it was built again with some outcome. */
  function Refilled(d: D.Disk, own: D.Diff): D.Disk {
    d.(meta := d.meta["A" := D.EMPTY_METADATA], upper := d.upper["A" := own])
  }

  lemma ScratchSetup(d: D.Disk, own: D.Diff)
    ensures var mounted := D.SetupRootfs(d, "A", D.Scratch, F.TAR);
      && mounted.Ok? && R.RunContainer(mounted.value, "A", own) == Refilled(d, own)
      && ViewOf(mounted.value, "A", F.TAR).Some?
  {
    assert (d.meta - {"A"})["A" := D.EMPTY_METADATA] == d.meta["A" := D.EMPTY_METADATA];
    assert (d.upper - {"A"})["A" := map[]]["A" := own] == d.upper["A" := own];
  }

  function StepA(a: Layer): R.Step {
    F.STEP_A.(own := ChangeOf(a.run))
  }

  function SysWith(sys: R.Sys, own: D.Diff): R.Sys {
    R.Sys(Refilled(sys.disk, own), R.Forget(sys.built, "A")["A" := R.Root("A", true, None, own)])
  }

  lemma ScratchNext(sys: R.Sys, a: Layer)
    ensures R.Next(sys, StepA(a), F.LTS) == Ok(SysWith(sys, ChangeOf(a.run)))
  {
    ScratchSetup(sys.disk, ChangeOf(a.run));
    var l := R.Root("A", true, None, ChangeOf(a.run));
    assert R.LineageOf(sys, StepA(a), F.LTS) == Ok(l);
    F.BuildOnlyStep(sys, StepA(a), l);
  }

  lemma ScratchTakes(c: Store, a: Layer)
    requires IsA(a)
    ensures Takes(c, WorldWith(a), "A", StepA(a))
  {
    ScratchSetup(c.sys.disk, map[]);
    ScriptsLeave();
    var w := RealWorld(c, WorldWith(a));
    assert w.layers["A"] == a && DefOf(TheMeaning(), w, a) == Ok(D.LayerDef(D.Scratch, true));
  }

  lemma ScratchMisses(w: World, s: State, a: Layer)
    requires IsA(a) && w == WorldWith(a).(grab := w.grab) && ("A" in s.cache ==> s.cache["A"].layer != a)
    ensures Ranked(w) && LookupEntry(w, s, "A") == Miss
  {
  }

  /** A's turn after an edit. */
  lemma TurnOfA(c: Store, a: Layer) returns (c': Store)
    requires Inv(c) && IsA(a) && ("A" in c.s.cache ==> c.s.cache["A"].layer != a)
    ensures TheTurn(c, WorldWith(a), "A") == Ok(c') && c'.sys == SysWith(c.sys, ChangeOf(a.run))
    ensures c'.made == c.made["A" := R.Root("A", true, None, ChangeOf(a.run))]
    ensures c'.s.cache == c.s.cache["A" := ScratchEntry("A", a)]
    ensures "A" in c'.s.roots && c'.s.roots["A"].Some? && c'.s.roots == c.s.roots["A" := c'.s.roots["A"]]
  {
    var w0 := WorldWith(a);
    ScratchTakes(c, a);
    ScratchNext(c.sys, a);
    ScratchMisses(RealWorld(c, w0), Started(c, "A").s, a);
    ScratchMisses(w0, c.s, a);
    assert w0.layers["A"] == a && Bare(a) && BaseReady(c, w0, "A");
    c' := TurnRebuilds(c, w0, "A", StepA(a), SysWith(c.sys, ChangeOf(a.run)));
    ScratchPut(RealWorld(c, w0), Started(c, "A").s, "A", Emits(c'.sys.disk));
  }

  /** A comes back as it was, but its directory is filled. */
  ghost predicate AIsBack(c: Store, c': Store) {
    && c'.sys.disk == Refilled(c.sys.disk, F.A_CHANGE) && c'.made == c.made["A" := F.LINEAGE_A]
    && c'.sys.built == R.Forget(c.sys.built, "A")["A" := F.LINEAGE_A]
    && c'.s.cache == c.s.cache && "A" in c'.s.roots && c'.s.roots["A"].Some?
    && c'.s.roots == c.s.roots["A" := c'.s.roots["A"]]
  }

  lemma BackAgain(c: Store, e: Store, c': Store)
    requires HasA(c.s) && e.sys == SysWith(c.sys, map[]) && c'.sys == SysWith(e.sys, F.A_CHANGE)
    requires e.made == c.made["A" := R.Root("A", true, None, map[])] && c'.made == e.made["A" := F.LINEAGE_A]
    requires e.s.cache == c.s.cache["A" := ScratchEntry("A", EDITED)] && c'.s.cache == e.s.cache["A" := ScratchEntry("A", A)]
    requires "A" in e.s.roots && e.s.roots == c.s.roots["A" := e.s.roots["A"]]
    requires "A" in c'.s.roots && c'.s.roots["A"].Some? && c'.s.roots == e.s.roots["A" := c'.s.roots["A"]]
    ensures AIsBack(c, c')
  {
    PutBack(c.s.cache, ScratchEntry("A", EDITED), ScratchEntry("A", A));
    BuiltAgain(c.sys);
    assert c'.made == c.made["A" := F.LINEAGE_A] && c'.s.roots == c.s.roots["A" := c'.s.roots["A"]];
  }

  lemma SecondTurnOfA(hs: seq<Happening>, c: Store, e: Store) returns (c': Store)
    requires After(hs) == Ok(e) && HasA(c.s) && e.sys == SysWith(c.sys, map[])
    requires e.made == c.made["A" := R.Root("A", true, None, map[])]
    requires e.s.cache == c.s.cache["A" := ScratchEntry("A", EDITED)]
    requires "A" in e.s.roots && e.s.roots == c.s.roots["A" := e.s.roots["A"]]
    ensures After(hs + [Turned(WorldWith(A), "A", CHOICES)]) == Ok(c') && AIsBack(c, c')
  {
    AfterInv(hs, e);
    ScriptsLeave();
    c' := TurnOfA(e, A);
    OneMoreIn(hs, e, WorldWith(A), "A");
    BackAgain(c, e, c');
  }

  lemma TwoTurnsOfA(hs: seq<Happening>, c: Store) returns (c': Store)
    requires After(hs) == Ok(c) && HasA(c.s)
    ensures After(hs + [Turned(WorldWith(EDITED), "A", CHOICES)] + [Turned(WorldWith(A), "A", CHOICES)]) == Ok(c')
    ensures AIsBack(c, c')
  {
    AfterInv(hs, c);
    ScriptsLeave();
    var e := TurnOfA(c, EDITED);
    OneMoreIn(hs, c, WorldWith(EDITED), "A");
    c' := SecondTurnOfA(hs + [Turned(WorldWith(EDITED), "A", CHOICES)], c, e);
  }

  lemma PutBack(cache: map<Name, CacheEntry>, other: CacheEntry, e: CacheEntry)
    requires "A" in cache && cache["A"] == e
    ensures cache["A" := other]["A" := e] == cache
  {
  }

  lemma BuiltAgain(sys: R.Sys)
    ensures SysWith(SysWith(sys, map[]), F.A_CHANGE) == SysWith(sys, F.A_CHANGE)
  {
    var d := sys.disk;
    assert Refilled(Refilled(d, map[]), F.A_CHANGE) == Refilled(d, F.A_CHANGE);
    assert "A" in R.Names(R.Root("A", true, None, map[]));
    assert R.Forget(R.Forget(sys.built, "A")["A" := R.Root("A", true, None, map[])], "A")["A" := F.LINEAGE_A] ==
      R.Forget(sys.built, "A")["A" := F.LINEAGE_A];
  }

  lemma OneMoreIn(hs: seq<Happening>, c: Store, w: World, n: Name)
    requires After(hs) == Ok(c)
    ensures After(hs + [Turned(w, n, CHOICES)]) == TheTurn(c, w, n)
  {
    assert (hs + [Turned(w, n, CHOICES)])[..|hs|] == hs;
  }

  // ----- B comes back -----

  /** What the first build and A's two turns leave. */
  ghost predicate ABuiltAgain(c: Store) {
    && Inv(c) && HasB(c.s, "old b") && "D" !in c.s.cache
    && "A" in c.sys.built && c.sys.built["A"] == F.LINEAGE_A && "B" !in c.sys.built
    && "B" in c.made && c.made["B"] == F.LINEAGE_OLD_B
    && BOnDisk(c.sys.disk)
  }

  ghost predicate BOnDisk(d: D.Disk) {
    && R.StoreOk(d) && F.Blob(F.A_CHANGE) in d.store && F.Blob(F.D_CHANGE) in d.store
    && "A" in d.meta && d.meta["A"] == D.EMPTY_METADATA && "A" in d.upper && d.upper["A"] == F.A_CHANGE
    && "B" in d.meta && d.meta["B"] == F.DRAINED_B && "B" in d.upper && d.upper["B"] == map[]
  }

  lemma AfterBoth(c: Store, c': Store)
    requires Inv(c) && Inv(c') && F.ADrained(c.sys) && F.BDrained(c.sys) && HasB(c.s, "old b") && "D" !in c.s.cache
    requires AIsBack(c, c')
    ensures ABuiltAgain(c')
  {
    assert StandsOk(c, "B");
    assert "A" in R.Names(F.LINEAGE_OLD_B);
  }

  lemma BIsOk(d: D.Disk)
    requires BOnDisk(d)
    ensures R.LayerOk(d, F.LINEAGE_OLD_B, F.LTS) && R.WellFormed(F.LINEAGE_OLD_B, F.LTS)
  {
    F.NotEmpty();
    var m := d.meta["B"];
    assert R.Names(F.LINEAGE_A) == {"A"};
    assert m.manifests[F.TAR] == [F.Blob(F.A_CHANGE), F.Blob(F.D_CHANGE)];
    assert R.MetaOk(d, m, F.LTS);
    assert R.ChangeKept(d, F.LINEAGE_OLD_B, F.LTS);
    assert R.Listed(d, "A") == ["A"];
  }

  lemma BComesBack(c: Store)
    requires ABuiltAgain(c)
    ensures Returns(Started(c, "B"), "B", F.LTS)
    ensures "B" in c.s.cache && Referenced(Started(c, "B"), "B", c.s.cache["B"], F.LTS) == Started(c, "B")
  {
    BIsOk(c.sys.disk);
  }

  lemma HitUses(c: Store, w0: World, n: Name, e: CacheEntry)
    requires Ranked(w0) && n in w0.layers && Bare(w0.layers[n]) && e.layer.buildOnly
    requires Ranked(RealWorld(c, w0)) && LookupEntry(RealWorld(c, w0), Started(c, n).s, n) == Hit(e)
    ensures TheTurn(c, w0, n) == Ok(Use(Started(c, n), n, e, F.LTS))
  {
    BareStarts(RealWorld(c, w0), c.s, n);
  }

  /** B hits, and counts as standing again. */
  lemma TurnOfB(c: Store) returns (c': Store)
    requires ABuiltAgain(c)
    ensures TheTurn(c, TheWorld("old b"), "B") == Ok(c')
    ensures c'.s == Started(c, "B").s && c'.made == c.made && c'.sys.disk == c.sys.disk
    ensures c'.sys.built == c.sys.built["B" := F.LINEAGE_OLD_B]
  {
    var w0, s := TheWorld("old b"), Started(c, "B");
    BHits(RealWorld(c, w0), s.s, "old b");
    BComesBack(c);
    assert w0.layers["B"] == B("old b") && Ranked(w0);
    HitUses(c, w0, "B", c.s.cache["B"]);
    c' := Use(s, "B", c.s.cache["B"], F.LTS);
  }

  /** B's manifests record it whole, and A's directory, which B lists, is filled all the same. */
  lemma BIsNotIntact(c: Store)
    requires ABuiltAgain(c)
    ensures R.Clean(F.LINEAGE_OLD_B) && HoldsAbove(c.sys.disk, F.LINEAGE_OLD_B, Some(F.LINEAGE_OLD_B))
    ensures RecordsUpTo(c.sys.disk, F.LINEAGE_OLD_B, Some(F.LINEAGE_OLD_B))
    ensures !RecordedAreDrained(c.sys.disk, Some(F.LINEAGE_OLD_B))
  {
    F.NotEmpty();
    var both := [F.Blob(F.A_CHANGE), F.Blob(F.D_CHANGE)];
    assert D.Diffs(both) == [F.A_CHANGE, F.D_CHANGE];
    assert R.Expected(F.LINEAGE_A) == [F.A_CHANGE];
    assert R.Expected(F.LINEAGE_OLD_B) == [F.A_CHANGE, F.D_CHANGE];
    assert F.TAR in F.DRAINED_B.manifests;
    assert "A" in R.Listed(c.sys.disk, "B");
  }

  lemma BIsUnsafe(c: Store)
    requires ABuiltAgain(c)
    ensures "B" in c.s.cache && !SafeUse(Started(c, "B"), "B", c.s.cache["B"], F.LTS)
  {
    BComesBack(c);
    BIsNotIntact(c);
    var s := Started(c, "B");
    BareStarts(RealWorld(c, TheWorld("old b")), c.s, "B");
    StartedInv(c, TheWorld("old b"), "B");
    ReturnBuilt(TheMeaning(), s, "B", F.LTS);
    var built := s.sys.built["B" := F.LINEAGE_OLD_B];
    SoundIffDrained(c.sys.disk, built, F.LINEAGE_OLD_B, Some(F.LINEAGE_OLD_B), F.LTS);
    if Intact(c.sys.disk, F.LINEAGE_OLD_B) {
      IntactIsSound(c.sys.disk, built, F.LINEAGE_OLD_B, F.LTS);
    }
  }

  // ----- D on it -----

  const D_OWN: D.Diff := map["g" := D.Data("a")]
  const STEP_D := R.Step("D", D.LayerDef(D.Built("B"), false), D_OWN, F.TAR, F.Fixed())
  const LINEAGE_D := R.Child(F.LINEAGE_OLD_B, "D", false, D_OWN, true)

  /** B stands again, on a filled A. */
  ghost predicate BStands(c: Store) {
    && Inv(c) && HasB(c.s, "old b") && "D" !in c.s.cache
    && "B" in c.sys.built && c.sys.built["B"] == F.LINEAGE_OLD_B && BOnDisk(c.sys.disk)
  }

  lemma MountOfB(d: D.Disk)
    requires BOnDisk(d)
    ensures forall x <- d.meta["B"].builtLayers :: x in d.upper
    ensures D.MountStack(d, "B", F.TAR) == [F.A_CHANGE, F.D_CHANGE, F.A_CHANGE, map[]]
  {
    assert D.Diffs([F.Blob(F.A_CHANGE), F.Blob(F.D_CHANGE)]) == [F.A_CHANGE, F.D_CHANGE];
    assert D.Uppers(d, ["A"]) == [F.A_CHANGE];
  }

  lemma ViewTop(stack: seq<D.Diff>, top: D.Diff, p: string, content: string)
    requires p in top && top[p] == D.Data(content)
    ensures p in D.View(stack + [top]) && D.View(stack + [top])[p] == content
  {
    assert (stack + [top])[..|stack|] == stack;
  }

  lemma OldFileShows()
    ensures var tree := D.View([F.A_CHANGE, F.D_CHANGE, F.A_CHANGE, map[]]); CopyOn(tree) == D_OWN
  {
    var below := [F.A_CHANGE, F.D_CHANGE];
    ViewTop(below, F.A_CHANGE, "f", "a");
    ViewEmptyTop(below + [F.A_CHANGE]);
    assert below + [F.A_CHANGE] + [map[]] == [F.A_CHANGE, F.D_CHANGE, F.A_CHANGE, map[]];
  }

  lemma DSetsUp(d: D.Disk)
    requires BOnDisk(d)
    ensures D.SetupRootfs(d, "D", D.Built("B"), F.TAR).Ok?
  {
    F.NotEmpty();
    var both := [F.Blob(F.A_CHANGE), F.Blob(F.D_CHANGE)];
    assert D.Picked(d.meta["B"], F.TAR) == both;
    forall x | x in both ensures Available(d, x) {
      assert d.store[x] == x.diff;
    }
    SetupSucceedsIff(d, "D", D.Built("B"), F.TAR);
  }

  lemma DRunsOn(d: D.Disk)
    requires BOnDisk(d)
    ensures D.SetupRootfs(d, "D", D.Built("B"), F.TAR).Ok?
    ensures var tree := ViewOf(D.SetupRootfs(d, "D", D.Built("B"), F.TAR).value, "D", F.TAR);
      tree.Some? && CopyOn(tree.value) == D_OWN
  {
    DSetsUp(d);
    MountOfB(d);
    SnapshotKeepsView(d, "B", "D", F.TAR, F.TAR);
    SnapshotShape(d, "B", "D", F.TAR);
    OldFileShows();
  }

  lemma TakesD(c: Store)
    requires BStands(c)
    ensures Takes(c, TheWorld("old b"), "D", STEP_D)
  {
    DRunsOn(c.sys.disk);
    var w := RealWorld(c, TheWorld("old b"));
    assert DefOf(TheMeaning(), w, COPIES) == Ok(D.LayerDef(D.Built("B"), false));
    assert CanPick(c.sys.disk, D.Built("B"), F.TAR);
  }

  lemma NextD(sys: R.Sys) returns (sys': R.Sys)
    requires R.Inv(sys, F.LTS) && "B" in sys.built && sys.built["B"] == F.LINEAGE_OLD_B && BOnDisk(sys.disk)
    ensures R.Next(sys, STEP_D, F.LTS) == Ok(sys') && "D" in sys'.built && sys'.built["D"] == LINEAGE_D
    ensures R.Inv(sys', F.LTS)
  {
    DSetsUp(sys.disk);
    assert R.Names(F.LINEAGE_OLD_B) == R.Names(F.LINEAGE_A) + {"B"};
    assert R.LineageOf(sys, STEP_D, F.LTS) == Ok(LINEAGE_D);
    StepKeepsInv(sys, STEP_D, F.LTS);
    sys' := R.Next(sys, STEP_D, F.LTS).value;
  }

  lemma DReady(c: Store, w0: World)
    requires w0 == TheWorld("old b") && HasB(c.s, "old b") && "D" !in c.s.cache
    ensures Ranked(w0) && "D" in w0.layers && w0.layers["D"] == COPIES && Bare(COPIES)
    ensures var w := RealWorld(c, w0);
      Ranked(w) && LookupEntry(w, Started(c, "D").s, "D") == Miss && BaseReady(c, w0, "D")
  {
    BHits(RealWorld(c, w0), Started(c, "D").s, "old b");
  }

  lemma TurnOfD(c: Store) returns (c': Store)
    requires BStands(c)
    ensures TheTurn(c, TheWorld("old b"), "D") == Ok(c') && "D" in c'.made && c'.made["D"] == LINEAGE_D
    ensures R.Inv(c'.sys, F.LTS) && "D" in c'.sys.built && c'.sys.built["D"] == LINEAGE_D
  {
    var w0 := TheWorld("old b");
    TakesD(c);
    var sys := NextD(c.sys);
    DReady(c, w0);
    c' := TurnRebuilds(c, w0, "D", STEP_D, sys);
  }

  lemma ImageOfD(sys: R.Sys)
    requires R.Inv(sys, F.LTS) && "D" in sys.built && sys.built["D"] == LINEAGE_D
    ensures D.Ref("D", F.TAR) in sys.disk.images && R.Clean(LINEAGE_D)
    ensures D.Diffs(sys.disk.images[D.Ref("D", F.TAR)]) == [F.A_CHANGE, F.D_CHANGE, D_OWN]
  {
    F.NotEmpty();
    assert "g" in D_OWN;
    assert R.Good(sys.disk, sys.built, "D", F.LTS);
    ImageListed(sys.disk, LINEAGE_D, F.LTS, F.TAR);
    assert R.Expected(F.LINEAGE_A) == [F.A_CHANGE];
    assert R.Expected(F.LINEAGE_OLD_B) == [F.A_CHANGE, F.D_CHANGE];
    assert R.Expected(LINEAGE_D) == [F.A_CHANGE, F.D_CHANGE, D_OWN];
  }

  // ----- a clean build -----

  function OldB(): Fs {
    Fs(On(CLEAN_A), B("old b"), map[], [], None, [])
  }

  function CleanD(): Fs {
    Fs(On(OldB()), COPIES, map[], [], None, [])
  }

  lemma OldScripts()
    ensures ChangeOf(B("old b").run) == F.D_CHANGE && B("old b").run != COPY
  {
    assert B("old b").run[0][0] == 'o' && COPY[0][0] == 'c';
  }

  lemma OldStack(a: Fs, b: Fs)
    requires a.base == Empty && a.layer == A && b.base == On(a) && b.layer == B("old b")
    ensures StackOf(TheMeaning(), b) == [F.A_CHANGE, F.D_CHANGE]
  {
    F.NotEmpty();
    ScriptsLeave();
    OldScripts();
    ChangeBy(a);
    ChangeBy(b);
    StackOn(TheMeaning(), a, []);
    StackOn(TheMeaning(), b, [F.A_CHANGE]);
  }

  lemma CleanStackOfD(b: Fs, fs: Fs)
    requires StackOf(TheMeaning(), b) == [F.A_CHANGE, F.D_CHANGE] && fs.base == On(b) && fs.layer == COPIES
    ensures StackOf(TheMeaning(), fs) == [F.A_CHANGE, F.D_CHANGE, map["g" := D.Data("d")]]
  {
    assert [F.A_CHANGE] + [F.D_CHANGE] == [F.A_CHANGE, F.D_CHANGE];
    ViewTop([F.A_CHANGE], F.D_CHANGE, "f", "d");
    assert Change(TheMeaning(), fs) == CopyOn(D.View([F.A_CHANGE, F.D_CHANGE]));
    assert "g" in CopyOn(D.View([F.A_CHANGE, F.D_CHANGE]));
    StackOn(TheMeaning(), fs, [F.A_CHANGE, F.D_CHANGE]);
  }

  lemma CleanRunOfD()
    ensures FreshRun(TheWorld("old b"), ["A", "B", "D"]).Ok?
    ensures var clean := FreshRun(TheWorld("old b"), ["A", "B", "D"]).value; "D" in clean && clean["D"] == Some(CleanD())
  {
    var w := TheWorld("old b");
    assert ["A", "B", "D"][..2] == ["A", "B"] && ["A", "B"][..1] == ["A"] && ["A"][..0] == [];
    NothingUnseen(w, map[], A);
    assert FreshRun(w, ["A"]) == Ok(map["A" := Some(CLEAN_A)]);
    NothingUnseen(w, map["A" := Some(CLEAN_A)], B("old b"));
    assert FreshRun(w, ["A", "B"]) == Ok(map["A" := Some(CLEAN_A), "B" := Some(OldB())]);
    NothingUnseen(w, map["A" := Some(CLEAN_A), "B" := Some(OldB())], COPIES);
  }

  // ----- the history -----

  ghost predicate AllTurned(hs: seq<Happening>) {
    forall h <- hs :: h.Turned?
  }

  lemma FirstAllTurned(none: seq<Happening>)
    requires none == []
    ensures AllTurned(FirstRuns(none))
  {
  }

  lemma AAgain(first: seq<Happening>, c: Store) returns (hs: seq<Happening>, c': Store)
    requires After(first) == Ok(c) && AllTurned(first)
    requires F.ADrained(c.sys) && F.BDrained(c.sys) && HasB(c.s, "old b") && "D" !in c.s.cache
    ensures After(hs) == Ok(c') && ABuiltAgain(c') && AllTurned(hs)
  {
    AfterInv(first, c);
    c' := TwoTurnsOfA(first, c);
    hs := first + [Turned(WorldWith(EDITED), "A", CHOICES)] + [Turned(WorldWith(A), "A", CHOICES)];
    AfterInv(hs, c');
    AfterBoth(c, c');
  }

  /** The builds before B comes back. */
  lemma BuiltTwice(none: seq<Happening>) returns (hs: seq<Happening>, c: Store)
    requires none == []
    ensures After(hs) == Ok(c) && ABuiltAgain(c) && AllTurned(hs)
  {
    var first := FirstBuild(none);
    FirstAllTurned(none);
    hs, c := AAgain(FirstRuns(none), first);
  }

  lemma BAndD(past: seq<Happening>, c: Store) returns (c': Store)
    requires After(past) == Ok(c) && ABuiltAgain(c)
    ensures After(past + [TurnOf("old b", "B")] + [TurnOf("old b", "D")]) == Ok(c')
    ensures "D" in c'.made && R.Clean(c'.made["D"]) && D.Ref("D", F.TAR) in c'.sys.disk.images
    ensures D.Diffs(c'.sys.disk.images[D.Ref("D", F.TAR)]) == [F.A_CHANGE, F.D_CHANGE, D_OWN]
  {
    var b := TurnOfB(c);
    OneMore(past, c, "old b", "B");
    AfterInv(past + [TurnOf("old b", "B")], b);
    c' := TurnOfD(b);
    OneMore(past + [TurnOf("old b", "B")], b, "old b", "D");
    ImageOfD(c'.sys);
  }

  /** After a past of completed turns, B comes back in a turn that hits, and D is built on it.  D's image
      has the older version of the file where a clean build has the newer.  No layer of D's lineage is
      stale; but B's mount is not what its build left, and the condition of SoundIffDrained fails. */
  lemma ReturningBaseIsMountedTwice() returns (past: seq<Happening>, c: Store)
    ensures After(past) == Ok(c) && AllTurned(past)
    ensures Returns(Started(c, "B"), "B", F.LTS) && R.Clean(c.made["B"])
    ensures HoldsAbove(c.sys.disk, c.made["B"], Some(c.made["B"])) && RecordsUpTo(c.sys.disk, c.made["B"], Some(c.made["B"]))
    ensures !RecordedAreDrained(c.sys.disk, Some(c.made["B"]))
    ensures "B" in c.s.cache && !SafeUse(Started(c, "B"), "B", c.s.cache["B"], F.LTS)
    ensures var r := After(past + [TurnOf("old b", "B")] + [TurnOf("old b", "D")]);
      && r.Ok? && "D" in r.value.made && R.Clean(r.value.made["D"]) && D.Ref("D", F.TAR) in r.value.sys.disk.images
      && D.Diffs(r.value.sys.disk.images[D.Ref("D", F.TAR)]) == [F.A_CHANGE, F.D_CHANGE, map["g" := D.Data("a")]]
    ensures StackOf(TheMeaning(), CleanD()) == [F.A_CHANGE, F.D_CHANGE, map["g" := D.Data("d")]]
    ensures FreshRun(TheWorld("old b"), ["A", "B", "D"]).Ok?
    ensures var clean := FreshRun(TheWorld("old b"), ["A", "B", "D"]).value; "D" in clean && clean["D"] == Some(CleanD())
  {
    var none: seq<Happening> := [];
    past, c := BuiltTwice(none);
    BComesBack(c);
    BIsNotIntact(c);
    BIsUnsafe(c);
    var d := BAndD(past, c);
    OldStack(CLEAN_A, OldB());
    CleanStackOfD(OldB(), CleanD());
    CleanRunOfD();
  }
}

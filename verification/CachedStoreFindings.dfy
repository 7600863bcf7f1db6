/** A cached build that ships something else than a clean one: A, B and C are built; B is edited and
    everything is built again.  A's entry hits, so A stays drained; B is set up with A's metadata, which
    says that A has been output; C changes nothing, so repacking it adds A's layer a second time, on top
    of the edited B.  CachedStoreMounts.dfy says exactly when this happens. */
module CachedStoreFindings {
  import opened Wrappers
  import opened CacheModel
  import opened CacheProofs
  import opened CacheTheorems
  import opened CacheSuccess
  import opened CachedStore
  import opened CachedStoreProofs
  import opened CachedStoreTheorems
  import D = OverlayDisk
  import R = OverlayRuns
  import F = OverlayFindings

  const A := Layer(Scratch, [], [], ["make a"], [], true)
  const C := Layer(Built("B"), [], [], ["true"], [], false)

  // Not part of the first finding.
  const COPIES := Layer(Built("B"), [], [], COPY, [], false)

  function B(run: string): Layer {
    Layer(Built("A"), [], [], [run], [], true)
  }

  function ChangeOf(run: seq<string>): D.Diff {
    if run == ["make a"] then F.A_CHANGE
    else if run == ["old b"] then F.D_CHANGE
    else if run == ["new b"] then F.B_CHANGE
    else map[]
  }

  // Copying `f` to `g`.
  const COPY := ["copy f"]

  function CopyOn(tree: D.Tree): D.Diff {
    if "f" in tree then map["g" := D.Data(tree["f"])] else map[]
  }

  /** Every script leaves its own change, and only the one that copies reads what it runs on. */
  function TheMeaning(): Meaning {
    Meaning(
      (tree: D.Tree, inputs: Inputs) => if inputs.layer.run == COPY then CopyOn(tree) else ChangeOf(inputs.layer.run),
      (digest: string) => D.Source(F.TAR, []),
      (tree: D.Tree, path: string) => None)
  }

  function TheWorld(run: string): World {
    World(map["A" := A, "B" := B(run), "C" := C, "D" := COPIES], map["A" := 0, "B" := 1, "C" := 2, "D" := 2],
          map[], map[], map[], map[], None, IdealGrab(TheMeaning()))
  }

  const CHOICES := Choices(F.TAR, F.TAR, (n: Name) => F.TAR, F.Fixed())

  ghost predicate IsWorld(w: World, run: string) {
    w == TheWorld(run).(grab := w.grab)
  }

  // ----- the cache's side -----

  // The entry of a layer from scratch that is just its commands.
  function ScratchEntry(n: Name, l: Layer): CacheEntry {
    CacheEntry(BuildOnlyManifests(F.LTS), map[], map[], n, l, NoBase, None)
  }

  ghost predicate HasA(s: State) {
    "A" in s.cache && s.cache["A"] == ScratchEntry("A", A) && "A" in s.roots && s.roots["A"].Some?
  }

  ghost predicate HasB(s: State, run: string) {
    && HasA(s) && "B" in s.cache && s.cache["B"].layer == B(run) && s.cache["B"].base == EntryHash(s.cache["A"])
    && s.cache["B"].epoch == None && "B" in s.roots && s.roots["B"].Some?
  }

  lemma AHits(w: World, s: State, run: string)
    requires IsWorld(w, run) && HasA(s)
    ensures Ranked(w) && LookupEntry(w, s, "A") == Hit(s.cache["A"])
  {
    assert GetBaseHash(w, s, "A") == Ok(NoBase);
  }

  lemma BHits(w: World, s: State, run: string)
    requires IsWorld(w, run) && HasB(s, run)
    ensures Ranked(w) && LookupEntry(w, s, "B") == Hit(s.cache["B"])
  {
    AHits(w, s, run);
    assert GetBaseHash(w, s, "B") == Ok(EntryHash(s.cache["A"]));
  }

  lemma BMisses(w: World, s: State, run: string)
    requires IsWorld(w, run) && HasA(s) && ("B" in s.cache ==> s.cache["B"].layer != B(run))
    ensures Ranked(w) && LookupEntry(w, s, "B") == Miss
  {
  }

  lemma CMisses(w: World, s: State, run: string)
    requires IsWorld(w, run) && HasB(s, run) && ("C" in s.cache ==> s.cache["C"].base != EntryHash(s.cache["B"]))
    ensures Ranked(w) && LookupEntry(w, s, "C") == Miss
  {
    BHits(w, s, run);
    assert GetBaseHash(w, s, "C") == Ok(EntryHash(s.cache["B"]));
  }

  /** A layer that is just its commands. */
  predicate Bare(l: Layer) {
    l.imports == [] && l.overlayDirs == [] && l.binds == [] && !l.from.Tar? && !l.from.Image?
  }

  lemma BareFs(w: World, s: State, n: Name)
    requires n in w.layers && Bare(w.layers[n])
    requires w.layers[n].from.Built? ==> w.layers[n].from.tag != n && w.layers[n].from.tag in s.roots
    ensures BuildFs(w, s.roots - {n}, w.layers[n], map[]).Ok?
  {
  }

  lemma BareRebuilds(w: World, s: State, n: Name, emitted: Emitted)
    requires Ranked(w) && n in w.layers && Bare(w.layers[n]) && n in s.imported && s.imported[n] == map[]
    requires w.layers[n].from.Built? ==>
      var tag := w.layers[n].from.tag;
      tag != n && tag in w.layers && LookupEntry(w, s, tag).Hit? && tag in s.roots && s.roots[tag].Some?
    ensures var r := Rebuild(w, s, n, F.LTS, emitted);
      && r.Ok? && n in r.value.cache && r.value.cache == s.cache[n := r.value.cache[n]]
      && r.value.cache[n].layer == w.layers[n] && r.value.cache[n].epoch == w.epoch
      && GetBaseHash(w, s, n) == Ok(r.value.cache[n].base)
      && n in r.value.roots && r.value.roots[n].Some? && r.value.roots == s.roots[n := r.value.roots[n]]
  {
    BareFs(w, s, n);
    RebuildSucceeds(w, s, n, F.LTS, emitted);
    RecordedBase(w, s, n, F.LTS, emitted);
    RebuildShape(w, s, n, F.LTS, emitted);
    RootIsWhole(w, s, n, F.LTS, emitted);
  }

  lemma ScratchPut(w: World, s: State, n: Name, emitted: Emitted)
    requires Ranked(w) && n in w.layers && Bare(w.layers[n]) && n in s.imported && Rebuild(w, s, n, F.LTS, emitted).Ok?
    requires w.layers[n].from == Scratch && w.layers[n].buildOnly && w.epoch == None
    ensures var r := Rebuild(w, s, n, F.LTS, emitted).value; n in r.cache && r.cache[n] == ScratchEntry(n, w.layers[n])
  {
    var fs := BuildFs(w, s.roots - {n}, w.layers[n], s.imported[n]).value;
    RebuildIs(w, s, n, F.LTS, emitted);
    ScratchPuts(w, Ran(w, s, n, fs, F.LTS, emitted), n);
  }

  lemma ScratchPuts(w: World, s: State, n: Name)
    requires Ranked(w) && n in w.layers && Bare(w.layers[n]) && w.layers[n].from == Scratch && w.epoch == None
    ensures Put(w, s, n, BuildOnlyManifests(F.LTS)) == Ok(s.(cache := s.cache[n := ScratchEntry(n, w.layers[n])]))
  {
    assert RecordImports(s, n, []) == Ok(map[]) && RecordOverlays(w, []) == Ok(map[]);
    assert GetBaseHash(w, s, n) == Ok(NoBase);
  }

  // ----- turns -----

  lemma BareStarts(w: World, s: State, n: Name)
    requires n in w.layers && Bare(w.layers[n])
    ensures StartLayer(w, s, n) == Ok(s.(imported := s.imported[n := map[]]))
  {
    assert ImportAll(w, s.roots, []) == Ok(map[]);
  }

  function Started(c: Store, n: Name): Store {
    c.(s := c.s.(imported := c.s.imported[n := map[]]))
  }

  ghost function RealWorld(c: Store, w: World): World {
    Real(TheMeaning(), w, c.sys.disk, CHOICES.picks)
  }

  ghost function TheTurn(c: Store, w: World, n: Name): Result<Store> {
    if Ranked(w) then Turn(TheMeaning(), w, c, n, F.LTS, CHOICES) else Err
  }

  ghost predicate Takes(c: Store, w: World, n: Name, step: R.Step)
    requires n in w.layers
  {
    StepFor(TheMeaning(), RealWorld(c, w), Started(c, n), n, CHOICES) == Ok(step)
  }

  /** What a turn comes to once the lookup has missed. */
  lemma MissRebuilds(c: Store, w0: World, n: Name)
    requires Ranked(w0)
    requires var w := RealWorld(c, w0);
      Ranked(w) && n in w.layers && Bare(w.layers[n]) && LookupEntry(w, Started(c, n).s, n) == Miss
    ensures TheTurn(c, w0, n) == Rebuilt(TheMeaning(), RealWorld(c, w0), Started(c, n), n, F.LTS, CHOICES)
  {
    BareStarts(RealWorld(c, w0), c.s, n);
  }

  ghost predicate BaseReady(c: Store, w0: World, n: Name)
    requires n in w0.layers
  {
    var w := RealWorld(c, w0);
    w.layers[n].from.Built? ==>
      var tag := w.layers[n].from.tag;
      && tag != n && tag in w.layers && Ranked(w) && LookupEntry(w, Started(c, n).s, tag).Hit?
      && tag in c.s.roots && c.s.roots[tag].Some?
  }

  ghost predicate Inv(c: Store) {
    StoreInv(TheMeaning(), c, F.LTS)
  }

  lemma StartedInv(c: Store, w: World, n: Name)
    requires Inv(c) && n in w.layers && Bare(w.layers[n])
    ensures Inv(Started(c, n))
  {
    BareStarts(RealWorld(c, w), c.s, n);
    StartInv(TheMeaning(), RealWorld(c, w), c, n, F.LTS);
  }

  lemma TurnIsRebuild(c: Store, w0: World, n: Name, step: R.Step, sys: R.Sys) returns (c': Store)
    requires Ranked(w0) && Inv(c)
    requires var w := RealWorld(c, w0);
      Ranked(w) && n in w.layers && Bare(w.layers[n]) && LookupEntry(w, Started(c, n).s, n) == Miss
    requires BaseReady(c, w0, n) && Takes(c, w0, n, step) && step.name == n
    requires R.Next(c.sys, step, F.LTS) == Ok(sys)
    ensures TheTurn(c, w0, n) == Ok(c') && n in sys.built && c'.sys == sys && c'.made == c.made[n := sys.built[n]]
    ensures Rebuild(RealWorld(c, w0), Started(c, n).s, n, F.LTS, Emits(sys.disk)) == Ok(c'.s)
  {
    var w := RealWorld(c, w0);
    BareRebuilds(w, Started(c, n).s, n, Emits(sys.disk));
    MissRebuilds(c, w0, n);
    StartedInv(c, w0, n);
    NextIsRebuilt(TheMeaning(), w, Started(c, n), n, F.LTS, CHOICES, sys);
    c' := Store(Rebuild(w, Started(c, n).s, n, F.LTS, Emits(sys.disk)).value, sys, c.made[n := sys.built[n]]);
  }

  lemma TurnRebuilds(c: Store, w0: World, n: Name, step: R.Step, sys: R.Sys) returns (c': Store)
    requires Ranked(w0) && Inv(c)
    requires var w := RealWorld(c, w0);
      Ranked(w) && n in w.layers && Bare(w.layers[n]) && LookupEntry(w, Started(c, n).s, n) == Miss
    requires BaseReady(c, w0, n) && Takes(c, w0, n, step) && step.name == n
    requires R.Next(c.sys, step, F.LTS) == Ok(sys)
    ensures TheTurn(c, w0, n) == Ok(c') && n in sys.built && c'.sys == sys && c'.made == c.made[n := sys.built[n]]
    ensures n in c'.s.cache && c'.s.cache == c.s.cache[n := c'.s.cache[n]] && c'.s.cache.Keys == c.s.cache.Keys + {n}
    ensures c'.s.cache[n].layer == w0.layers[n] && c'.s.cache[n].epoch == w0.epoch
    ensures GetBaseHash(RealWorld(c, w0), Started(c, n).s, n) == Ok(c'.s.cache[n].base)
    ensures n in c'.s.roots && c'.s.roots[n].Some? && c'.s.roots == c.s.roots[n := c'.s.roots[n]]
    ensures Rebuild(RealWorld(c, w0), Started(c, n).s, n, F.LTS, Emits(sys.disk)) == Ok(c'.s)
  {
    c' := TurnIsRebuild(c, w0, n, step, sys);
    BareRebuilds(RealWorld(c, w0), Started(c, n).s, n, Emits(sys.disk));
  }

  lemma StepA()
    ensures var c := Begin({});
      Takes(c, TheWorld("old b"), "A", F.STEP_A)
  {
    var c := Begin({});
    assert D.Delete(c.sys.disk, "A") == c.sys.disk;
    ScriptsLeave();
  }

  lemma AMisses(w: World, s: State, run: string)
    requires IsWorld(w, run) && "A" !in s.cache
    ensures Ranked(w) && LookupEntry(w, s, "A") == Miss && GetBaseHash(w, s, "A") == Ok(NoBase)
  {
  }

  lemma FirstA(c: Store, run: string, step: R.Step, sys: R.Sys) returns (a: Store)
    requires Inv(c) && "A" !in c.s.cache && Takes(c, TheWorld(run), "A", step) && step.name == "A" && R.Next(c.sys, step, F.LTS) == Ok(sys)
    ensures TheTurn(c, TheWorld(run), "A") == Ok(a) && a.sys == sys && HasA(a.s) && a.s.cache.Keys == c.s.cache.Keys + {"A"}
  {
    var w0 := TheWorld(run);
    AMisses(RealWorld(c, w0), Started(c, "A").s, run);
    assert w0.layers["A"] == A && w0.epoch == None && BaseReady(c, w0, "A");
    a := TurnRebuilds(c, w0, "A", step, sys);
    ScratchPut(RealWorld(c, w0), Started(c, "A").s, "A", Emits(sys.disk));
  }

  lemma TurnA() returns (a: Store)
    ensures TheTurn(Begin({}), TheWorld("old b"), "A") == Ok(a)
    ensures a.sys == F.SYS_A && HasA(a.s) && a.s.cache.Keys == {"A"}
  {
    StepA();
    F.AfterA();
    BeginInv(TheMeaning(), {}, F.LTS);
    a := FirstA(Begin({}), "old b", F.STEP_A, F.SYS_A);
  }

  /** A, which stands, hits, and nothing changes. */
  lemma TurnAHits(c: Store, run: string)
    requires HasA(c.s) && "A" in c.sys.built
    ensures var r := TheTurn(c, TheWorld(run), "A");
      r.Ok? && r.value == Started(c, "A")
  {
    BareStarts(RealWorld(c, TheWorld(run)), c.s, "A");
    AHits(RealWorld(c, TheWorld(run)), Started(c, "A").s, run);
  }

  /** B's turn misses, and its base hits. */
  lemma BReady(c: Store, w0: World, run: string)
    requires w0 == TheWorld(run) && HasA(c.s) && ("B" in c.s.cache ==> c.s.cache["B"].layer != B(run))
    ensures Ranked(w0) && "B" in w0.layers && w0.layers["B"] == B(run) && Bare(w0.layers["B"]) && w0.epoch == None
    ensures var w := RealWorld(c, w0);
      && Ranked(w) && LookupEntry(w, Started(c, "B").s, "B") == Miss && BaseReady(c, w0, "B")
      && GetBaseHash(w, Started(c, "B").s, "B") == Ok(EntryHash(c.s.cache["A"]))
  {
    var w, s := RealWorld(c, w0), Started(c, "B").s;
    BMisses(w, s, run);
    AHits(w, s, run);
  }

  lemma TurnB(c: Store, run: string, step: R.Step, sys: R.Sys) returns (c': Store)
    requires Inv(c) && HasA(c.s) && ("B" in c.s.cache ==> c.s.cache["B"].layer != B(run))
    requires Takes(c, TheWorld(run), "B", step) && step.name == "B" && R.Next(c.sys, step, F.LTS) == Ok(sys)
    ensures TheTurn(c, TheWorld(run), "B") == Ok(c')
    ensures c'.sys == sys && HasB(c'.s, run) && c'.s.cache == c.s.cache["B" := c'.s.cache["B"]]
  {
    var w0 := TheWorld(run);
    BReady(c, w0, run);
    c' := TurnRebuilds(c, w0, "B", step, sys);
  }

  lemma CReady(c: Store, w0: World, run: string)
    requires w0 == TheWorld(run) && HasB(c.s, run) && ("C" in c.s.cache ==> c.s.cache["C"].base != EntryHash(c.s.cache["B"]))
    ensures Ranked(w0) && "C" in w0.layers && w0.layers["C"] == C && Bare(w0.layers["C"]) && w0.epoch == None
    ensures var w := RealWorld(c, w0);
      && Ranked(w) && LookupEntry(w, Started(c, "C").s, "C") == Miss && BaseReady(c, w0, "C")
      && GetBaseHash(w, Started(c, "C").s, "C") == Ok(EntryHash(c.s.cache["B"]))
  {
    var w, s := RealWorld(c, w0), Started(c, "C").s;
    CMisses(w, s, run);
    BHits(w, s, run);
  }

  lemma TurnC(c: Store, run: string, step: R.Step, sys: R.Sys) returns (c': Store)
    requires Inv(c) && HasB(c.s, run) && ("C" in c.s.cache ==> c.s.cache["C"].base != EntryHash(c.s.cache["B"]))
    requires Takes(c, TheWorld(run), "C", step) && step.name == "C" && R.Next(c.sys, step, F.LTS) == Ok(sys)
    ensures TheTurn(c, TheWorld(run), "C") == Ok(c')
    ensures c'.sys == sys && HasB(c'.s, run) && c'.s.cache.Keys == c.s.cache.Keys + {"C"}
    ensures c'.s.cache["C"].base == EntryHash(c'.s.cache["B"]) && c'.s.cache["B"] == c.s.cache["B"]
    ensures "C" in sys.built && "C" in c'.made && c'.made["C"] == sys.built["C"]
  {
    var w0 := TheWorld(run);
    CReady(c, w0, run);
    c' := TurnRebuilds(c, w0, "C", step, sys);
  }

  // ----- the overlay's side -----

  lemma TakesOn(c: Store, run: string, n: Name, tag: Name)
    requires n in TheWorld(run).layers && TheWorld(run).layers[n].from == Built(tag) && TheWorld(run).layers[n].run != COPY
    requires R.StoreOk(c.sys.disk) && tag in c.sys.disk.meta && tag in c.sys.disk.upper && tag != n
    requires D.SetupRootfs(c.sys.disk, n, D.Built(tag), F.TAR).Ok?
    requires forall x <- c.sys.disk.meta[tag].builtLayers :: x in c.sys.disk.upper
    requires D.Picks(c.sys.disk.meta[tag], F.TAR)
    ensures var l := TheWorld(run).layers[n];
      Takes(c, TheWorld(run), n, R.Step(n, D.LayerDef(D.Built(tag), l.buildOnly), ChangeOf(l.run), F.TAR, F.Fixed()))
  {
    var d := D.SetupRootfs(c.sys.disk, n, D.Built(tag), F.TAR).value;
    SetUpIsMounted(c.sys.disk, n, tag);
    assert DefOf(TheMeaning(), RealWorld(c, TheWorld(run)), TheWorld(run).layers[n]) == Ok(D.LayerDef(D.Built(tag), TheWorld(run).layers[n].buildOnly));
  }

  lemma SetUpIsMounted(d: D.Disk, n: Name, tag: Name)
    requires R.StoreOk(d) && tag in d.meta && tag in d.upper && tag != n
    requires D.SetupRootfs(d, n, D.Built(tag), F.TAR).Ok?
    requires (forall x <- d.meta[tag].builtLayers :: x in d.upper) && D.Picks(d.meta[tag], F.TAR)
    ensures ViewOf(D.SetupRootfs(d, n, D.Built(tag), F.TAR).value, n, F.TAR).Some?
  {
    F.Shape(d, tag, n);
  }

  lemma TakesOldB(c: Store)
    requires c.sys == F.SYS_A
    ensures Takes(c, TheWorld("old b"), "B", F.STEP_OLD_B)
  {
    F.SnapshotOfA(F.DISK_A, "B", F.D_CHANGE);
    TakesOn(c, "old b", "B", "A");
  }

  lemma TakesFirstC(c: Store)
    requires c.sys == F.SYS_OLD_B
    ensures Takes(c, TheWorld("old b"), "C", F.STEP_C)
  {
    F.RanFirstC();
    TakesOn(c, "old b", "C", "B");
  }

  lemma TakesNewB(c: Store)
    requires F.ADrained(c.sys)
    ensures Takes(c, TheWorld("new b"), "B", F.STEP_B)
  {
    F.SnapshotReady(c.sys.disk, "A", "B");
    TakesOn(c, "new b", "B", "A");
  }

  lemma TakesNewC(c: Store)
    requires F.ADrained(c.sys) && "B" in c.sys.built && c.sys.built["B"] == F.LINEAGE_B
    requires "B" in c.sys.disk.meta && c.sys.disk.meta["B"] == F.META_B && "B" in c.sys.disk.upper && c.sys.disk.upper["B"] == F.B_CHANGE
    ensures Takes(c, TheWorld("new b"), "C", F.STEP_C)
  {
    F.EditedC(c.sys);
    TakesOn(c, "new b", "C", "B");
  }

  // ----- the history -----

  function TurnOf(run: string, n: Name): Happening {
    Turned(TheWorld(run), n, CHOICES)
  }

  ghost function After(hs: seq<Happening>): Result<Store> {
    History(TheMeaning(), {}, F.LTS, hs)
  }

  lemma OneMore(hs: seq<Happening>, c: Store, run: string, n: Name)
    requires After(hs) == Ok(c)
    ensures After(hs + [TurnOf(run, n)]) == TheTurn(c, TheWorld(run), n)
  {
    assert (hs + [TurnOf(run, n)])[..|hs|] == hs;
    assert Ranked(TheWorld(run));
  }

  lemma AfterInv(hs: seq<Happening>, c: Store)
    requires After(hs) == Ok(c)
    ensures Inv(c)
  {
    HistoryInv(TheMeaning(), {}, F.LTS, hs);
  }

  lemma OldBNext(hs: seq<Happening>, a: Store) returns (b: Store)
    requires After(hs) == Ok(a) && a.sys == F.SYS_A && HasA(a.s) && a.s.cache.Keys == {"A"}
    ensures After(hs + [TurnOf("old b", "B")]) == Ok(b)
    ensures b.sys == F.SYS_OLD_B && HasB(b.s, "old b") && b.s.cache.Keys == {"A", "B"}
  {
    TakesOldB(a);
    F.AfterOldB();
    AfterInv(hs, a);
    b := TurnB(a, "old b", F.STEP_OLD_B, F.SYS_OLD_B);
    OneMore(hs, a, "old b", "B");
  }

  lemma ANext(hs: seq<Happening>) returns (a: Store)
    requires After(hs) == Ok(Begin({}))
    ensures After(hs + [TurnOf("old b", "A")]) == Ok(a)
    ensures a.sys == F.SYS_A && HasA(a.s) && a.s.cache.Keys == {"A"}
  {
    a := TurnA();
    OneMore(hs, Begin({}), "old b", "A");
  }

  lemma FirstB(none: seq<Happening>) returns (b: Store)
    requires none == []
    ensures After(none + [TurnOf("old b", "A")] + [TurnOf("old b", "B")]) == Ok(b)
    ensures b.sys == F.SYS_OLD_B && HasB(b.s, "old b") && b.s.cache.Keys == {"A", "B"}
  {
    var a := ANext(none);
    b := OldBNext(none + [TurnOf("old b", "A")], a);
  }

  function FirstRuns(none: seq<Happening>): seq<Happening> {
    none + [TurnOf("old b", "A")] + [TurnOf("old b", "B")] + [TurnOf("old b", "C")]
  }

  lemma FirstCTurn(b: Store) returns (c: Store)
    requires Inv(b) && b.sys == F.SYS_OLD_B && HasB(b.s, "old b") && b.s.cache.Keys == {"A", "B"}
    ensures TheTurn(b, TheWorld("old b"), "C") == Ok(c) && R.Next(F.SYS_OLD_B, F.STEP_C, F.LTS) == Ok(c.sys)
    ensures HasB(c.s, "old b") && c.s.cache.Keys == b.s.cache.Keys + {"C"} && c.s.cache["C"].base == EntryHash(c.s.cache["B"])
  {
    TakesFirstC(b);
    F.AfterFirstC();
    c := TurnC(b, "old b", F.STEP_C, R.Next(F.SYS_OLD_B, F.STEP_C, F.LTS).value);
  }

  lemma FirstCNext(hs: seq<Happening>, b: Store) returns (c: Store)
    requires After(hs) == Ok(b) && b.sys == F.SYS_OLD_B && HasB(b.s, "old b") && b.s.cache.Keys == {"A", "B"}
    ensures After(hs + [TurnOf("old b", "C")]) == Ok(c) && R.Next(F.SYS_OLD_B, F.STEP_C, F.LTS) == Ok(c.sys)
    ensures HasB(c.s, "old b") && "C" in c.s.cache && c.s.cache["C"].base == EntryHash(c.s.cache["B"]) && "D" !in c.s.cache
  {
    AfterInv(hs, b);
    c := FirstCTurn(b);
    OneMore(hs, b, "old b", "C");
  }

  /** The first build ships what it should. */
  lemma FirstBuild(none: seq<Happening>) returns (c: Store)
    requires none == []
    ensures After(FirstRuns(none)) == Ok(c)
    ensures F.ADrained(c.sys) && F.BDrained(c.sys) && HasB(c.s, "old b")
    ensures "C" in c.s.cache && c.s.cache["C"].base == EntryHash(c.s.cache["B"]) && "D" !in c.s.cache
    ensures D.Ref("C", F.TAR) in c.sys.disk.images && R.Next(F.SYS_OLD_B, F.STEP_C, F.LTS) == Ok(c.sys)
    ensures c.sys.disk.images[D.Ref("C", F.TAR)] == [F.Blob(F.A_CHANGE), F.Blob(F.D_CHANGE)]
  {
    var b := FirstB(none);
    c := FirstCNext(none + [TurnOf("old b", "A")] + [TurnOf("old b", "B")], b);
    F.AfterFirstC();
  }

  lemma SecondB(hs: seq<Happening>, c: Store) returns (b: Store)
    requires After(hs) == Ok(c) && F.ADrained(c.sys) && HasB(c.s, "old b")
    ensures After(hs + [TurnOf("new b", "A")] + [TurnOf("new b", "B")]) == Ok(b)
    ensures HasB(b.s, "new b") && b.s.cache == c.s.cache["B" := b.s.cache["B"]]
    ensures R.Next(c.sys, F.STEP_B, F.LTS) == Ok(b.sys)
  {
    TurnAHits(c, "new b");
    OneMore(hs, c, "new b", "A");
    var a := Started(c, "A");
    AfterInv(hs + [TurnOf("new b", "A")], a);
    TakesNewB(a);
    F.AfterEditedB(a.sys);
    b := TurnB(a, "new b", F.STEP_B, R.Next(a.sys, F.STEP_B, F.LTS).value);
    OneMore(hs + [TurnOf("new b", "A")], a, "new b", "B");
  }

  lemma SecondBuild(hs: seq<Happening>, c: Store) returns (c': Store)
    requires After(hs) == Ok(c) && F.ADrained(c.sys) && HasB(c.s, "old b")
    requires "C" in c.s.cache && c.s.cache["C"].base == EntryHash(c.s.cache["B"])
    ensures After(hs + [TurnOf("new b", "A")] + [TurnOf("new b", "B")] + [TurnOf("new b", "C")]) == Ok(c')
    ensures "C" in c'.made && c'.made["C"] == F.LINEAGE_C && R.Stale(F.LINEAGE_C)
    ensures D.Ref("C", F.TAR) in c'.sys.disk.images
    ensures c'.sys.disk.images[D.Ref("C", F.TAR)] == F.IMAGE_C
  {
    var b := SecondB(hs, c);
    F.AfterEditedB(c.sys);
    TakesNewC(b);
    F.AfterEditedC(b.sys);
    AfterInv(hs + [TurnOf("new b", "A")] + [TurnOf("new b", "B")], b);
    c' := TurnC(b, "new b", F.STEP_C, R.Next(b.sys, F.STEP_C, F.LTS).value);
    OneMore(hs + [TurnOf("new b", "A")] + [TurnOf("new b", "B")], b, "new b", "C");
  }

  // What a clean build of C makes it from.
  const CLEAN_A := Fs(Empty, A, map[], [], None, [])

  function CleanB(): Fs {
    Fs(On(CLEAN_A), B("new b"), map[], [], None, [])
  }

  function CleanC(): Fs {
    Fs(On(CleanB()), C, map[], [], None, [])
  }

  lemma StackOn(m: Meaning, fs: Fs, below: seq<D.Diff>)
    requires BaseStack(m, fs.base) == below
    ensures StackOf(m, fs) == below + D.One(Change(m, fs))
  {
  }

  lemma ChangeBy(fs: Fs)
    requires fs.layer.run != COPY
    ensures Change(TheMeaning(), fs) == ChangeOf(fs.layer.run)
  {
  }

  lemma ScriptsLeave()
    ensures ChangeOf(A.run) == F.A_CHANGE && ChangeOf(B("new b").run) == F.B_CHANGE && ChangeOf(C.run) == map[]
    ensures A.run != COPY && B("new b").run != COPY && C.run != COPY
  {
    assert A.run[0][0] == 'm' && B("new b").run[0][0] == 'n' && C.run[0][0] == 't' && COPY[0][0] == 'c';
  }

  lemma ChainStack(a: Fs, b: Fs, c: Fs)
    requires a.base == Empty && a.layer == A && b.base == On(a) && b.layer == B("new b") && c.base == On(b) && c.layer == C
    ensures StackOf(TheMeaning(), c) == [F.A_CHANGE, F.B_CHANGE]
  {
    F.NotEmpty();
    ScriptsLeave();
    ChangeBy(a);
    ChangeBy(b);
    ChangeBy(c);
    StackOn(TheMeaning(), a, []);
    StackOn(TheMeaning(), b, [F.A_CHANGE]);
    StackOn(TheMeaning(), c, [F.A_CHANGE, F.B_CHANGE]);
  }

  lemma CleanStack()
    ensures StackOf(TheMeaning(), CleanC()) == [F.A_CHANGE, F.B_CHANGE]
  {
    ChainStack(CLEAN_A, CleanB(), CleanC());
  }

  lemma CleanRun()
    ensures FreshRun(TheWorld("new b"), ["A", "B", "C"]).Ok?
    ensures var clean := FreshRun(TheWorld("new b"), ["A", "B", "C"]).value; "C" in clean && clean["C"] == Some(CleanC())
  {
    var w := TheWorld("new b");
    assert ["A", "B", "C"][..2] == ["A", "B"] && ["A", "B"][..1] == ["A"] && ["A"][..0] == [];
    NothingUnseen(w, map[], A);
    assert FreshRun(w, ["A"]) == Ok(map["A" := Some(CLEAN_A)]);
    NothingUnseen(w, map["A" := Some(CLEAN_A)], B("new b"));
    assert FreshRun(w, ["A", "B"]) == Ok(map["A" := Some(CLEAN_A), "B" := Some(CleanB())]);
    NothingUnseen(w, map["A" := Some(CLEAN_A), "B" := Some(CleanB())], C);
  }

  lemma OverwrittenImage()
    ensures D.Diffs(F.IMAGE_C) == [F.A_CHANGE, F.B_CHANGE, F.A_CHANGE]
  {
  }

  /** After the edit C's image lists A's change, B's new change and A's change again; a clean build
      makes it A's and B's. */
  lemma EditedBaseIsOverwritten() returns (hs: seq<Happening>)
    ensures var r := After(hs);
      && r.Ok? && D.Ref("C", F.TAR) in r.value.sys.disk.images && "C" in r.value.made && R.Stale(r.value.made["C"])
      && D.Diffs(r.value.sys.disk.images[D.Ref("C", F.TAR)]) == [F.A_CHANGE, F.B_CHANGE, F.A_CHANGE]
    ensures StackOf(TheMeaning(), CleanC()) == [F.A_CHANGE, F.B_CHANGE]
    ensures FreshRun(TheWorld("new b"), ["A", "B", "C"]).Ok?
    ensures var clean := FreshRun(TheWorld("new b"), ["A", "B", "C"]).value; "C" in clean && clean["C"] == Some(CleanC())
  {
    CleanStack();
    CleanRun();
    var none: seq<Happening> := [];
    var c := FirstBuild(none);
    var first := FirstRuns(none);
    var c' := SecondBuild(first, c);
    hs := first + [TurnOf("new b", "A")] + [TurnOf("new b", "B")] + [TurnOf("new b", "C")];
    OverwrittenImage();
  }
}

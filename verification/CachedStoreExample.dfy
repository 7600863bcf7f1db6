/** The cached build of CachedStoreFindings.dfy meets every hypothesis of the main theorem of
    CachedStoreMounts.dfy. */
module CachedStoreExample {
  import opened Collections
  import opened Wrappers
  import opened CacheModel
  import opened CacheProofs
  import opened CacheTheorems
  import opened CachedStore
  import opened CachedStoreProofs
  import opened CachedStoreTheorems
  import opened CachedStoreMounts
  import opened CachedStoreFindings
  import opened OverlayProofs
  import opened OverlaySteps
  import opened OverlayMounts
  import D = OverlayDisk
  import R = OverlayRuns
  import F = OverlayFindings

  // ----- the run meets every hypothesis of the main theorem -----

  ghost predicate Safe(hs: seq<Happening>) {
    SafeHistory(TheMeaning(), {}, F.LTS, hs)
  }

  lemma SafeNext(hs: seq<Happening>, run: string, n: Name)
    requires Safe(hs) && Ranked(TheWorld(run))
    requires After(hs).Ok? ==> SafeTurn(TheMeaning(), TheWorld(run), After(hs).value, n, F.LTS, CHOICES)
    ensures Safe(hs + [TurnOf(run, n)])
  {
    assert (hs + [TurnOf(run, n)])[..|hs|] == hs;
  }

  lemma NothingRepacked(m: Meaning, w: World, c: Store, n: Name, lts: seq<LayerType>, ch: Choices)
    requires n in w.layers && w.layers[n].buildOnly && n in c.s.imported
    ensures SafeRebuild(m, w, c, n, lts, ch)
  {
    if StepFor(m, w, c, n, ch).Ok? {
      StepIs(m, w, c, n, ch);
    }
  }

  /** The layer misses, or it stands and so does not come back. */
  ghost predicate MissesOrStands(w: World, c: Store, n: Name)
    requires n in w.layers
  {
    n !in c.s.cache || c.s.cache[n].layer != w.layers[n] || n in c.sys.built
  }

  lemma StaysStanding(c: Store, n: Name, e: CacheEntry, lts: seq<LayerType>)
    requires n in c.sys.built
    ensures SafeUse(c, n, e, lts)
  {
  }

  /** A build-only layer's turn repacks nothing. */
  lemma BuildOnlyIsSafe(m: Meaning, w: World, c: Store, n: Name, lts: seq<LayerType>, ch: Choices)
    requires Ranked(w) && n in w.layers && w.layers[n].buildOnly && MissesOrStands(w, c, n)
    ensures SafeTurn(m, w, c, n, lts, ch)
  {
    var w' := Real(m, w, c.sys.disk, ch.picks);
    if StartLayer(w', c.s, n).Ok? {
      var started := c.(s := StartLayer(w', c.s, n).value);
      NothingRepacked(m, w', started, n, lts, ch);
      var hit := LookupEntry(w', started.s, n);
      if hit.Hit? {
        HitMeansCached(w', started.s, n);
        UsedState(started, n, hit.entry, lts);
        StaysStanding(started, n, hit.entry, lts);
        NothingRepacked(m, w', Use(started, n, hit.entry, lts), n, lts, ch);
      }
    }
  }

  lemma NextBare(hs: seq<Happening>, run: string, n: Name)
    requires n in TheWorld(run).layers && TheWorld(run).layers[n].buildOnly && Safe(hs)
    requires After(hs).Ok? ==> MissesOrStands(TheWorld(run), After(hs).value, n)
    ensures Safe(hs + [TurnOf(run, n)])
  {
    assert Ranked(TheWorld(run));
    if After(hs).Ok? {
      BuildOnlyIsSafe(TheMeaning(), TheWorld(run), After(hs).value, n, F.LTS, CHOICES);
    }
    SafeNext(hs, run, n);
  }

  /** C's repack drains A and B, and nothing else stands that is mounted on them. */
  ghost predicate OnlyThese(s: R.Sys) {
    && R.Inv(s, F.LTS) && s.built.Keys <= {"A", "B", "C"} && "A" in s.built && "B" in s.built
    && "A" in s.disk.meta && "B" in s.disk.meta && s.disk.meta["B"].builtLayers == ["A"]
    && "A" in s.disk.upper && "B" in s.disk.upper && s.disk.upper["B"] != map[]
    && (s.disk.upper["A"] == map[] ==> s.disk.meta["A"].hasBuiltOCIOutput)
  }

  lemma SparesBoth(s: R.Sys)
    requires OnlyThese(s) && D.SetupRootfs(s.disk, "C", D.Built("B"), F.TAR).Ok?
    ensures SafeStep(s, F.STEP_C)
  {
    SnapshotShape(s.disk, "B", "C", F.TAR);
    var ran := R.RunContainer(D.SetupRootfs(s.disk, "C", D.Built("B"), F.TAR).value, "C", map[]);
    assert ran.meta["C"].builtLayers == ["A", "B"];
    var built := R.Forget(s.built, "C");
    forall k | k in built ensures k in ran.meta && !Hollows(ran, "C", k) {
      assert R.Good(s.disk, s.built, k, F.LTS);
      NameInNames(s.built[k]);
    }
  }

  lemma SafeC(c: Store, run: string)
    requires HasB(c.s, run) && ("C" in c.s.cache ==> c.s.cache["C"].base != EntryHash(c.s.cache["B"]))
    requires Takes(c, TheWorld(run), "C", F.STEP_C) && OnlyThese(c.sys) && D.SetupRootfs(c.sys.disk, "C", D.Built("B"), F.TAR).Ok?
    ensures Ranked(TheWorld(run)) && SafeTurn(TheMeaning(), TheWorld(run), c, "C", F.LTS, CHOICES)
  {
    BareStarts(RealWorld(c, TheWorld(run)), c.s, "C");
    CMisses(RealWorld(c, TheWorld(run)), Started(c, "C").s, run);
    SparesBoth(c.sys);
  }

  lemma FirstIsSafe(none: seq<Happening>)
    requires none == []
    ensures Safe(FirstRuns(none))
  {
    NextBare(none, "old b", "A");
    var a := ANext(none);
    NextBare(none + [TurnOf("old b", "A")], "old b", "B");
    var b := FirstB(none);
    FirstCIsSafe(b);
    SafeNext(none + [TurnOf("old b", "A")] + [TurnOf("old b", "B")], "old b", "C");
  }

  lemma FirstCIsSafe(b: Store)
    requires b.sys == F.SYS_OLD_B && HasB(b.s, "old b") && "C" !in b.s.cache
    ensures Ranked(TheWorld("old b")) && SafeTurn(TheMeaning(), TheWorld("old b"), b, "C", F.LTS, CHOICES)
  {
    TakesFirstC(b);
    F.RanFirstC();
    OldBIsKept();
    SafeC(b, "old b");
  }

  lemma OldBIsKept()
    ensures OnlyThese(F.SYS_OLD_B)
  {
    F.RunOldB();
    F.NotEmpty();
  }

  // ----- the second build -----

  function Edited(): seq<Happening> {
    [TurnOf("new b", "A")] + [TurnOf("new b", "B")] + [TurnOf("new b", "C")]
  }

  lemma NextKeys(s: R.Sys, step: R.Step)
    requires R.Next(s, step, F.LTS).Ok?
    ensures R.Next(s, step, F.LTS).value.built.Keys <= s.built.Keys + {step.name}
  {
  }

  lemma NewBIsDrained(c: Store, b: Store)
    requires F.ADrained(c.sys) && c.sys.built.Keys <= {"A", "B", "C"} && R.Next(c.sys, F.STEP_B, F.LTS) == Ok(b.sys)
    ensures OnlyThese(b.sys) && D.SetupRootfs(b.sys.disk, "C", D.Built("B"), F.TAR).Ok?
  {
    F.AfterEditedB(c.sys);
    F.EditedC(b.sys);
    NextKeys(c.sys, F.STEP_B);
    F.NotEmpty();
  }

  lemma EditedABAreSafe(hs: seq<Happening>, c: Store)
    requires Safe(hs) && After(hs) == Ok(c) && F.ADrained(c.sys) && HasB(c.s, "old b")
    ensures Safe(hs + [TurnOf("new b", "A")] + [TurnOf("new b", "B")])
  {
    NextBare(hs, "new b", "A");
    TurnAHits(c, "new b");
    OneMore(hs, c, "new b", "A");
    NextBare(hs + [TurnOf("new b", "A")], "new b", "B");
  }

  lemma SecondIsSafe(hs: seq<Happening>, c: Store, b: Store)
    requires Safe(hs) && After(hs + [TurnOf("new b", "A")] + [TurnOf("new b", "B")]) == Ok(b)
    requires F.ADrained(c.sys) && c.sys.built.Keys <= {"A", "B", "C"} && R.Next(c.sys, F.STEP_B, F.LTS) == Ok(b.sys)
    requires After(hs) == Ok(c) && HasB(c.s, "old b")
    requires HasB(b.s, "new b") && ("C" in b.s.cache ==> b.s.cache["C"].base != EntryHash(b.s.cache["B"]))
    ensures Safe(hs + [TurnOf("new b", "A")] + [TurnOf("new b", "B")] + [TurnOf("new b", "C")])
  {
    EditedABAreSafe(hs, c);
    F.AfterEditedB(c.sys);
    TakesNewC(b);
    NewBIsDrained(c, b);
    SafeC(b, "new b");
    SafeNext(hs + [TurnOf("new b", "A")] + [TurnOf("new b", "B")], "new b", "C");
  }

  lemma TurnNamesMore(run: seq<Happening>, script: string, n: Name)
    ensures TurnNames(run + [TurnOf(script, n)]) == TurnNames(run) + [n]
  {
    assert (run + [TurnOf(script, n)])[..|run|] == run;
  }

  lemma NamesOfEdited()
    ensures TurnNames(Edited()) == ["A", "B", "C"] && IsRun(TheWorld("new b"), Edited())
  {
    TurnNamesMore([], "new b", "A");
    TurnNamesMore([TurnOf("new b", "A")], "new b", "B");
    TurnNamesMore([TurnOf("new b", "A")] + [TurnOf("new b", "B")], "new b", "C");
    assert [] + [TurnOf("new b", "A")] == [TurnOf("new b", "A")];
  }

  lemma OrderIsKept()
    ensures Ordered(TheWorld("new b"), ["A", "B", "C"]) && Kept(TheWorld("new b"), ["A", "B", "C"]) == ["A", "B", "C"]
  {
    assert ["A", "B", "C"][..2] == ["A", "B"] && ["A", "B"][..1] == ["A"] && ["A"][..0] == [];
    AllKept(TheWorld("new b"), ["A", "B", "C"]);
  }

  ghost predicate CleanSoFar(past: seq<Happening>, run: seq<Happening>) {
    Ranked(TheWorld("new b")) && RunClean(TheMeaning(), {}, F.LTS, past, TheWorld("new b"), run)
  }

  lemma CleanNext(past: seq<Happening>, run: seq<Happening>, n: Name)
    requires CleanSoFar(past, run) && After(past + run).Ok? && n in TheWorld("new b").layers && Bare(TheWorld("new b").layers[n])
    requires HitIsWhole(TheWorld("new b"), After(past + run).value.s, n)
    requires OnStanding(TheMeaning(), TheWorld("new b"), After(past + run).value, n, F.LTS, CHOICES)
    ensures CleanSoFar(past, run + [TurnOf("new b", n)])
  {
    assert (run + [TurnOf("new b", n)])[..|run|] == run;
  }

  lemma AWhole(c: Store)
    requires HasA(c.s) && Inv(c) && "A" in c.sys.built
    ensures Ranked(TheWorld("new b")) && HitIsWhole(TheWorld("new b"), c.s, "A")
    ensures OnStanding(TheMeaning(), TheWorld("new b"), c, "A", F.LTS, CHOICES)
  {
    assert StandsOk(c, "A");
  }

  lemma BWhole(c: Store)
    requires HasB(c.s, "old b") && F.ADrained(c.sys)
    ensures Ranked(TheWorld("new b")) && HitIsWhole(TheWorld("new b"), c.s, "B")
    ensures OnStanding(TheMeaning(), TheWorld("new b"), c, "B", F.LTS, CHOICES)
  {
    assert BaseStanding(TheMeaning(), TheWorld("new b"), c, "B", F.LTS);
    BareStarts(RealWorld(c, TheWorld("new b")), c.s, "B");
    BMisses(RealWorld(c, TheWorld("new b")), Started(c, "B").s, "new b");
  }

  lemma CWhole(c: Store)
    requires HasB(c.s, "new b") && ("C" in c.s.cache ==> c.s.cache["C"].base != EntryHash(c.s.cache["B"]))
    requires "B" in c.sys.built && c.sys.built["B"] == F.LINEAGE_B
    ensures Ranked(TheWorld("new b")) && HitIsWhole(TheWorld("new b"), c.s, "C")
    ensures OnStanding(TheMeaning(), TheWorld("new b"), c, "C", F.LTS, CHOICES)
  {
    BareStarts(TheWorld("new b"), c.s, "C");
    CMisses(TheWorld("new b"), StartLayer(TheWorld("new b"), c.s, "C").value, "new b");
    COnStanding(c);
  }

  lemma COnStanding(c: Store)
    requires HasB(c.s, "new b") && ("C" in c.s.cache ==> c.s.cache["C"].base != EntryHash(c.s.cache["B"]))
    requires "B" in c.sys.built && c.sys.built["B"] == F.LINEAGE_B
    ensures Ranked(TheWorld("new b")) && OnStanding(TheMeaning(), TheWorld("new b"), c, "C", F.LTS, CHOICES)
  {
    assert "C" !in R.Names(F.LINEAGE_A) && R.Names(F.LINEAGE_B) == R.Names(F.LINEAGE_A) + {"B"};
    assert BaseStanding(TheMeaning(), TheWorld("new b"), c, "C", F.LTS);
    BareStarts(RealWorld(c, TheWorld("new b")), c.s, "C");
    CMisses(RealWorld(c, TheWorld("new b")), Started(c, "C").s, "new b");
  }

  lemma EditedIsClean(past: seq<Happening>, c: Store, b: Store)
    requires After(past) == Ok(c) && HasB(c.s, "old b") && F.ADrained(c.sys)
    requires After(past + [TurnOf("new b", "A")] + [TurnOf("new b", "B")]) == Ok(b)
    requires HasB(b.s, "new b") && ("C" in b.s.cache ==> b.s.cache["C"].base != EntryHash(b.s.cache["B"]))
    requires "B" in b.sys.built && b.sys.built["B"] == F.LINEAGE_B
    ensures CleanSoFar(past, Edited())
  {
    EditedAIsClean(past, c);
    EditedBIsClean(past, c);
    CWhole(b);
    var two := [TurnOf("new b", "A")] + [TurnOf("new b", "B")];
    assert past + two == past + [TurnOf("new b", "A")] + [TurnOf("new b", "B")];
    CleanNext(past, two, "C");
  }

  lemma EditedAIsClean(past: seq<Happening>, c: Store)
    requires After(past) == Ok(c) && HasA(c.s) && "A" in c.sys.built
    ensures CleanSoFar(past, [TurnOf("new b", "A")])
  {
    assert past + [] == past && [] + [TurnOf("new b", "A")] == [TurnOf("new b", "A")];
    AfterInv(past, c);
    AWhole(c);
    CleanNext(past, [], "A");
  }

  lemma EditedBIsClean(past: seq<Happening>, c: Store)
    requires After(past) == Ok(c) && HasB(c.s, "old b") && F.ADrained(c.sys) && CleanSoFar(past, [TurnOf("new b", "A")])
    ensures CleanSoFar(past, [TurnOf("new b", "A")] + [TurnOf("new b", "B")])
  {
    TurnAHits(c, "new b");
    OneMore(past, c, "new b", "A");
    BWhole(Started(c, "A"));
    CleanNext(past, [TurnOf("new b", "A")], "B");
  }

  ghost predicate Met(past: seq<Happening>, run: seq<Happening>) {
    var m, w := TheMeaning(), TheWorld("new b");
    && Distinct(F.LTS) && History(m, {}, F.LTS, past + run).Ok?
    && Ranked(w) && w.grab == IdealGrab(m) && IsRun(w, run) && Ordered(w, TurnNames(run))
    && SafeHistory(m, {}, F.LTS, past + run) && RunClean(m, {}, F.LTS, past, w, run)
    && Kept(w, TurnNames(run)) == ["A", "B", "C"]
  }

  /** What the first build leaves for the second. */
  ghost predicate FirstDone(past: seq<Happening>, c: Store) {
    && After(past) == Ok(c) && Safe(past)
    && F.ADrained(c.sys) && c.sys.built.Keys <= {"A", "B", "C"} && HasB(c.s, "old b")
    && "C" in c.s.cache && c.s.cache["C"].base == EntryHash(c.s.cache["B"])
  }

  lemma FirstIsDone(none: seq<Happening>) returns (c: Store)
    requires none == []
    ensures FirstDone(FirstRuns(none), c)
  {
    c := FirstBuild(none);
    NextKeys(F.SYS_OLD_B, F.STEP_C);
    FirstIsSafe(none);
  }

  lemma AfterEdited(past: seq<Happening>)
    ensures past + Edited() == past + [TurnOf("new b", "A")] + [TurnOf("new b", "B")] + [TurnOf("new b", "C")]
  {
  }

  lemma SecondIsFine(past: seq<Happening>, first: Store)
    requires FirstDone(past, first)
    ensures Safe(past + [TurnOf("new b", "A")] + [TurnOf("new b", "B")] + [TurnOf("new b", "C")])
    ensures CleanSoFar(past, Edited())
  {
    var b := SecondB(past, first);
    OtherBase(first, b);
    F.AfterEditedB(first.sys);
    SecondIsSafe(past, first, b);
    EditedIsClean(past, first, b);
  }

  lemma SecondMeets(past: seq<Happening>, first: Store) returns (c: Store)
    requires FirstDone(past, first)
    ensures After(past + Edited()) == Ok(c) && Safe(past + Edited()) && CleanSoFar(past, Edited())
    ensures "C" in c.made && c.made["C"] == F.LINEAGE_C && R.Stale(F.LINEAGE_C)
  {
    AfterEdited(past);
    SecondIsFine(past, first);
    c := SecondBuild(past, first);
  }

  lemma TheyAreMet(past: seq<Happening>, first: Store) returns (c: Store)
    requires FirstDone(past, first)
    ensures Met(past, Edited()) && After(past + Edited()) == Ok(c)
    ensures "C" in c.made && c.made["C"] == F.LINEAGE_C && R.Stale(F.LINEAGE_C) && TurnNames(Edited()) == ["A", "B", "C"]
  {
    c := SecondMeets(past, first);
    NamesOfEdited();
    OrderIsKept();
  }

  lemma BaseIsClean()
    ensures F.LINEAGE_C.Child? && R.Clean(F.LINEAGE_C.base)
  {
    F.NotEmpty();
  }

  /** The builds before and after the edit meet every hypothesis of CachedRunIsCleanIffNotStale, and it
      says that C's image is not what a clean build makes. */
  lemma HypothesesHold() returns (past: seq<Happening>, run: seq<Happening>)
    ensures Met(past, run) && past != [] && run != []
    ensures var c := History(TheMeaning(), {}, F.LTS, past + run).value;
      && D.Ref("C", F.TAR) in c.sys.disk.images
      && (forall x <- c.sys.disk.images[D.Ref("C", F.TAR)] :: x in c.sys.disk.store)
      && D.Resolve(c.sys.disk, c.sys.disk.images[D.Ref("C", F.TAR)]) != StackOf(TheMeaning(), CleanC())
  {
    var none: seq<Happening> := [];
    var first := FirstIsDone(none);
    past := FirstRuns(none);
    var c: Store;
    run, c := SecondApplies(past, first);
  }

  lemma SecondApplies(past: seq<Happening>, first: Store) returns (run: seq<Happening>, c: Store)
    requires FirstDone(past, first)
    ensures Met(past, run) && run != [] && After(past + run) == Ok(c)
    ensures D.Ref("C", F.TAR) in c.sys.disk.images
    ensures forall x <- c.sys.disk.images[D.Ref("C", F.TAR)] :: x in c.sys.disk.store
    ensures D.Resolve(c.sys.disk, c.sys.disk.images[D.Ref("C", F.TAR)]) != StackOf(TheMeaning(), CleanC())
  {
    run := Edited();
    c := TheyAreMet(past, first);
    TheTheoremSays(past, run, c);
  }

  lemma TheTheoremSays(past: seq<Happening>, run: seq<Happening>, c: Store)
    requires Met(past, run) && After(past + run) == Ok(c) && TurnNames(run) == ["A", "B", "C"]
    requires "C" in c.made && c.made["C"] == F.LINEAGE_C && R.Stale(F.LINEAGE_C)
    ensures D.Ref("C", F.TAR) in c.sys.disk.images
    ensures forall x <- c.sys.disk.images[D.Ref("C", F.TAR)] :: x in c.sys.disk.store
    ensures D.Resolve(c.sys.disk, c.sys.disk.images[D.Ref("C", F.TAR)]) != StackOf(TheMeaning(), CleanC())
  {
    CachedRunIsCleanIffNotStale(TheMeaning(), {}, F.LTS, past, TheWorld("new b"), run, "C", F.TAR);
    CleanRun();
    BaseIsClean();
  }

  lemma OtherBase(c: Store, b: Store)
    requires HasB(c.s, "old b") && HasB(b.s, "new b") && b.s.cache == c.s.cache["B" := b.s.cache["B"]]
    requires "C" in c.s.cache && c.s.cache["C"].base == EntryHash(c.s.cache["B"])
    ensures "C" in b.s.cache ==> b.s.cache["C"].base != EntryHash(b.s.cache["B"])
  {
  }
}

/** A cache hit, seen through the whole chain of bases; and what a failed build does to later hits. */
module CacheChains {
  import opened Wrappers
  import opened CacheModel
  import opened CacheProofs
  import opened CacheTheorems
  import OverlayDisk

  /** `a` is `n` or one of the built-type layers below it. */
  predicate Below(w: World, n: Name, a: Name)
    requires Ranked(w)
    decreases Height(w, n)
  {
    a == n || (n in w.layers && w.layers[n].from.Built? && w.layers[n].from.tag in w.layers && Below(w, w.layers[n].from.tag, a))
  }

  /** The entry's recorded base is the one there is now. */
  predicate BaseUnchanged(w: World, s: State, e: CacheEntry) {
    match e.layer.from
    case Scratch => e.base == NoBase
    case Tar(url) => url in w.tars && e.base == TarHash(w.tars[url])
    case Image(tag) => tag in w.images && e.base == ManifestHash(w.images[tag])
    case Built(tag) => tag in w.layers && tag in s.cache && e.base == EntryHash(s.cache[tag])
  }

  /** Nothing the cache tracks about this one layer has changed since its entry was put. */
  predicate Unchanged(w: World, s: State, a: Name) {
    && a in w.layers && a in s.cache
    && var e := s.cache[a];
       && e.layer == w.layers[a] && e.epoch == w.epoch && BaseUnchanged(w, s, e)
       && ImportsUnchanged(s, e, a, e.layer.imports)
       && CheckOverlays(w, s, e, a, e.layer.overlayDirs) == Same
  }

  /** A lookup hits if and only if nothing has changed for the layer and every layer below it. */
  lemma {:induction false} HitIffChainUnchanged(w: World, s: State, n: Name)
    requires Ranked(w)
    ensures LookupEntry(w, s, n).Hit? <==> forall a | Below(w, n, a) :: Unchanged(w, s, a)
    decreases Height(w, n)
  {
    if n in w.layers && w.layers[n].from.Built? && w.layers[n].from.tag in w.layers {
      var tag := w.layers[n].from.tag;
      HitIffChainUnchanged(w, s, tag);
      HitMeansCached(w, s, tag);
      if forall a | Below(w, n, a) :: Unchanged(w, s, a) {
        assert Below(w, n, n);
        forall a | Below(w, tag, a) ensures Unchanged(w, s, a) {
          assert Below(w, n, a);
        }
      }
      if LookupEntry(w, s, n).Hit? {
        HitMeans(w, s, n);
        forall a | Below(w, n, a) ensures Unchanged(w, s, a) {
          assert a == n || Below(w, tag, a);
        }
      }
    } else {
      if forall a | Below(w, n, a) :: Unchanged(w, s, a) {
        assert Below(w, n, n);
      }
    }
  }

  /** The entries recorded along a chain: `e`, and the entries its base hashes stand for. */
  predicate Records(e: CacheEntry, below: CacheEntry) {
    e == below || (e.base.EntryHash? && Records(e.base.entry, below))
  }

  /** What the hit's entry recorded for each layer below is that layer's own current entry: no
      layer of the chain was rebuilt in between. */
  lemma {:induction false} HitRecordsChain(w: World, s: State, n: Name, a: Name)
    requires Ranked(w) && LookupEntry(w, s, n).Hit? && Below(w, n, a)
    ensures a in s.cache && Records(LookupEntry(w, s, n).entry, s.cache[a])
    decreases Height(w, n)
  {
    HitMeans(w, s, n);
    if a != n {
      HitRecordsChain(w, s, w.layers[n].from.tag, a);
    }
  }

  // ----- failed builds -----

  ghost predicate NoFailures(events: seq<Event>) {
    forall i :: 0 <= i < |events| ==> !events[i].Failure?
  }

  ghost predicate AllWhole(s: State) {
    (forall n <- s.roots :: s.roots[n].Some?) && forall n <- s.cache :: n in s.roots
  }

  lemma RebuildWhole(w: World, s: State, n: Name, lts: seq<LayerType>, emitted: Emitted)
    requires Ranked(w) && |lts| > 0 && n in w.layers && n in s.imported
    requires AllWhole(s) && Rebuild(w, s, n, lts, emitted).Ok?
    ensures AllWhole(Rebuild(w, s, n, lts, emitted).value)
  {
    RebuildShape(w, s, n, lts, emitted);
    BuildSucceeds(w, s.roots - {n}, w.layers[n], s.imported[n]);
  }

  lemma UseCachedWhole(s: State, n: Name, e: CacheEntry, lts: seq<LayerType>)
    requires AllWhole(s)
    ensures AllWhole(UseCached(s, n, e, lts)) && UseCached(s, n, e, lts).imported == s.imported
  {
  }

  lemma ProcessWhole(w: World, s: State, n: Name, lts: seq<LayerType>, emitted: Emitted)
    requires Ranked(w) && |lts| > 0 && AllWhole(s) && Process(w, s, n, lts, emitted).Ok?
    ensures AllWhole(Process(w, s, n, lts, emitted).value)
  {
    var started := StartLayer(w, s, n).value;
    var hit := LookupEntry(w, started, n);
    if hit.Miss? || w.layers[n].binds != [] {
      RebuildWhole(w, started, n, lts, emitted);
    } else {
      UseCachedWhole(started, n, hit.entry, lts);
      if !HasAllTypes(hit.entry, lts) {
        RebuildWhole(w, UseCached(started, n, hit.entry, lts), n, lts, emitted);
      }
    }
  }

  lemma {:induction false} PastIsWhole(events: seq<Event>)
    requires Past(events).Ok? && NoFailures(events)
    ensures AllWhole(Past(events).value)
  {
    if events != [] {
      PastIsWhole(events[..|events| - 1]);
      var s, e := Past(events[..|events| - 1]).value, events[|events| - 1];
      if e.LayerTurn? {
        ProcessWhole(e.world, s, e.name, e.layerTypes, e.emitted);
      }
    }
  }

  lemma {:induction false} LayersWhole(w: World, s: State, order: seq<Name>, lts: seq<LayerType>, emitted: Emitted)
    requires Ranked(w) && |lts| > 0 && AllWhole(s)
    ensures HitsAreWhole(w, s, order, lts, emitted)
    ensures RunLayers(w, s, order, lts, emitted).Ok? ==> AllWhole(RunLayers(w, s, order, lts, emitted).value)
  {
    if order != [] {
      var before, n := order[..|order| - 1], order[|order| - 1];
      LayersWhole(w, s, before, lts, emitted);
      if RunLayers(w, s, before, lts, emitted).Ok? {
        var s0 := RunLayers(w, s, before, lts, emitted).value;
        if StartLayer(w, s0, n).Ok? {
          HitMeansCached(w, StartLayer(w, s0, n).value, n);
        }
        if Process(w, s0, n, lts, emitted).Ok? {
          ProcessWhole(w, s0, n, lts, emitted);
        }
      }
    }
  }

  lemma {:induction false} FilesWhole(w: World, s: State, files: seq<seq<Name>>, lts: seq<LayerType>, emitted: Emitted)
    requires Ranked(w) && |lts| > 0 && AllWhole(s)
    ensures FilesAreWhole(w, s, files, lts, emitted)
    ensures RunFiles(w, s, files, lts, emitted).Ok? ==> AllWhole(RunFiles(w, s, files, lts, emitted).value)
  {
    if files != [] {
      var before, file := files[..|files| - 1], files[|files| - 1];
      FilesWhole(w, s, before, lts, emitted);
      if RunFiles(w, s, before, lts, emitted).Ok? {
        LayersWhole(w, OpenCache(RunFiles(w, s, before, lts, emitted).value), file, lts, emitted);
      }
    }
  }

  /** If no earlier build failed midway, no hit needs to be excepted. */
  lemma IncrementalEqualsCleanAfterCompletedRuns(
      events: seq<Event>, w: World, files: seq<seq<Name>>, lts: seq<LayerType>, emitted: Emitted, n: Name)
    requires Past(events).Ok? && NoFailures(events)
    requires Ranked(w) && |lts| > 0 && Ordered(w, Concat(files)) && n in Kept(w, Concat(files))
    requires RunFiles(w, Past(events).value, files, lts, emitted).Ok?
    ensures FreshRun(w, Kept(w, Concat(files))).Ok? && n in FreshRun(w, Kept(w, Concat(files))).value
    ensures var s := RunFiles(w, Past(events).value, files, lts, emitted).value;
      n in s.roots && s.roots[n] == FreshRun(w, Kept(w, Concat(files))).value[n]
  {
    PastIsWhole(events);
    FilesWhole(w, Past(events).value, files, lts, emitted);
    IncrementalEqualsClean(events, w, files, lts, emitted, n);
  }

  /** The cached run and a run of the same builder from nothing make everything from the same. */
  lemma CachedRunEqualsScratchRun(
      events: seq<Event>, w: World, files: seq<seq<Name>>, lts: seq<LayerType>, emitted: Emitted, emitted': Emitted, n: Name)
    requires Past(events).Ok? && NoFailures(events)
    requires Ranked(w) && |lts| > 0 && Ordered(w, Concat(files)) && n in Kept(w, Concat(files))
    requires RunFiles(w, Past(events).value, files, lts, emitted).Ok? && RunFiles(w, NOTHING, files, lts, emitted').Ok?
    ensures var s, scratch := RunFiles(w, Past(events).value, files, lts, emitted).value, RunFiles(w, NOTHING, files, lts, emitted').value;
      && n in s.roots && n in scratch.roots && s.roots[n] == scratch.roots[n] && n in w.layers
      && (!w.layers[n].buildOnly ==> forall lt <- lts ::
            && Ref(n, lt) in s.images && Ref(n, lt) in scratch.images
            && s.images[Ref(n, lt)].fs == scratch.images[Ref(n, lt)].fs)
  {
    PastIsWhole(events);
    FilesWhole(w, Past(events).value, files, lts, emitted);
    IncrementalEqualsClean(events, w, files, lts, emitted, n);
    assert Past([]) == Ok(NOTHING);
    PastIsWhole([]);
    FilesWhole(w, NOTHING, files, lts, emitted');
    IncrementalEqualsClean([], w, files, lts, emitted', n);
  }

  // ----- which roots are broken -----

  /** The turn sets the layer up and runs it, as it logs, instead of using what is cached. */
  predicate Rebuilds(w: World, s: State, n: Name, lts: seq<LayerType>)
    requires Ranked(w)
  {
    var started := StartLayer(w, s, n);
    started.Ok? && n in w.layers && !LookupEntry(w, started.value, n).Error? &&
    (LookupEntry(w, started.value, n).Hit? && w.layers[n].binds == [] ==> !HasAllTypes(LookupEntry(w, started.value, n).entry, lts))
  }

  /** The last build of the layer failed, or it was made on a base that was broken at the time. */
  predicate Broken(events: seq<Event>, n: Name)
    requires Past(events).Ok?
  {
    if events == [] then false
    else
      var before := events[..|events| - 1];
      match events[|events| - 1]
      case Failure(m, _) => m == n || Broken(before, n)
      case LayerTurn(w, m, lts, _) =>
        if m == n && Rebuilds(w, Past(before).value, n, lts)
        then w.layers[n].from.Built? && Broken(before, w.layers[n].from.tag)
        else Broken(before, n)
      case _ => Broken(before, n)
  }

  lemma TurnRoots(w: World, s: State, n: Name, lts: seq<LayerType>, emitted: Emitted)
    requires Ranked(w) && |lts| > 0 && Process(w, s, n, lts, emitted).Ok?
    ensures var s' := Process(w, s, n, lts, emitted).value;
      && n in w.layers
      && if Rebuilds(w, s, n, lts) then
           && n in s'.roots && s'.roots == s.roots[n := s'.roots[n]]
           && (w.layers[n].from.Built? ==> w.layers[n].from.tag in s.roots)
           && (s'.roots[n] == None <==> w.layers[n].from.Built? && s.roots[w.layers[n].from.tag] == None)
         else s'.roots == s.roots
  {
    ProcessIs(w, s, n, lts, emitted);
    var started := StartLayer(w, s, n).value;
    var hit := LookupEntry(w, started, n);
    if Rebuilds(w, s, n, lts) {
      var used := if hit.Hit? && w.layers[n].binds == [] then UseCached(started, n, hit.entry, lts) else started;
      RebuildShape(w, used, n, lts, emitted);
      RootMade(w, used.roots - {n}, w.layers[n], used.imported[n]);
    }
  }

  lemma RootMade(w: World, roots: map<Name, Option<Fs>>, l: Layer, imported: map<string, Content>)
    requires BuildFs(w, roots, l, imported).Ok?
    ensures l.from.Built? ==> l.from.tag in roots
    ensures BuildFs(w, roots, l, imported).value == None <==> l.from.Built? && roots[l.from.tag] == None
  {
  }

  /** A root is broken exactly when the history says so. */
  lemma {:induction false} BrokenIsNone(events: seq<Event>, n: Name)
    requires Past(events).Ok?
    ensures Broken(events, n) <==> n in Past(events).value.roots && Past(events).value.roots[n] == None
  {
    if events != [] {
      var before, e := events[..|events| - 1], events[|events| - 1];
      BrokenIsNone(before, n);
      if e.LayerTurn? {
        TurnRoots(e.world, Past(before).value, e.name, e.layerTypes, e.emitted);
        if e.name == n && e.world.layers[n].from.Built? {
          BrokenIsNone(before, e.world.layers[n].from.tag);
        }
      }
    }
  }

  /** Exactly when a hit leaves the layer with what a clean build makes: when neither its last build
      failed nor that of the bases it was made on.  A hit does not set a broken root up again. */
  lemma HitIsCleanIffNotBroken(events: seq<Event>, w: World, done: seq<Name>, n: Name, lts: seq<LayerType>, emitted: Emitted)
    requires Past(events).Ok? && Ranked(w) && |lts| > 0
    requires RunInv(w, Past(events).value, done, lts) && Ordered(w, done + [n]) && n in w.layers && Tracked(w.layers[n])
    requires var s := Past(events).value;
      && StartLayer(w, s, n).Ok? && LookupEntry(w, StartLayer(w, s, n).value, n).Hit?
      && HasAllTypes(LookupEntry(w, StartLayer(w, s, n).value, n).entry, lts)
    requires FreshRun(w, done + [n]).Ok?
    ensures var r := Process(w, Past(events).value, n, lts, emitted);
      && r.Ok? && n in r.value.roots && n in FreshRun(w, done + [n]).value
      && (r.value.roots[n] == FreshRun(w, done + [n]).value[n] <==> !Broken(events, n))
  {
    var s := Past(events).value;
    var started := StartLayer(w, s, n).value;
    HitMeans(w, started, n);
    assert EntryOk(s, n);
    BrokenIsNone(events, n);
    if s.roots[n].Some? {
      ProcessStep(w, s, done, n, lts, emitted);
      assert Settled(w, Process(w, s, n, lts, emitted).value, FreshRun(w, done + [n]).value, n, lts);
    } else {
      FreshIsWhole(w, done + [n], n);
    }
  }

  /** The last layer of a clean build is set up on a root of the build before it. */
  lemma FreshLast(w: World, order: seq<Name>)
    requires order != [] && FreshRun(w, order).Ok?
    ensures var before, n := FreshRun(w, order[..|order| - 1]), order[|order| - 1];
      && before.Ok? && n in FreshRun(w, order).value
      && FreshRun(w, order).value == before.value[n := FreshRun(w, order).value[n]]
      && (FreshRun(w, order).value[n].None? ==> exists m <- before.value :: before.value[m].None?)
  {
  }

  /** A clean build breaks nothing. */
  lemma {:induction false} FreshBreaksNothing(w: World, order: seq<Name>)
    requires FreshRun(w, order).Ok?
    ensures forall m <- FreshRun(w, order).value :: FreshRun(w, order).value[m].Some?
  {
    if order != [] {
      FreshLast(w, order);
      FreshBreaksNothing(w, order[..|order| - 1]);
    }
  }

  lemma {:induction false} FreshIsWhole(w: World, order: seq<Name>, n: Name)
    requires FreshRun(w, order).Ok? && n in order
    ensures forall m <- FreshRun(w, order).value :: FreshRun(w, order).value[m].Some?
    ensures n in FreshRun(w, order).value
    decreases |order|
  {
    FreshBreaksNothing(w, order);
    FreshLast(w, order);
    var before, last := order[..|order| - 1], order[|order| - 1];
    if n != last {
      assert order == before + [last];
      FreshIsWhole(w, before, n);
    }
  }

  // ----- a run in which that matters -----

  const TAR := OverlayDisk.LayerType("tar", false)
  const A := Layer(Scratch, [], [], ["make a"], [], false)
  const B := Layer(Built("A"), [], [], ["make b"], [], false)

  function TheWorld(): World {
    World(map["A" := A, "B" := B], map["A" := 0, "B" := 1], map[], map[], map[], map[], None, (host, fs, path) => None)
  }

  function NoneEmitted(): Emitted {
    (n, lt) => []
  }

  const A_FS := Fs(Empty, A, map[], [], None, [])
  const B_FS := Fs(On(A_FS), B, map[], [], None, [])

  lemma FreshAB()
    ensures FreshRun(TheWorld(), ["A", "B"]) == Ok(map["A" := Some(A_FS), "B" := Some(B_FS)])
  {
    var w := TheWorld();
    assert ["A", "B"][..1] == ["A"] && ["A"][..0] == [];
    NothingUnseen(w, map[], A);
    assert FreshRun(w, ["A"]) == Ok(map["A" := Some(A_FS)]);
    NothingUnseen(w, map["A" := Some(A_FS)], B);
  }

  const A_BLOB := Blob(TAR, Some(A_FS), [])
  const A_ENTRY := CacheEntry(map[TAR := A_BLOB], map[], map[], "A", A, NoBase, None)

  lemma BuiltA(s: State)
    ensures BuildFs(TheWorld(), s.roots - {"A"}, A, map[]) == Ok(Some(A_FS))
    ensures NewManifests("A", Some(A_FS), [TAR], NoneEmitted()) == map[TAR := A_BLOB]
  {
    NothingUnseen(TheWorld(), s.roots - {"A"}, A);
  }

  lemma PutA(s: State)
    requires "A" in s.imported && s.imported["A"] == map[]
    ensures Put(TheWorld(), s, "A", map[TAR := A_BLOB]) == Ok(s.(cache := s.cache["A" := A_ENTRY]))
  {
    assert GetBaseHash(TheWorld(), s, "A") == Ok(NoBase);
  }

  lemma RanA(s: State) returns (ran: State)
    requires "A" in s.imported && s.imported["A"] == map[]
    ensures Rebuild(TheWorld(), s, "A", [TAR], NoneEmitted()) == Put(TheWorld(), ran, "A", map[TAR := A_BLOB])
    ensures ran.imported == s.imported && ran.cache == s.cache && A_BLOB in ran.blobs
  {
    ran := Ran(TheWorld(), s, "A", Some(A_FS), [TAR], NoneEmitted());
    BuiltA(s);
    RanAt(TheWorld(), s, "A", Some(A_FS), [TAR], NoneEmitted());
    assert TAR in NewManifests("A", Some(A_FS), [TAR], NoneEmitted());
    RebuildPuts(s, "A", Some(A_FS));
  }

  lemma RebuildA(s: State)
    requires "A" in s.imported && s.imported["A"] == map[]
    ensures var r := Rebuild(TheWorld(), s, "A", [TAR], NoneEmitted());
      r.Ok? && "A" in r.value.cache && r.value.cache["A"] == A_ENTRY && r.value.cache.Keys == s.cache.Keys + {"A"} && A_BLOB in r.value.blobs
  {
    var ran := RanA(s);
    PutA(ran);
  }

  lemma RebuildPuts(s: State, n: Name, fs: Option<Fs>)
    requires n in TheWorld().layers && n in s.imported && !TheWorld().layers[n].buildOnly
    requires BuildFs(TheWorld(), s.roots - {n}, TheWorld().layers[n], s.imported[n]) == Ok(fs)
    ensures Rebuild(TheWorld(), s, n, [TAR], NoneEmitted()) ==
      Put(TheWorld(), Ran(TheWorld(), s, n, fs, [TAR], NoneEmitted()), n, NewManifests(n, fs, [TAR], NoneEmitted()))
  {
  }

  const FIRST_BUILD := LayerTurn(TheWorld(), "A", [TAR], NoneEmitted())

  /** A layer whose lookup misses is rebuilt. */
  lemma MissIsRebuilt(w: World, s: State, started: State, n: Name, lts: seq<LayerType>, emitted: Emitted)
    requires Ranked(w) && |lts| > 0 && n in w.layers && n in started.imported
    requires StartLayer(w, s, n) == Ok(started) && LookupEntry(w, started, n) == Miss
    ensures Process(w, s, n, lts, emitted) == Rebuild(w, started, n, lts, emitted)
  {
  }

  lemma FirstProcess(s: State)
    requires s.cache == map[]
    ensures var r := Process(TheWorld(), s, "A", [TAR], NoneEmitted());
      r.Ok? && r.value.cache.Keys == {"A"} && r.value.cache["A"] == A_ENTRY && A_BLOB in r.value.blobs
  {
    var started := s.(imported := s.imported["A" := map[]]);
    StartedA(s);
    RebuildA(started);
    MissIsRebuilt(TheWorld(), s, started, "A", [TAR], NoneEmitted());
  }

  lemma AfterFirstBuild()
    ensures Past([FIRST_BUILD]).Ok?
    ensures var s := Past([FIRST_BUILD]).value; s.cache.Keys == {"A"} && s.cache["A"] == A_ENTRY && A_BLOB in s.blobs
  {
    assert [FIRST_BUILD][..0] == [];
    FirstProcess(NOTHING);
  }

  /** A state in which A was built, and a later build of A failed before it was recorded. */
  ghost predicate AFailedAfterSuccess(s: State) {
    && s.cache.Keys == {"A"} && s.cache["A"] == A_ENTRY && A_BLOB in s.blobs
    && "A" in s.roots && s.roots["A"] == None
  }

  lemma HistoryHappens()
    ensures Past([FIRST_BUILD, Failure("A", map[])]).Ok? && AFailedAfterSuccess(Past([FIRST_BUILD, Failure("A", map[])]).value)
  {
    AfterFirstBuild();
    assert [FIRST_BUILD, Failure("A", map[])][..1] == [FIRST_BUILD];
  }

  lemma ReopenedA(s: State)
    requires AFailedAfterSuccess(s)
    ensures AFailedAfterSuccess(OpenCache(s))
  {
    assert Survives(s, A_ENTRY);
    assert "A" in OpenCache(s).cache;
  }

  lemma AIsFound(s: State)
    requires AFailedAfterSuccess(s) && "A" in s.imported && s.imported["A"] == map[]
    ensures LookupEntry(TheWorld(), s, "A") == Hit(A_ENTRY)
  {
    assert GetBaseHash(TheWorld(), s, "A") == Ok(NoBase);
  }

  lemma StartedA(s: State)
    ensures StartLayer(TheWorld(), s, "A") == Ok(s.(imported := s.imported["A" := map[]]))
  {
    assert ImportAll(TheWorld(), s.roots, []) == Ok(map[]);
  }

  lemma UsedA(s: State)
    requires AFailedAfterSuccess(s)
    ensures var used := UseCached(s, "A", A_ENTRY, [TAR]);
      && AFailedAfterSuccess(used) && used.imported == s.imported
      && Ref("A", TAR) in used.images && used.images[Ref("A", TAR)] == A_BLOB
  {
    assert (map lt | lt in [TAR] && lt in A_ENTRY.manifests :: A_ENTRY.manifests[lt]) == map[TAR := A_BLOB];
    SetImagesAt(s, "A", map[TAR := A_BLOB]);
  }

  /** A layer without binds whose entry has all types is used as it is. */
  lemma UsedOnHit(w: World, s: State, started: State, n: Name, e: CacheEntry, lts: seq<LayerType>, emitted: Emitted)
    requires Ranked(w) && |lts| > 0 && n in w.layers && w.layers[n].binds == []
    requires StartLayer(w, s, n) == Ok(started) && LookupEntry(w, started, n) == Hit(e) && HasAllTypes(e, lts)
    ensures Process(w, s, n, lts, emitted) == Ok(UseCached(started, n, e, lts))
  {
  }

  /** With A's definition back as it was, A hits: its image is right and its root stays broken. */
  lemma AHits(s: State)
    requires AFailedAfterSuccess(s)
    ensures var r := Process(TheWorld(), s, "A", [TAR], NoneEmitted());
      && r.Ok? && AFailedAfterSuccess(r.value)
      && Ref("A", TAR) in r.value.images && r.value.images[Ref("A", TAR)] == A_BLOB
      && LookupEntry(TheWorld(), r.value, "A") == Hit(A_ENTRY)
  {
    var started := s.(imported := s.imported["A" := map[]]);
    StartedA(s);
    AIsFound(started);
    UsedOnHit(TheWorld(), s, started, "A", A_ENTRY, [TAR], NoneEmitted());
    UsedA(started);
    AIsFound(UseCached(started, "A", A_ENTRY, [TAR]));
  }

  lemma BaseKept(w: World, s: State, s': State, n: Name, tag: Name, e: CacheEntry)
    requires Ranked(w) && n in w.layers && w.layers[n].from == Built(tag) && tag in w.layers
    requires LookupEntry(w, s, tag) == Hit(e) && forall k :: k != n ==> SameFor(s, s', k)
    ensures GetBaseHash(w, s', n) == Ok(EntryHash(e))
  {
    LookupBelow(w, s, s', tag, n);
  }

  lemma RanKeepsBase(w: World, s: State, n: Name, tag: Name, lts: seq<LayerType>, emitted: Emitted, e: CacheEntry)
    requires Ranked(w) && n in w.layers && w.layers[n].from == Built(tag) && tag in w.layers
    requires |lts| > 0 && LookupEntry(w, s, tag) == Hit(e)
    ensures GetBaseHash(w, Ran(w, s, n, None, lts, emitted), n) == Ok(EntryHash(e))
  {
    RanAt(w, s, n, None, lts, emitted);
    BaseKept(w, s, Ran(w, s, n, None, lts, emitted), n, tag, e);
  }

  lemma BaseOfSpoiledB(s: State)
    requires LookupEntry(TheWorld(), s, "A") == Hit(A_ENTRY)
    ensures GetBaseHash(TheWorld(), Ran(TheWorld(), s, "B", None, [TAR], NoneEmitted()), "B") == Ok(EntryHash(A_ENTRY))
  {
    RanKeepsBase(TheWorld(), s, "B", "A", [TAR], NoneEmitted(), A_ENTRY);
  }

  lemma RanSpoiledB(s: State)
    ensures var ran := Ran(TheWorld(), s, "B", None, [TAR], NoneEmitted());
      ran.imported == s.imported && Ref("B", TAR) in ran.images && ran.images[Ref("B", TAR)].fs == None
  {
    RanAt(TheWorld(), s, "B", None, [TAR], NoneEmitted());
    assert TAR in NewManifests("B", None, [TAR], NoneEmitted());
  }

  lemma RebuildSpoiledB(s: State)
    requires "B" in s.imported && s.imported["B"] == map[] && "A" in s.roots && s.roots["A"] == None
    requires LookupEntry(TheWorld(), s, "A") == Hit(A_ENTRY)
    ensures var r := Rebuild(TheWorld(), s, "B", [TAR], NoneEmitted());
      r.Ok? && Ref("B", TAR) in r.value.images && r.value.images[Ref("B", TAR)].fs == None
  {
    assert BuildFs(TheWorld(), s.roots - {"B"}, B, s.imported["B"]) == Ok(None);
    RebuildPuts(s, "B", None);
    RanSpoiledB(s);
    BaseOfSpoiledB(s);
    PutSpoiledB(Ran(TheWorld(), s, "B", None, [TAR], NoneEmitted()), NewManifests("B", None, [TAR], NoneEmitted()));
  }

  lemma PutSpoiledB(s: State, manifests: map<LayerType, Blob>)
    requires "B" in s.imported && GetBaseHash(TheWorld(), s, "B").Ok?
    ensures var r := Put(TheWorld(), s, "B", manifests);
      r.Ok? && r.value.images == s.images
  {
    assert RecordImports(s, "B", []) == Ok(map[]);
    assert RecordOverlays(TheWorld(), []) == Ok(map[]);
  }

  lemma BIsSpoiled(s: State)
    requires AFailedAfterSuccess(s) && LookupEntry(TheWorld(), s, "A") == Hit(A_ENTRY)
    ensures var r := Process(TheWorld(), s, "B", [TAR], NoneEmitted());
      r.Ok? && Ref("B", TAR) in r.value.images && r.value.images[Ref("B", TAR)].fs == None
  {
    var started := StartLayer(TheWorld(), s, "B").value;
    LookupLocal(TheWorld(), s, started, "A", (k: Name) => k == "A");
    assert LookupEntry(TheWorld(), started, "B") == Miss;
    RebuildSpoiledB(started);
  }

  /** The run A, B after that history succeeds and ships an image of B made from a broken root,
      where a clean build makes B_FS. */
  lemma FailedBuildSpoilsLaterHit()
    ensures var past := Past([FIRST_BUILD, Failure("A", map[])]);
      && past.Ok?
      && var r := RunLayers(TheWorld(), OpenCache(past.value), ["A", "B"], [TAR], NoneEmitted());
         r.Ok? && Ref("B", TAR) in r.value.images && r.value.images[Ref("B", TAR)].fs == None
    ensures FreshRun(TheWorld(), ["A", "B"]) == Ok(map["A" := Some(A_FS), "B" := Some(B_FS)])
  {
    HistoryHappens();
    FreshAB();
    var w, s := TheWorld(), OpenCache(Past([FIRST_BUILD, Failure("A", map[])]).value);
    ReopenedA(Past([FIRST_BUILD, Failure("A", map[])]).value);
    assert ["A", "B"][..1] == ["A"] && ["A"][..0] == [];
    assert RunLayers(w, s, [], [TAR], NoneEmitted()) == Ok(s);
    AHits(s);
    assert RunLayers(w, s, ["A"], [TAR], NoneEmitted()) == Process(w, s, "A", [TAR], NoneEmitted());
    BIsSpoiled(Process(w, s, "A", [TAR], NoneEmitted()).value);
  }

  // ----- the hypotheses of the theorems can be met -----

  lemma FirstRun()
    ensures RunLayers(TheWorld(), OpenCache(NOTHING), ["A"], [TAR], NoneEmitted()).Ok?
    ensures HitsAreWhole(TheWorld(), OpenCache(NOTHING), ["A"], [TAR], NoneEmitted())
  {
    var w, s := TheWorld(), OpenCache(NOTHING);
    StartedA(s);
    FirstProcess(s);
    assert LookupEntry(w, s.(imported := s.imported["A" := map[]]), "A") == Miss;
    assert ["A"][..0] == [];
    assert RunLayers(w, s, [], [TAR], NoneEmitted()) == Ok(s);
    assert RunLayers(w, s, ["A"], [TAR], NoneEmitted()) == Process(w, s, "A", [TAR], NoneEmitted());
  }

  /** A past and a run over a file that the theorems about runs apply to. */
  lemma HypothesesHold()
    ensures Past([]).Ok? && NoFailures([]) && Ranked(TheWorld())
    ensures Concat([["A"]]) == ["A"] && Ordered(TheWorld(), ["A"]) && Kept(TheWorld(), ["A"]) == ["A"]
    ensures RunFiles(TheWorld(), Past([]).value, [["A"]], [TAR], NoneEmitted()).Ok?
    ensures FilesAreWhole(TheWorld(), Past([]).value, [["A"]], [TAR], NoneEmitted())
  {
    FirstRun();
    assert [["A"]][..0] == [];
    assert RunFiles(TheWorld(), NOTHING, [], [TAR], NoneEmitted()) == Ok(NOTHING);
    assert [] + ["A"] == ["A"] && ["A"][..0] == [];
  }
}

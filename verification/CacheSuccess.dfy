/** When a run with a cache succeeds: exactly when a clean build of the same layers does. */
module CacheSuccess {
  import opened Wrappers
  import opened CacheModel
  import opened CacheProofs
  import opened CacheTheorems

  // ----- reading what a build reads -----

  lemma {:induction false} DirsPresent(dirs: map<string, string>, ods: seq<OverlayDir>)
    requires OverlayContents(dirs, ods).Ok?
    ensures forall od <- ods :: od.source in dirs
  {
    if ods != [] {
      DirsPresent(dirs, ods[..|ods| - 1]);
      assert ods == ods[..|ods| - 1] + [ods[|ods| - 1]];
    }
  }

  lemma {:induction false} ChecksRead(w: World, s: State, e: CacheEntry, n: Name, ods: seq<OverlayDir>)
    requires forall od <- ods :: od.source in w.dirs
    ensures !CheckOverlays(w, s, e, n, ods).Failed?
  {
    if ods != [] {
      assert ods[|ods| - 1] in ods;
      ChecksRead(w, s, e, n, ods[..|ods| - 1]);
    }
  }

  lemma {:induction false} OverlaysRecorded(w: World, ods: seq<OverlayDir>)
    requires forall od <- ods :: od.source in w.dirs
    ensures RecordOverlays(w, ods).Ok?
  {
    if ods != [] {
      assert ods[|ods| - 1] in ods;
      OverlaysRecorded(w, ods[..|ods| - 1]);
    }
  }

  lemma {:induction false} ImportsRecorded(w: World, s: State, n: Name, imports: seq<Import>)
    requires n in s.imported && forall imp <- imports :: !imp.copied ==> Fname(imp.location) in s.imported[n]
    ensures RecordImports(s, n, imports).Ok?
  {
    if imports != [] {
      assert imports[|imports| - 1] in imports;
      ImportsRecorded(w, s, n, imports[..|imports| - 1]);
    }
  }

  lemma ImportedPresent(w: World, roots: map<Name, Option<Fs>>, imports: seq<Import>)
    requires ImportAll(w, roots, imports).Ok?
    ensures forall imp <- imports :: !imp.copied ==> Fname(imp.location) in ImportAll(w, roots, imports).value
  {
    ImportedNames(w, roots, imports);
    forall imp | imp in imports && !imp.copied ensures Fname(imp.location) in ImportAll(w, roots, imports).value {
      assert Named(imports, Fname(imp.location));
    }
  }

  // ----- one turn -----

  /** A clean build of one more layer succeeds. */
  lemma FreshParts(w: World, done: seq<Name>, n: Name)
    requires FreshRun(w, done).Ok? && FreshRun(w, done + [n]).Ok?
    ensures n in w.layers
    ensures var ideal, l := FreshRun(w, done).value, w.layers[n];
      ImportAll(w, ideal, l.imports).Ok? && BuildFs(w, ideal, l, ImportAll(w, ideal, l.imports).value).Ok?
  {
    assert (done + [n])[..|done|] == done;
  }

  /** What building the layer reads is there. */
  ghost predicate Readable(w: World, s: State, l: Layer)
    requires Ranked(w)
  {
    && (l.from.Tar? ==> l.from.url in w.tars) && (l.from.Image? ==> l.from.tag in w.images)
    && (l.from.Built? ==> l.from.tag in w.layers && LookupEntry(w, s, l.from.tag).Hit?)
    && forall od <- l.overlayDirs :: od.source in w.dirs
  }

  lemma BaseReadable(w: World, s: State, n: Name)
    requires Ranked(w) && n in w.layers && Readable(w, s, w.layers[n])
    ensures GetBaseHash(w, s, n).Ok?
  {
  }

  lemma LookupReads(w: World, s: State, n: Name)
    requires Ranked(w) && n in w.layers && Readable(w, s, w.layers[n])
    ensures !LookupEntry(w, s, n).Error?
  {
    if n in s.cache && s.cache[n].layer == w.layers[n] {
      BaseReadable(w, s, n);
      ChecksRead(w, s, s.cache[n], n, w.layers[n].overlayDirs);
    }
  }

  lemma PutSucceeds(w: World, s: State, n: Name, manifests: map<LayerType, Blob>)
    requires Ranked(w) && n in w.layers && Readable(w, s, w.layers[n]) && n in s.imported
    requires forall imp <- w.layers[n].imports :: !imp.copied ==> Fname(imp.location) in s.imported[n]
    ensures Put(w, s, n, manifests).Ok?
  {
    BaseReadable(w, s, n);
    ImportsRecorded(w, s, n, w.layers[n].imports);
    OverlaysRecorded(w, w.layers[n].overlayDirs);
  }

  lemma RebuildSucceeds(w: World, s: State, n: Name, lts: seq<LayerType>, emitted: Emitted)
    requires Ranked(w) && |lts| > 0 && n in w.layers && n in s.imported && Readable(w, s, w.layers[n])
    requires forall imp <- w.layers[n].imports :: !imp.copied ==> Fname(imp.location) in s.imported[n]
    requires BuildFs(w, s.roots - {n}, w.layers[n], s.imported[n]).Ok?
    ensures Rebuild(w, s, n, lts, emitted).Ok?
  {
    var fs := BuildFs(w, s.roots - {n}, w.layers[n], s.imported[n]).value;
    var ran := Ran(w, s, n, fs, lts, emitted);
    RanAt(w, s, n, fs, lts, emitted);
    if w.layers[n].from.Built? {
      LookupBelow(w, s, ran, w.layers[n].from.tag, n);
    }
    PutSucceeds(w, ran, n, ManifestsFor(w, n, fs, lts, emitted));
  }

  lemma StartSucceeds(w: World, s: State, done: seq<Name>, n: Name, lts: seq<LayerType>)
    requires Ranked(w) && RunInv(w, s, done, lts) && Ordered(w, done + [n]) && FreshRun(w, done + [n]).Ok?
    ensures StartLayer(w, s, n).Ok?
  {
    assert (done + [n])[..|done|] == done;
    FreshParts(w, done, n);
    var ideal := FreshRun(w, done).value;
    forall imp <- w.layers[n].imports | imp.location.Stacker? ensures
      imp.location.host in s.roots && imp.location.host in ideal && s.roots[imp.location.host] == ideal[imp.location.host]
    {
      assert Settled(w, s, ideal, imp.location.host, lts);
    }
    ImportAgree(w, s.roots, ideal, w.layers[n].imports);
  }

  lemma ReadableAfterStart(w: World, s: State, done: seq<Name>, n: Name, lts: seq<LayerType>)
    requires Ranked(w) && RunInv(w, s, done, lts) && n in w.layers && DependsOnlyOn(w, n, done)
    requires FreshRun(w, done + [n]).Ok?
    ensures Readable(w, s, w.layers[n])
  {
    FreshParts(w, done, n);
    DirsPresent(w.dirs, w.layers[n].overlayDirs);
    if w.layers[n].from.Built? {
      assert Settled(w, s, FreshRun(w, done).value, w.layers[n].from.tag, lts);
    }
  }

  lemma BuildSucceedsToo(w: World, s: State, done: seq<Name>, n: Name, lts: seq<LayerType>)
    requires Ranked(w) && RunInv(w, s, done, lts) && n in w.layers && Tracked(w.layers[n]) && n !in done && DependsOnlyOn(w, n, done)
    requires FreshRun(w, done + [n]).Ok? && n in s.imported
    requires ImportAll(w, FreshRun(w, done).value, w.layers[n].imports) == Ok(s.imported[n])
    ensures BuildFs(w, s.roots - {n}, w.layers[n], s.imported[n]).Ok?
  {
    var ideal := FreshRun(w, done).value;
    FreshParts(w, done, n);
    if w.layers[n].from.Built? {
      assert Settled(w, s, ideal, w.layers[n].from.tag, lts);
    }
    BuildAgree(w, s.roots - {n}, ideal, w.layers[n], s.imported[n]);
  }

  lemma TurnSucceeds(w: World, s: State, done: seq<Name>, n: Name, lts: seq<LayerType>, emitted: Emitted)
    requires Ranked(w) && |lts| > 0 && RunInv(w, s, done, lts) && Ordered(w, done + [n])
    requires n in w.layers && Tracked(w.layers[n]) && FreshRun(w, done + [n]).Ok?
    ensures Process(w, s, n, lts, emitted).Ok?
  {
    StartSucceeds(w, s, done, n, lts);
    StartedOk(w, s, done, n, lts);
    var started := StartLayer(w, s, n).value;
    ReadableAfterStart(w, started, done, n, lts);
    LookupReads(w, started, n);
    ImportedPresent(w, s.roots, w.layers[n].imports);
    var hit := LookupEntry(w, started, n);
    if hit.Hit? {
      HitMeansCached(w, started, n);
      UsedRun(w, started, done, n, lts);
      var used := UseCached(started, n, hit.entry, lts);
      UsedReadable(w, started, used, done, n, lts);
      BuildSucceedsToo(w, used, done, n, lts);
      RebuildSucceeds(w, used, n, lts, emitted);
    } else {
      BuildSucceedsToo(w, started, done, n, lts);
      RebuildSucceeds(w, started, n, lts, emitted);
    }
  }

  lemma UsedReadable(w: World, s: State, used: State, done: seq<Name>, n: Name, lts: seq<LayerType>)
    requires Ranked(w) && RunInv(w, used, done, lts) && n in w.layers && DependsOnlyOn(w, n, done)
    requires FreshRun(w, done + [n]).Ok? && n in s.cache && used == UseCached(s, n, s.cache[n], lts)
    ensures Readable(w, used, w.layers[n]) && used.imported == s.imported
  {
    ReadableAfterStart(w, used, done, n, lts);
  }

  // ----- whole runs -----

  lemma {:induction false} FreshPrefix(w: World, a: seq<Name>, b: seq<Name>)
    requires FreshRun(w, a + b).Ok?
    ensures FreshRun(w, a).Ok?
  {
    if b == [] {
      assert a + b == a;
    } else {
      assert (a + b)[..|a + b| - 1] == a + b[..|b| - 1];
      FreshPrefix(w, a, b[..|b| - 1]);
    }
  }

  lemma {:induction false} LayersSucceed(w: World, s: State, done: seq<Name>, order: seq<Name>, lts: seq<LayerType>, emitted: Emitted)
    requires Ranked(w) && |lts| > 0 && RunInv(w, s, done, lts) && Ordered(w, done + order) && AllTracked(w, done + order)
    requires HitsAreWhole(w, s, order, lts, emitted) && FreshRun(w, done + order).Ok?
    ensures RunLayers(w, s, order, lts, emitted).Ok?
    ensures RunInv(w, RunLayers(w, s, order, lts, emitted).value, done + order, lts)
  {
    if order == [] {
      assert done + order == done;
    } else {
      var before, n := order[..|order| - 1], order[|order| - 1];
      OrderedLast(w, done, order);
      FreshPrefix(w, done + before, [n]);
      assert forall m <- done + before :: m in done + order;
      LayersSucceed(w, s, done, before, lts, emitted);
      var s0 := RunLayers(w, s, before, lts, emitted).value;
      assert n in done + order;
      TurnSucceeds(w, s0, done + before, n, lts, emitted);
      ProcessStep(w, s0, done + before, n, lts, emitted);
    }
  }

  lemma {:induction false} FilesSucceed(w: World, s: State, files: seq<seq<Name>>, lts: seq<LayerType>, emitted: Emitted)
    requires Ranked(w) && |lts| > 0 && Coherent(s) && Ordered(w, Concat(files)) && AllTracked(w, Concat(files))
    requires FilesAreWhole(w, s, files, lts, emitted) && FreshRun(w, Concat(files)).Ok?
    ensures RunFiles(w, s, files, lts, emitted).Ok?
    ensures RunInv(w, RunFiles(w, s, files, lts, emitted).value, Concat(files), lts)
  {
    if files != [] {
      var before, file := files[..|files| - 1], files[|files| - 1];
      OrderedPrefix(w, Concat(before), file);
      FreshPrefix(w, Concat(before), file);
      assert forall m <- Concat(before) :: m in Concat(before) + file;
      FilesSucceed(w, s, before, lts, emitted);
      var s0 := RunFiles(w, s, before, lts, emitted).value;
      ReopenRun(w, s0, Concat(before), lts);
      LayersSucceed(w, OpenCache(s0), Concat(before), file, lts, emitted);
      CollectRun(w, RunLayers(w, OpenCache(s0), file, lts, emitted).value, Concat(files), lts);
    }
  }

  /** After any past, the run succeeds if and only if a clean build of the same layers does. */
  lemma RunSucceedsIffClean(events: seq<Event>, w: World, files: seq<seq<Name>>, lts: seq<LayerType>, emitted: Emitted)
    requires Past(events).Ok? && Ranked(w) && |lts| > 0 && Ordered(w, Concat(files)) && AllTracked(w, Concat(files))
    requires FilesAreWhole(w, Past(events).value, files, lts, emitted)
    ensures RunFiles(w, Past(events).value, files, lts, emitted).Ok? <==> FreshRun(w, Concat(files)).Ok?
  {
    PastIsCoherent(events);
    AllKept(w, Concat(files));
    if RunFiles(w, Past(events).value, files, lts, emitted).Ok? {
      FilesStep(w, Past(events).value, files, lts, emitted);
    }
    if FreshRun(w, Concat(files)).Ok? {
      FilesSucceed(w, Past(events).value, files, lts, emitted);
    }
  }
}

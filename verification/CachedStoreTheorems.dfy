/** What a run with a cache leaves in the layer store: exactly when its images and mounts are those
    of a clean build. */
module CachedStoreTheorems {
  import opened Collections
  import opened Wrappers
  import opened CacheModel
  import opened CacheProofs
  import opened CacheTheorems
  import opened CachedStore
  import opened CachedStoreProofs
  import opened OverlayProofs
  import opened OverlaySteps
  import opened OverlayTheorems
  import opened OverlayMounts
  import D = OverlayDisk
  import R = OverlayRuns

  // ----- a lineage and what it was made from -----

  /** Every layer of the lineage left the change that a clean build of it leaves. */
  ghost predicate Faithful(m: Meaning, l: R.Lineage, fs: Fs) {
    && l.own == Change(m, fs)
    && match l
       case Root(_, _, source, _) =>
         (match fs.base
          case Pulled(digest) => source == Some(m.source(digest))
          case On(_) => false
          case _ => source == None)
       case Child(base, _, _, _, _) => fs.base.On? && Faithful(m, base, fs.base.fs)
  }

  lemma {:induction false} FaithfulStack(m: Meaning, l: R.Lineage, fs: Fs)
    requires Faithful(m, l, fs)
    ensures R.Expected(l) == StackOf(m, fs)
  {
    if l.Child? {
      FaithfulStack(m, l.base, fs.base.fs);
    }
  }

  lemma RecordedIsThere(m: Meaning, c: Store, n: Name, lt: LayerType, lts: seq<LayerType>)
    requires StoreInv(m, c, lts) && n in c.s.cache && !c.s.cache[n].layer.buildOnly && lt in c.s.cache[n].manifests
    requires n in c.s.roots && c.s.roots[n].Some?
    ensures D.Ref(n, lt) in c.sys.disk.images && c.sys.disk.images[D.Ref(n, lt)] == c.s.cache[n].manifests[lt].layers
  {
    assert EntryOk(c.s, n);
    assert LinkedAt(c, Ref(n, lt));
  }

  /** A recorded image is the stack of a clean build if and only if no layer of its lineage is stale. */
  lemma RecordedIsClean(m: Meaning, c: Store, n: Name, fs: Fs, lt: LayerType, lts: seq<LayerType>)
    requires StoreInv(m, c, lts) && n in c.s.cache && !c.s.cache[n].layer.buildOnly && lt in c.s.cache[n].manifests
    requires n in c.s.roots && c.s.roots[n] == Some(fs) && n in c.made
    ensures D.Ref(n, lt) in c.sys.disk.images
    ensures var image := c.sys.disk.images[D.Ref(n, lt)];
      && (forall x <- image :: x in c.sys.disk.store && x.layerType == lt)
      && (Faithful(m, c.made[n], fs) ==> (D.Resolve(c.sys.disk, image) == StackOf(m, fs) <==> R.Clean(c.made[n])))
  {
    RecordedIsThere(m, c, n, lt, lts);
    assert RecordOk(c, n, lts);
    var image := c.sys.disk.images[D.Ref(n, lt)];
    assert ListsLineage(c.sys.disk, c.made[n], image, lt);
    assert D.Resolve(c.sys.disk, image) == D.Diffs(image);
    if Faithful(m, c.made[n], fs) {
      FaithfulStack(m, c.made[n], fs);
    }
  }

  // ----- the cache's run and the real one -----

  /** Reading a path of another layer from what a clean build of that layer shows. */
  function IdealGrab(m: Meaning): (Name, Option<Fs>, string) -> Option<Content> {
    (host: Name, root: Option<Fs>, path: string) =>
      match root
      case None => None
      case Some(fs) => m.grab(D.View(StackOf(m, fs)), path)
  }

  /** The mount of `host` shows what a clean build of it shows. */
  ghost predicate HostRight(m: Meaning, c: Store, host: Name, pick: LayerType) {
    && host in c.s.roots && c.s.roots[host].Some?
    && ViewOf(c.sys.disk, host, pick) == Some(D.View(StackOf(m, c.s.roots[host].value)))
  }

  ghost predicate HostsRight(m: Meaning, c: Store, imports: seq<Import>, picks: Name -> LayerType) {
    forall imp <- imports :: imp.location.Stacker? ==> HostRight(m, c, imp.location.host, picks(imp.location.host))
  }

  lemma {:induction false} SameImports(m: Meaning, w: World, c: Store, imports: seq<Import>, picks: Name -> LayerType)
    requires w.grab == IdealGrab(m) && HostsRight(m, c, imports, picks)
    ensures ImportAll(Real(m, w, c.sys.disk, picks), c.s.roots, imports) == ImportAll(w, c.s.roots, imports)
  {
    if imports != [] {
      assert imports[|imports| - 1] in imports;
      SameImports(m, w, c, imports[..|imports| - 1], picks);
    }
  }

  /** A lookup does not read other layers' files. */
  lemma {:induction false} LookupGrabFree(w: World, g: (Name, Option<Fs>, string) -> Option<Content>, s: State, n: Name)
    requires Ranked(w)
    ensures Ranked(w.(grab := g))
    ensures LookupEntry(w.(grab := g), s, n) == LookupEntry(w, s, n) && GetBaseHash(w.(grab := g), s, n) == GetBaseHash(w, s, n)
    decreases Height(w, n)
  {
    if n in w.layers {
      if w.layers[n].from.Built? && w.layers[n].from.tag in w.layers {
        LookupGrabFree(w, g, s, w.layers[n].from.tag);
      }
      if n in s.cache {
        ChecksGrabFree(w, g, s, s.cache[n], n, s.cache[n].layer.overlayDirs);
      }
    }
  }

  lemma {:induction false} ChecksGrabFree(
      w: World, g: (Name, Option<Fs>, string) -> Option<Content>, s: State, e: CacheEntry, n: Name, ods: seq<OverlayDir>)
    ensures CheckOverlays(w.(grab := g), s, e, n, ods) == CheckOverlays(w, s, e, n, ods)
  {
    if ods != [] {
      ChecksGrabFree(w, g, s, e, n, ods[..|ods| - 1]);
    }
  }

  lemma {:induction false} RecordsGrabFree(w: World, g: (Name, Option<Fs>, string) -> Option<Content>, ods: seq<OverlayDir>)
    ensures RecordOverlays(w.(grab := g), ods) == RecordOverlays(w, ods)
  {
    if ods != [] {
      RecordsGrabFree(w, g, ods[..|ods| - 1]);
    }
  }

  lemma RebuildGrabFree(
      w: World, g: (Name, Option<Fs>, string) -> Option<Content>, s: State, n: Name, lts: seq<LayerType>, emitted: Emitted)
    requires Ranked(w) && Ranked(w.(grab := g)) && |lts| > 0 && n in w.layers && Tracked(w.layers[n]) && n in s.imported
    ensures Rebuild(w.(grab := g), s, n, lts, emitted) == Rebuild(w, s, n, lts, emitted)
  {
    var w', l := w.(grab := g), w.layers[n];
    NothingUnseen(w, s.roots - {n}, l);
    NothingUnseen(w', s.roots - {n}, l);
    var fs := BuildFs(w, s.roots - {n}, l, s.imported[n]);
    assert BuildFs(w', s.roots - {n}, l, s.imported[n]) == fs;
    RecordsGrabFree(w, g, l.overlayDirs);
    if fs.Ok? {
      LookupGrabFree(w, g, Ran(w, s, n, fs.value, lts, emitted), n);
    }
  }

  lemma ProcessGrabFree(
      w: World, g: (Name, Option<Fs>, string) -> Option<Content>, s: State, n: Name, lts: seq<LayerType>, emitted: Emitted)
    requires Ranked(w) && Ranked(w.(grab := g)) && |lts| > 0 && n in w.layers && Tracked(w.layers[n])
    requires StartLayer(w.(grab := g), s, n) == StartLayer(w, s, n)
    ensures Process(w.(grab := g), s, n, lts, emitted) == Process(w, s, n, lts, emitted)
  {
    if StartLayer(w, s, n).Ok? {
      var started := StartLayer(w, s, n).value;
      LookupGrabFree(w, g, started, n);
      RebuildGrabFree(w, g, started, n, lts, emitted);
      var hit := LookupEntry(w, started, n);
      if hit.Hit? {
        RebuildGrabFree(w, g, UseCached(started, n, hit.entry, lts), n, lts, emitted);
      }
    }
  }

  /** A turn whose imports come from layers that show what they should is a turn of the ideal world. */
  lemma TurnIsIdeal(m: Meaning, w: World, c: Store, n: Name, lts: seq<LayerType>, ch: Choices) returns (emitted: Emitted)
    requires Ranked(w) && |lts| > 0 && Turn(m, w, c, n, lts, ch).Ok? && w.grab == IdealGrab(m)
    requires n in w.layers && Tracked(w.layers[n]) && HostsRight(m, c, w.layers[n].imports, ch.picks)
    ensures Process(w, c.s, n, lts, emitted) == Ok(Turn(m, w, c, n, lts, ch).value.s)
  {
    emitted := TurnIsProcess(m, w, c, n, lts, ch);
    SameImports(m, w, c, w.layers[n].imports, ch.picks);
    ProcessGrabFree(w, RealGrab(m, c.sys.disk, ch.picks), c.s, n, lts, emitted);
  }

  // ----- the run -----

  /** A run of one world: turns, with collections and reopenings anywhere in between. */
  ghost predicate IsRun(w: World, run: seq<Happening>) {
    forall h <- run :: !h.RunFailed? && !h.PutFailed? && (h.Turned? ==> h.world == w)
  }

  function TurnNames(run: seq<Happening>): seq<Name> {
    if run == [] then []
    else
      var before, h := TurnNames(run[..|run| - 1]), run[|run| - 1];
      if h.Turned? then before + [h.name] else before
  }

  /** A turn of the run as the theorem needs it: a hit is on a root that no failed build left broken,
      and layers that are imported from show what they should. */
  ghost predicate TurnRight(m: Meaning, w: World, c: Store, n: Name, ch: Choices)
    requires Ranked(w)
  {
    HitIsWhole(w, c.s, n) && (n in w.layers ==> HostsRight(m, c, w.layers[n].imports, ch.picks))
  }

  ghost predicate RunRight(m: Meaning, bases: set<D.Digest>, lts: seq<LayerType>, past: seq<Happening>, w: World, run: seq<Happening>)
    requires Ranked(w) && |lts| > 0
  {
    run != [] ==>
      var before, h := run[..|run| - 1], run[|run| - 1];
      && RunRight(m, bases, lts, past, w, before)
      && var c := History(m, bases, lts, past + before);
         (c.Ok? && h.Turned? ==> TurnRight(m, w, c.value, h.name, h.choices))
  }

  lemma StoreTurnStep(m: Meaning, w: World, c: Store, before: seq<Name>, n: Name, lts: seq<LayerType>, ch: Choices)
    requires Ranked(w) && |lts| > 0 && w.grab == IdealGrab(m) && RunInv(w, c.s, Kept(w, before), lts)
    requires n !in before && n in w.layers && Turn(m, w, c, n, lts, ch).Ok? && TurnRight(m, w, c, n, ch)
    ensures RunInv(w, Turn(m, w, c, n, lts, ch).value.s, Kept(w, before + [n]), lts)
  {
    KeptNext(w, before, n);
    if Kept(w, before + [n]) == Kept(w, before) {
      var emitted := TurnIsProcess(m, w, c, n, lts, ch);
      LookupGrabFree(w, RealGrab(m, c.sys.disk, ch.picks), c.s, n);
      BystanderStep(w, c.s, Kept(w, before), Real(m, w, c.sys.disk, ch.picks), n, lts, emitted);
    } else {
      var emitted := TurnIsIdeal(m, w, c, n, lts, ch);
      ProcessStep(w, c.s, Kept(w, before), n, lts, emitted);
    }
  }

  lemma HistoryOneMore(m: Meaning, bases: set<D.Digest>, lts: seq<LayerType>, before: seq<Happening>, h: Happening)
    requires |lts| > 0
    ensures var c := History(m, bases, lts, before);
      History(m, bases, lts, before + [h]) == if c.Ok? then Happens(m, c.value, lts, h) else Err
  {
    assert (before + [h])[..|before|] == before;
  }

  lemma HistoryLast(m: Meaning, bases: set<D.Digest>, lts: seq<LayerType>, past: seq<Happening>, run: seq<Happening>)
    requires |lts| > 0 && run != []
    ensures var c := History(m, bases, lts, past + run[..|run| - 1]);
      History(m, bases, lts, past + run) == if c.Ok? then Happens(m, c.value, lts, run[|run| - 1]) else Err
  {
    var before, h := past + run[..|run| - 1], run[|run| - 1];
    LastOf(past, run);
    HistoryOneMore(m, bases, lts, before, h);
  }

  lemma LastOf<T>(past: seq<T>, run: seq<T>)
    requires run != []
    ensures past + run == (past + run[..|run| - 1]) + [run[|run| - 1]]
  {
  }

  /** At every point of the run what was built so far is, for the cache, what a clean build makes. */
  lemma {:induction false} RunKeeps(m: Meaning, bases: set<D.Digest>, lts: seq<LayerType>, past: seq<Happening>, w: World, run: seq<Happening>)
    requires |lts| > 0 && Distinct(lts) && History(m, bases, lts, past + run).Ok?
    requires Ranked(w) && w.grab == IdealGrab(m) && IsRun(w, run) && Ordered(w, TurnNames(run))
    requires RunRight(m, bases, lts, past, w, run)
    ensures RunInv(w, History(m, bases, lts, past + run).value.s, Kept(w, TurnNames(run)), lts)
  {
    if run == [] {
      HistoryInv(m, bases, lts, past + run);
    } else {
      var before, h := run[..|run| - 1], run[|run| - 1];
      HistoryLast(m, bases, lts, past, run);
      assert h in run && forall k <- before :: k in run;
      var c := History(m, bases, lts, past + before).value;
      match h {
        case Turned(_, n, ch) =>
          assert TurnNames(run)[..|TurnNames(before)|] == TurnNames(before);
          RunKeeps(m, bases, lts, past, w, before);
          StoreTurnStep(m, w, c, TurnNames(before), n, lts, ch);
        case Collected =>
          RunKeeps(m, bases, lts, past, w, before);
          CollectRun(w, c.s, Kept(w, TurnNames(before)), lts);
        case Reopened =>
          RunKeeps(m, bases, lts, past, w, before);
          ReopenRun(w, c.s, Kept(w, TurnNames(before)), lts);
      }
    }
  }

  /** The main theorem for images.  After any past, a run leaves every tracked output layer an image in
      every format.  If its last build was on a base that stood, the image is in the store, and if each
      layer of the lineage left the change a clean build leaves, it is the stack of a clean build if
      and only if no layer of the lineage is stale, whether the layers were rebuilt now or used from the
      cache. */
  lemma CachedImagesAreExact(
      m: Meaning, bases: set<D.Digest>, lts: seq<LayerType>, past: seq<Happening>, w: World, run: seq<Happening>, n: Name, lt: LayerType)
    requires |lts| > 0 && Distinct(lts) && History(m, bases, lts, past + run).Ok?
    requires Ranked(w) && w.grab == IdealGrab(m) && IsRun(w, run) && Ordered(w, TurnNames(run))
    requires RunRight(m, bases, lts, past, w, run)
    requires n in Kept(w, TurnNames(run)) && lt in lts
    ensures n in w.layers && FreshRun(w, Kept(w, TurnNames(run))).Ok?
    ensures var clean := FreshRun(w, Kept(w, TurnNames(run))).value; n in clean && clean[n].Some?
    ensures !w.layers[n].buildOnly ==>
      var c, fs := History(m, bases, lts, past + run).value, FreshRun(w, Kept(w, TurnNames(run))).value[n].value;
      && D.Ref(n, lt) in c.sys.disk.images
      && (n in c.made ==>
            var image := c.sys.disk.images[D.Ref(n, lt)];
            && (forall x <- image :: x in c.sys.disk.store && x.layerType == lt)
            && (Faithful(m, c.made[n], fs) ==> (D.Resolve(c.sys.disk, image) == StackOf(m, fs) <==> R.Clean(c.made[n]))))
  {
    HistoryInv(m, bases, lts, past + run);
    RunKeeps(m, bases, lts, past, w, run);
    var c := History(m, bases, lts, past + run).value;
    var clean := FreshRun(w, Kept(w, TurnNames(run))).value;
    assert Settled(w, c.s, clean, n, lts);
    if !w.layers[n].buildOnly {
      SettledRecorded(m, c, w, clean, n, lt, lts);
    }
  }

  lemma SettledRecorded(m: Meaning, c: Store, w: World, clean: map<Name, Option<Fs>>, n: Name, lt: LayerType, lts: seq<LayerType>)
    requires Ranked(w) && StoreInv(m, c, lts) && Settled(w, c.s, clean, n, lts) && !w.layers[n].buildOnly && lt in lts
    ensures D.Ref(n, lt) in c.sys.disk.images
    ensures n in c.made ==>
      var image := c.sys.disk.images[D.Ref(n, lt)];
      && (forall x <- image :: x in c.sys.disk.store && x.layerType == lt)
      && (Faithful(m, c.made[n], clean[n].value) ==>
            (D.Resolve(c.sys.disk, image) == StackOf(m, clean[n].value) <==> R.Clean(c.made[n])))
  {
    HitMeans(w, c.s, n);
    RecordedIsThere(m, c, n, lt, lts);
    if n in c.made {
      RecordedIsClean(m, c, n, clean[n].value, lt, lts);
    }
  }
}

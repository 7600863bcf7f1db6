/** What every turn of the build loop keeps of the cache and the disk together. */
module CachedStoreProofs {
  import opened Collections
  import opened Wrappers
  import opened CacheModel
  import opened CacheProofs
  import opened CacheTheorems
  import opened CachedStore
  import opened OverlayProofs
  import opened OverlaySteps
  import opened OverlayTheorems
  import opened OverlayMounts
  import opened OverlayGrowth
  import D = OverlayDisk
  import R = OverlayRuns
  import O = OverlayStore

  // ----- the invariant -----

  /** A standing layer is its last completed build, and whole. */
  ghost predicate StandsOk(c: Store, n: Name)
    requires n in c.sys.built
  {
    n in c.made && c.made[n] == c.sys.built[n] && n in c.s.roots && c.s.roots[n].Some?
  }

  /** What a reference points at is what the descriptor lists. */
  ghost predicate LinkedAt(c: Store, ref: Ref) {
    ref in c.s.images && D.Ref(ref.name, ref.layerType) in c.sys.disk.images &&
    c.sys.disk.images[D.Ref(ref.name, ref.layerType)] == c.s.images[ref].layers
  }

  /** A list of layers is in the store and has the lineage's stack, unless a layer of it is stale. */
  ghost predicate ListsLineage(d: D.Disk, l: R.Lineage, layers: D.Manifest, lt: LayerType) {
    R.Stored(d, layers, lt) && R.Match(l, D.Diffs(layers))
  }

  /** The images an entry records have the lineage of the layer's last completed build, if its base stood. */
  ghost predicate RecordOk(c: Store, n: Name, lts: seq<LayerType>)
    requires n in c.s.cache
  {
    var e := c.s.cache[n];
    !e.layer.buildOnly && n in c.s.roots && c.s.roots[n].Some? && n in c.made ==>
      forall lt <- e.manifests :: lt in lts && ListsLineage(c.sys.disk, c.made[n], e.manifests[lt].layers, lt)
  }

  /** The definition and the base in an entry are those of the lineage. */
  ghost predicate Pairs(m: Meaning, e: CacheEntry, l: R.Lineage) {
    && l.buildOnly == e.layer.buildOnly
    && match e.layer.from
       case Built(tag) => l.Child? && l.base.name == tag
       case Image(_) => l.Root? && e.base.ManifestHash? && l.source == Some(m.source(e.base.digest))
       case _ => l.Root? && l.source == None
  }

  ghost predicate MadeOk(m: Meaning, c: Store, n: Name)
    requires n in c.made
  {
    c.made[n].name == n && (n in c.s.cache ==> Pairs(m, c.s.cache[n], c.made[n]))
  }

  ghost predicate StoreInv(m: Meaning, c: Store, lts: seq<LayerType>) {
    && Coherent(c.s) && R.Inv(c.sys, lts)
    && (forall n {:trigger StandsOk(c, n)} | n in c.sys.built :: StandsOk(c, n))
    && (forall n {:trigger MadeOk(m, c, n)} | n in c.made :: MadeOk(m, c, n))
    && (forall ref <- c.s.images :: ref.layerType in lts && LinkedAt(c, ref))
    && (forall n {:trigger RecordOk(c, n, lts)} | n in c.s.cache :: RecordOk(c, n, lts))
  }

  lemma BeginInv(m: Meaning, bases: set<D.Digest>, lts: seq<LayerType>)
    ensures StoreInv(m, Begin(bases), lts)
  {
  }

  lemma ListsKept(d: D.Disk, d': D.Disk, l: R.Lineage, layers: D.Manifest, lt: LayerType)
    requires Extends(d, d') && ListsLineage(d, l, layers, lt)
    ensures ListsLineage(d', l, layers, lt)
  {
  }

  /** Changing only bookkeeping that the invariant does not mention. */
  lemma SameInv(m: Meaning, c: Store, c': Store, lts: seq<LayerType>)
    requires StoreInv(m, c, lts) && Coherent(c'.s) && c'.sys == c.sys && c'.made == c.made
    requires c'.s.roots == c.s.roots && c'.s.images == c.s.images
    requires forall n <- c'.s.cache :: n in c.s.cache && c'.s.cache[n] == c.s.cache[n]
    ensures StoreInv(m, c', lts)
  {
    forall n | n in c'.sys.built ensures StandsOk(c', n) {
      assert StandsOk(c, n);
    }
    forall n | n in c'.made ensures MadeOk(m, c', n) {
      assert MadeOk(m, c, n);
    }
    forall ref | ref in c'.s.images ensures ref.layerType in lts && LinkedAt(c', ref) {
      assert LinkedAt(c, ref);
    }
    forall n | n in c'.s.cache ensures RecordOk(c', n, lts) {
      assert RecordOk(c, n, lts);
    }
  }

  lemma CollectInv(m: Meaning, c: Store, lts: seq<LayerType>)
    requires StoreInv(m, c, lts)
    ensures StoreInv(m, c.(s := CollectGarbage(c.s)), lts)
  {
    CollectKeeps(c.s);
    SameInv(m, c, c.(s := CollectGarbage(c.s)), lts);
  }

  lemma ReopenInv(m: Meaning, c: Store, lts: seq<LayerType>)
    requires StoreInv(m, c, lts)
    ensures StoreInv(m, c.(s := OpenCache(c.s)), lts)
  {
    ReopenKeeps(c.s);
    SameInv(m, c, c.(s := OpenCache(c.s)), lts);
  }

  lemma StartInv(m: Meaning, w: World, c: Store, n: Name, lts: seq<LayerType>)
    requires StoreInv(m, c, lts) && StartLayer(w, c.s, n).Ok?
    ensures StoreInv(m, c.(s := StartLayer(w, c.s, n).value), lts)
  {
    StartKeeps(w, c.s, n);
    SameInv(m, c, c.(s := StartLayer(w, c.s, n).value), lts);
  }

  // ----- using a cached entry -----

  lemma NotStandingNotBelow(d: D.Disk, built: map<Name, R.Lineage>, n: Name, lts: seq<LayerType>)
    requires R.BuiltOk(d, built, lts) && n !in built
    ensures forall k <- built :: n !in R.Names(built[k])
  {
    forall k | k in built ensures n !in R.Names(built[k]) {
      assert R.Good(d, built, k, lts);
      if n in R.Names(built[k]) {
        AncestorNames(d, built, built[k], n, lts);
      }
    }
  }

  lemma RestoreShape(sys: R.Sys, n: Name, e: CacheEntry, lts: seq<LayerType>)
    ensures var sys' := Restore(sys, n, e, lts);
      && sys' == sys.(disk := sys.disk.(images := sys'.disk.images))
      && (e.layer.buildOnly ==> sys' == sys)
      && (!e.layer.buildOnly ==> forall lt <- lts :: lt in e.manifests ==>
            D.Ref(n, lt) in sys'.disk.images && sys'.disk.images[D.Ref(n, lt)] == e.manifests[lt].layers)
      && (forall ref <- sys.disk.images :: ref.name != n || ref.layerType !in e.manifests || ref.layerType !in lts ==>
            ref in sys'.disk.images && sys'.disk.images[ref] == sys.disk.images[ref])
      && (forall ref <- sys'.disk.images :: ref in sys.disk.images || (ref.name == n && ref.layerType in lts && ref.layerType in e.manifests))
  {
  }

  /** Moving references of a layer that stands moves nothing. */
  lemma RestoreStanding(m: Meaning, c: Store, n: Name, lts: seq<LayerType>)
    requires StoreInv(m, c, lts) && n in c.s.cache && n in c.sys.built
    ensures Restore(c.sys, n, c.s.cache[n], lts) == c.sys
  {
    var e := c.s.cache[n];
    assert StandsOk(c, n) && EntryOk(c.s, n);
    RestoreShape(c.sys, n, e, lts);
    var sys' := Restore(c.sys, n, e, lts);
    if !e.layer.buildOnly {
      forall lt | lt in lts && lt in e.manifests
        ensures D.Ref(n, lt) in c.sys.disk.images && c.sys.disk.images[D.Ref(n, lt)] == e.manifests[lt].layers
      {
        assert LinkedAt(c, Ref(n, lt));
      }
      assert sys'.disk.images == c.sys.disk.images;
    }
  }

  lemma RestoreInv(sys: R.Sys, n: Name, e: CacheEntry, lts: seq<LayerType>)
    requires R.Inv(sys, lts) && n !in sys.built
    ensures R.Inv(Restore(sys, n, e, lts), lts)
  {
    var sys' := Restore(sys, n, e, lts);
    RestoreShape(sys, n, e, lts);
    NotStandingNotBelow(sys.disk, sys.built, n, lts);
    BuiltBeside(sys.disk, sys'.disk, sys.built, n, lts);
    assert R.Forget(sys.built, n) == sys.built;
  }

  lemma ReferencedLinks(m: Meaning, c: Store, n: Name, lts: seq<LayerType>)
    requires StoreInv(m, c, lts) && n in c.s.cache
    ensures var c' := Referenced(c, n, c.s.cache[n], lts);
      forall ref <- c'.s.images :: ref.layerType in lts && LinkedAt(c', ref)
  {
    var e := c.s.cache[n];
    var c' := Referenced(c, n, e, lts);
    RestoreShape(c.sys, n, e, lts);
    UsedImages(c.s, n, e, lts);
    forall ref | ref in c'.s.images ensures ref.layerType in lts && LinkedAt(c', ref) {
      if ref in c.s.images {
        assert LinkedAt(c, ref);
      }
    }
  }

  lemma SetImagesOnly(s: State, n: Name, manifests: map<LayerType, Blob>)
    ensures forall ref <- SetImages(s, n, manifests).images ::
      if ref.name == n && ref.layerType in manifests then SetImages(s, n, manifests).images[ref] == manifests[ref.layerType]
      else ref in s.images && SetImages(s, n, manifests).images[ref] == s.images[ref]
  {
    SetImagesAt(s, n, manifests);
  }

  /** The layer's references come from the entry, the others stay. */
  lemma UsedImages(s: State, n: Name, e: CacheEntry, lts: seq<LayerType>)
    ensures var images := UseCached(s, n, e, lts).images;
      && (e.layer.buildOnly ==> images == s.images)
      && forall ref <- images ::
           if !e.layer.buildOnly && ref.name == n && ref.layerType in lts && ref.layerType in e.manifests
           then images[ref] == e.manifests[ref.layerType]
           else ref in s.images && images[ref] == s.images[ref]
  {
    if !e.layer.buildOnly {
      SetImagesOnly(s, n, map lt | lt in lts && lt in e.manifests :: e.manifests[lt]);
    }
  }

  lemma ReferencedInv(m: Meaning, c: Store, n: Name, lts: seq<LayerType>)
    requires StoreInv(m, c, lts) && n in c.s.cache
    ensures StoreInv(m, Referenced(c, n, c.s.cache[n], lts), lts)
  {
    var e := c.s.cache[n];
    var c' := Referenced(c, n, e, lts);
    UseCachedKeeps(c.s, n, lts);
    ReferencedLinks(m, c, n, lts);
    RestoreShape(c.sys, n, e, lts);
    if n in c.sys.built {
      RestoreStanding(m, c, n, lts);
    } else {
      RestoreInv(c.sys, n, e, lts);
    }
    forall k | k in c'.sys.built ensures StandsOk(c', k) {
      assert StandsOk(c, k);
    }
    forall k | k in c'.made ensures MadeOk(m, c', k) {
      assert MadeOk(m, c, k);
    }
    forall k | k in c'.s.cache ensures RecordOk(c', k, lts) {
      assert RecordOk(c, k, lts);
    }
  }

  /** A layer that returns is one of those that stand. */
  lemma ReturnBuilt(m: Meaning, c: Store, n: Name, lts: seq<LayerType>)
    requires StoreInv(m, c, lts) && Returns(c, n, lts)
    ensures R.BuiltOk(c.sys.disk, c.sys.built[n := c.made[n]], lts) && c.made[n].name == n
    ensures R.Known(c.sys.built[n := c.made[n]], c.made[n], lts)
  {
    assert MadeOk(m, c, n);
    var l := c.made[n];
    NotStandingNotBelow(c.sys.disk, c.sys.built, n, lts);
    if l.Child? {
      assert R.Good(c.sys.disk, c.sys.built, l.base.name, lts);
    }
    BuiltWith(c.sys.disk, c.sys.built, l, lts);
  }

  lemma UseInv(m: Meaning, c: Store, n: Name, lts: seq<LayerType>)
    requires StoreInv(m, c, lts) && n in c.s.cache
    ensures StoreInv(m, Use(c, n, c.s.cache[n], lts), lts)
  {
    ReferencedInv(m, c, n, lts);
    var used, c' := Referenced(c, n, c.s.cache[n], lts), Use(c, n, c.s.cache[n], lts);
    if Returns(used, n, lts) {
      ReturnBuilt(m, used, n, lts);
      forall k | k in c'.sys.built ensures StandsOk(c', k) {
        assert k != n ==> StandsOk(used, k);
      }
      forall k | k in c'.made ensures MadeOk(m, c', k) {
        assert MadeOk(m, used, k);
      }
      forall ref | ref in c'.s.images ensures ref.layerType in lts && LinkedAt(c', ref) {
        assert LinkedAt(used, ref);
      }
      forall k | k in c'.s.cache ensures RecordOk(c', k, lts) {
        assert RecordOk(used, k, lts);
      }
    }
  }

  // ----- rebuilding a layer -----

  lemma DefIs(m: Meaning, w: World, l: Layer)
    requires DefOf(m, w, l).Ok?
    ensures var def := DefOf(m, w, l).value;
      && def.buildOnly == l.buildOnly && (def.from.Built? <==> l.from.Built?)
      && (def.from.Built? ==> def.from.tag == l.from.tag)
  {
  }

  lemma StepIs(m: Meaning, w: World, c: Store, n: Name, ch: Choices)
    requires n in w.layers && n in c.s.imported && StepFor(m, w, c, n, ch).Ok?
    ensures var step := StepFor(m, w, c, n, ch).value;
      && step.name == n && step.pick == ch.pick && step.enc == ch.enc && step.def.buildOnly == w.layers[n].buildOnly
      && DefOf(m, w, w.layers[n]) == Ok(step.def) && w.layers[n].overlayDirs == []
      && (step.def.from.Built? <==> w.layers[n].from.Built?)
      && (step.def.from.Built? ==> step.def.from.tag == w.layers[n].from.tag)
      && D.SetupRootfs(c.sys.disk, n, step.def.from, ch.pick).Ok? && CanPick(c.sys.disk, step.def.from, ch.pick)
      && ViewOf(D.SetupRootfs(c.sys.disk, n, step.def.from, ch.pick).value, n, ch.seen).Some?
      && step.own == m.run(ViewOf(D.SetupRootfs(c.sys.disk, n, step.def.from, ch.pick).value, n, ch.seen).value, InputsFor(w, c.s, n))
  {
    var def := DefOf(m, w, w.layers[n]);
    assert def.Ok? && w.layers[n].overlayDirs == [] && CanPick(c.sys.disk, def.value.from, ch.pick);
    DefIs(m, w, w.layers[n]);
    var mounted := D.SetupRootfs(c.sys.disk, n, def.value.from, ch.pick);
    assert mounted.Ok?;
    var tree := ViewOf(mounted.value, n, ch.seen);
    assert tree.Some?;
    assert StepFor(m, w, c, n, ch) == Ok(R.Step(n, def.value, m.run(tree.value, InputsFor(w, c.s, n)), ch.pick, ch.enc));
  }

  /** The parts of a rebuild. */
  lemma RebuiltIs(m: Meaning, w: World, c: Store, n: Name, lts: seq<LayerType>, ch: Choices)
    requires Ranked(w) && |lts| > 0 && n in w.layers && n in c.s.imported && Rebuilt(m, w, c, n, lts, ch).Ok?
    ensures StepFor(m, w, c, n, ch).Ok? && StartIn(m, w, n).Ok?
    ensures var c', step := Rebuilt(m, w, c, n, lts, ch).value, StepFor(m, w, c, n, ch).value;
      && R.BuildLayer(c.sys.disk, step, StartIn(m, w, n).value, lts) == Ok(c'.sys.disk)
      && Rebuild(w, c.s, n, lts, Emits(c'.sys.disk)) == Ok(c'.s)
      && c'.sys.built == StandingAfter(c.sys, step, lts) && c'.made == MadeAfter(c, step, lts)
  {
  }

  /** The base's hash is the same before and after running the layer. */
  lemma RecordedBase(w: World, s: State, n: Name, lts: seq<LayerType>, emitted: Emitted)
    requires Ranked(w) && |lts| > 0 && n in w.layers && n in s.imported && Rebuild(w, s, n, lts, emitted).Ok?
    ensures var r := Rebuild(w, s, n, lts, emitted).value;
      && n in r.cache && GetBaseHash(w, s, n) == Ok(r.cache[n].base) && r.cache[n].epoch == w.epoch
      && r.cache[n].layer == w.layers[n]
  {
    RebuildIs(w, s, n, lts, emitted);
    var fs := BuildFs(w, s.roots - {n}, w.layers[n], s.imported[n]).value;
    var ran := Ran(w, s, n, fs, lts, emitted);
    RanAt(w, s, n, fs, lts, emitted);
    PutEntry(w, ran, n, ManifestsFor(w, n, fs, lts, emitted));
    if w.layers[n].from.Built? && w.layers[n].from.tag in w.layers {
      LookupBelow(w, s, ran, w.layers[n].from.tag, n);
    }
  }

  /** The definitions of a standing layer that hits are those its lineage was built from. */
  lemma {:induction false} HitDescribed(m: Meaning, w: World, c: Store, n: Name, lts: seq<LayerType>)
    requires StoreInv(m, c, lts) && Ranked(w) && LookupEntry(w, c.s, n).Hit? && n in c.sys.built
    ensures O.Describes(Definitions(m, w), c.sys.built[n])
    decreases c.sys.built[n]
  {
    HitMeans(w, c.s, n);
    var l := c.sys.built[n];
    assert StandsOk(c, n) && MadeOk(m, c, n) && R.Good(c.sys.disk, c.sys.built, n, lts);
    if l.Child? {
      NameInNames(l.base);
      HitDescribed(m, w, c, l.base.name, lts);
    }
  }

  /** On a base that stands the definitions name the start that the lineage calls for. */
  lemma StartAgrees(m: Meaning, w: World, c: Store, n: Name, lts: seq<LayerType>, ch: Choices)
    requires StoreInv(m, c, lts) && Ranked(w) && |lts| > 0 && n in w.layers && n in c.s.imported && StepFor(m, w, c, n, ch).Ok?
    requires R.LineageOf(c.sys, StepFor(m, w, c, n, ch).value, lts).Ok? && GetBaseHash(w, c.s, n).Ok?
    ensures StartIn(m, w, n) == Ok(R.StartOf(R.LineageOf(c.sys, StepFor(m, w, c, n, ch).value, lts).value))
  {
    StepIs(m, w, c, n, ch);
    var l := R.LineageOf(c.sys, StepFor(m, w, c, n, ch).value, lts).value;
    if l.Child? {
      var tag := w.layers[n].from.tag;
      HitDescribed(m, w, c, tag, lts);
      assert R.Good(c.sys.disk, c.sys.built, tag, lts);
      NameInNames(l.base);
    }
    DefinitionsRanked(m, w);
    assert O.Describes(Definitions(m, w), l);
    O.FirstBaseIsStart(Definitions(m, w), w.rank, l);
  }

  lemma NextIsBuild(sys: R.Sys, step: R.Step, l: R.Lineage, lts: seq<LayerType>, disk: D.Disk)
    requires |lts| > 0 && R.LineageOf(sys, step, lts) == Ok(l) && R.BuildLayer(sys.disk, step, R.StartOf(l), lts) == Ok(disk)
    ensures l.name == step.name && l.buildOnly == step.def.buildOnly
    ensures R.Next(sys, step, lts) == Ok(R.Sys(disk, StandingAfter(sys, step, lts)))
    ensures StandingAfter(sys, step, lts) == R.Forget(sys.built, step.name)[step.name := l]
  {
  }

  /** A rebuild on a base that stands is a step of the overlay. */
  lemma RebuiltIsNext(m: Meaning, w: World, c: Store, n: Name, lts: seq<LayerType>, ch: Choices)
    requires StoreInv(m, c, lts) && Ranked(w) && |lts| > 0 && n in w.layers && n in c.s.imported
    requires Rebuilt(m, w, c, n, lts, ch).Ok? && R.LineageOf(c.sys, StepFor(m, w, c, n, ch).value, lts).Ok?
    ensures var c', step := Rebuilt(m, w, c, n, lts, ch).value, StepFor(m, w, c, n, ch).value;
      && R.Next(c.sys, step, lts) == Ok(c'.sys)
      && n in c'.sys.built && c'.sys.built[n] == R.LineageOf(c.sys, step, lts).value && c'.made == c.made[n := c'.sys.built[n]]
      && c'.sys.built[n].name == n && c'.sys.built[n].buildOnly == w.layers[n].buildOnly
  {
    RebuiltIs(m, w, c, n, lts, ch);
    StepIs(m, w, c, n, ch);
    var c', step := Rebuilt(m, w, c, n, lts, ch).value, StepFor(m, w, c, n, ch).value;
    RecordedBase(w, c.s, n, lts, Emits(c'.sys.disk));
    StartAgrees(m, w, c, n, lts, ch);
    NextIsBuild(c.sys, step, R.LineageOf(c.sys, step, lts).value, lts, c'.sys.disk);
  }

  /** And a step of the overlay on a base that stands is a rebuild, if the cache can record it. */
  lemma NextIsRebuilt(m: Meaning, w: World, c: Store, n: Name, lts: seq<LayerType>, ch: Choices, sys: R.Sys)
    requires StoreInv(m, c, lts) && Ranked(w) && |lts| > 0 && n in w.layers && n in c.s.imported && StepFor(m, w, c, n, ch).Ok?
    requires R.LineageOf(c.sys, StepFor(m, w, c, n, ch).value, lts).Ok? && R.Next(c.sys, StepFor(m, w, c, n, ch).value, lts) == Ok(sys)
    requires Rebuild(w, c.s, n, lts, Emits(sys.disk)).Ok?
    ensures n in sys.built && sys.built[n] == R.LineageOf(c.sys, StepFor(m, w, c, n, ch).value, lts).value
    ensures Rebuilt(m, w, c, n, lts, ch) == Ok(Store(Rebuild(w, c.s, n, lts, Emits(sys.disk)).value, sys, c.made[n := sys.built[n]]))
  {
    StepIs(m, w, c, n, ch);
    var step := StepFor(m, w, c, n, ch).value;
    RecordedBase(w, c.s, n, lts, Emits(sys.disk));
    StartAgrees(m, w, c, n, lts, ch);
    NextIsBuild(c.sys, step, R.LineageOf(c.sys, step, lts).value, lts, sys.disk);
  }

  /** What any rebuild leaves of the disk. */
  lemma RebuiltApart(m: Meaning, w: World, c: Store, n: Name, lts: seq<LayerType>, ch: Choices)
    requires R.StoreOk(c.sys.disk) && Ranked(w) && |lts| > 0 && n in w.layers && n in c.s.imported
    requires Rebuilt(m, w, c, n, lts, ch).Ok?
    ensures var c', step := Rebuilt(m, w, c, n, lts, ch).value, StepFor(m, w, c, n, ch).value;
      && Grows(c.sys.disk, c'.sys.disk, n) && Apart(c.sys.disk, c'.sys.disk, Touched(c.sys.disk, step)) && step.name == n
      && if w.layers[n].buildOnly then c'.sys.disk.images == c.sys.disk.images else D.HasImages(c'.sys.disk, n, lts)
  {
    RebuiltIs(m, w, c, n, lts, ch);
    StepIs(m, w, c, n, ch);
    BuildApart(c.sys.disk, StepFor(m, w, c, n, ch).value, StartIn(m, w, n).value, lts);
  }

  lemma RebuiltSysInv(m: Meaning, w: World, c: Store, n: Name, lts: seq<LayerType>, ch: Choices)
    requires StoreInv(m, c, lts) && Distinct(lts)
    requires Ranked(w) && |lts| > 0 && n in w.layers && n in c.s.imported && Rebuilt(m, w, c, n, lts, ch).Ok?
    ensures R.Inv(Rebuilt(m, w, c, n, lts, ch).value.sys, lts)
  {
    RebuiltIs(m, w, c, n, lts, ch);
    StepIs(m, w, c, n, ch);
    var c', step := Rebuilt(m, w, c, n, lts, ch).value, StepFor(m, w, c, n, ch).value;
    if R.LineageOf(c.sys, step, lts).Ok? {
      RebuiltIsNext(m, w, c, n, lts, ch);
      StepKeepsInv(c.sys, step, lts);
    } else {
      RebuiltApart(m, w, c, n, lts, ch);
      BuiltApart(c.sys.disk, c'.sys.disk, c.sys.built, n, Touched(c.sys.disk, step), lts);
    }
  }

  lemma BaseStands(m: Meaning, w: World, c: Store, n: Name, lts: seq<LayerType>, ch: Choices)
    requires n in w.layers && n in c.s.imported && StepFor(m, w, c, n, ch).Ok?
    requires R.LineageOf(c.sys, StepFor(m, w, c, n, ch).value, lts).Ok?
    ensures var l := R.LineageOf(c.sys, StepFor(m, w, c, n, ch).value, lts).value;
      && (l.Child? <==> w.layers[n].from.Built?)
      && (l.Child? ==> w.layers[n].from.tag in c.sys.built && l.base == c.sys.built[w.layers[n].from.tag])
      && (l.Child? ==> n !in R.Names(l.base)) && l.own == StepFor(m, w, c, n, ch).value.own
  {
    StepIs(m, w, c, n, ch);
  }

  lemma RootIsWhole(w: World, s: State, n: Name, lts: seq<LayerType>, emitted: Emitted)
    requires Ranked(w) && |lts| > 0 && n in w.layers && n in s.imported && Rebuild(w, s, n, lts, emitted).Ok?
    requires w.layers[n].from.Built? ==> w.layers[n].from.tag in s.roots && s.roots[w.layers[n].from.tag].Some?
    ensures var s' := Rebuild(w, s, n, lts, emitted).value; n in s'.roots && s'.roots[n].Some?
  {
    RebuildShape(w, s, n, lts, emitted);
    BuildSucceeds(w, s.roots - {n}, w.layers[n], s.imported[n]);
  }

  lemma OwnRootStands(m: Meaning, w: World, c: Store, n: Name, lts: seq<LayerType>, ch: Choices)
    requires StoreInv(m, c, lts)
    requires Ranked(w) && |lts| > 0 && n in w.layers && n in c.s.imported && Rebuilt(m, w, c, n, lts, ch).Ok?
    requires R.LineageOf(c.sys, StepFor(m, w, c, n, ch).value, lts).Ok?
    ensures StandsOk(Rebuilt(m, w, c, n, lts, ch).value, n)
  {
    RebuiltIs(m, w, c, n, lts, ch);
    RebuiltIsNext(m, w, c, n, lts, ch);
    BaseStands(m, w, c, n, lts, ch);
    if w.layers[n].from.Built? {
      assert StandsOk(c, w.layers[n].from.tag);
    }
    RootIsWhole(w, c.s, n, lts, Emits(Rebuilt(m, w, c, n, lts, ch).value.sys.disk));
  }

  /** Any other layer left standing stood before, beside the new one. */
  lemma StoodBefore(c: Store, step: R.Step, lts: seq<LayerType>, k: Name)
    requires R.Inv(c.sys, lts) && k in StandingAfter(c.sys, step, lts) && (R.LineageOf(c.sys, step, lts).Ok? ==> k != step.name)
    ensures k != step.name && k in c.sys.built && StandingAfter(c.sys, step, lts)[k] == c.sys.built[k]
    ensures k in c.made ==> k in MadeAfter(c, step, lts) && MadeAfter(c, step, lts)[k] == c.made[k]
  {
    assert k in c.sys.built && R.Good(c.sys.disk, c.sys.built, k, lts);
    NameInNames(c.sys.built[k]);
  }

  lemma RebuiltStands(m: Meaning, w: World, c: Store, n: Name, lts: seq<LayerType>, ch: Choices, k: Name)
    requires StoreInv(m, c, lts)
    requires Ranked(w) && |lts| > 0 && n in w.layers && n in c.s.imported && Rebuilt(m, w, c, n, lts, ch).Ok?
    requires k in Rebuilt(m, w, c, n, lts, ch).value.sys.built
    ensures StandsOk(Rebuilt(m, w, c, n, lts, ch).value, k)
  {
    RebuiltIs(m, w, c, n, lts, ch);
    StepIs(m, w, c, n, ch);
    var c', step := Rebuilt(m, w, c, n, lts, ch).value, StepFor(m, w, c, n, ch).value;
    if k == n && R.LineageOf(c.sys, step, lts).Ok? {
      OwnRootStands(m, w, c, n, lts, ch);
    } else {
      StoodBefore(c, step, lts, k);
      RebuildRoots(w, c.s, n, lts, Emits(c'.sys.disk));
      assert StandsOk(c, k);
    }
  }

  lemma RebuildRoots(w: World, s: State, n: Name, lts: seq<LayerType>, emitted: Emitted)
    requires Ranked(w) && |lts| > 0 && n in w.layers && n in s.imported && Rebuild(w, s, n, lts, emitted).Ok?
    ensures var s' := Rebuild(w, s, n, lts, emitted).value;
      forall k <- s.roots :: k != n ==> k in s'.roots && s'.roots[k] == s.roots[k]
  {
    RebuildShape(w, s, n, lts, emitted);
  }

  /** What a rebuild leaves of the images: the layer's own are those of the disk, others stay. */
  lemma RebuiltLinks(m: Meaning, w: World, c: Store, n: Name, lts: seq<LayerType>, ch: Choices)
    requires StoreInv(m, c, lts)
    requires Ranked(w) && |lts| > 0 && n in w.layers && n in c.s.imported && Rebuilt(m, w, c, n, lts, ch).Ok?
    ensures var c' := Rebuilt(m, w, c, n, lts, ch).value;
      forall ref <- c'.s.images :: ref.layerType in lts && LinkedAt(c', ref)
  {
    var c' := Rebuilt(m, w, c, n, lts, ch).value;
    RebuiltIs(m, w, c, n, lts, ch);
    RebuiltApart(m, w, c, n, lts, ch);
    RebuildImages(w, c.s, n, lts, Emits(c'.sys.disk));
    forall ref | ref in c'.s.images ensures ref.layerType in lts && LinkedAt(c', ref) {
      if ref in c.s.images {
        assert LinkedAt(c, ref) && ref.layerType in lts;
      }
    }
  }

  lemma RebuildImages(w: World, s: State, n: Name, lts: seq<LayerType>, emitted: Emitted)
    requires Ranked(w) && |lts| > 0 && n in w.layers && n in s.imported && Rebuild(w, s, n, lts, emitted).Ok?
    ensures var s' := Rebuild(w, s, n, lts, emitted).value;
      && (w.layers[n].buildOnly ==> s'.images == s.images)
      && forall ref <- s'.images ::
           if ref.name == n && ref.layerType in lts && !w.layers[n].buildOnly then s'.images[ref].layers == emitted(n, ref.layerType)
           else ref in s.images && s'.images[ref] == s.images[ref]
  {
    RebuildIs(w, s, n, lts, emitted);
    var fs := BuildFs(w, s.roots - {n}, w.layers[n], s.imported[n]).value;
    PutEntry(w, Ran(w, s, n, fs, lts, emitted), n, ManifestsFor(w, n, fs, lts, emitted));
  }

  lemma NewRecordOk(m: Meaning, w: World, c: Store, n: Name, lts: seq<LayerType>, ch: Choices)
    requires StoreInv(m, c, lts)
    requires Ranked(w) && |lts| > 0 && n in w.layers && n in c.s.imported && Rebuilt(m, w, c, n, lts, ch).Ok?
    requires R.Inv(Rebuilt(m, w, c, n, lts, ch).value.sys, lts)
    ensures n in Rebuilt(m, w, c, n, lts, ch).value.s.cache && RecordOk(Rebuilt(m, w, c, n, lts, ch).value, n, lts)
  {
    RebuiltIs(m, w, c, n, lts, ch);
    StepIs(m, w, c, n, ch);
    var c' := Rebuilt(m, w, c, n, lts, ch).value;
    RebuildShape(w, c.s, n, lts, Emits(c'.sys.disk));
    if !w.layers[n].buildOnly && n in c'.made {
      RebuiltIsNext(m, w, c, n, lts, ch);
      var l := c'.sys.built[n];
      assert R.Good(c'.sys.disk, c'.sys.built, n, lts);
      forall lt <- c'.s.cache[n].manifests ensures lt in lts && ListsLineage(c'.sys.disk, l, c'.s.cache[n].manifests[lt].layers, lt) {
        ImageListed(c'.sys.disk, l, lts, lt);
      }
    }
  }

  lemma ImageListed(d: D.Disk, l: R.Lineage, lts: seq<LayerType>, lt: LayerType)
    requires R.ImagesOk(d, l, lts) && lt in lts
    ensures D.Ref(l.name, lt) in d.images && ListsLineage(d, l, d.images[D.Ref(l.name, lt)], lt)
  {
    var i :| 0 <= i < |lts| && lts[i] == lt;
    assert R.Stored(d, D.Images(d, l.name, lts)[i], lt);
  }

  lemma OldRecordOk(c: Store, c': Store, k: Name, lts: seq<LayerType>)
    requires k in c.s.cache && RecordOk(c, k, lts) && Extends(c.sys.disk, c'.sys.disk)
    requires k in c'.s.cache && c'.s.cache[k] == c.s.cache[k]
    requires k in c'.s.roots && c'.s.roots[k].Some? ==> k in c.s.roots && c.s.roots[k].Some?
    requires k in c'.made ==> k in c.made && c'.made[k] == c.made[k]
    ensures RecordOk(c', k, lts)
  {
    var e := c.s.cache[k];
    if !e.layer.buildOnly && k in c'.s.roots && c'.s.roots[k].Some? && k in c'.made {
      forall lt <- e.manifests ensures lt in lts && ListsLineage(c'.sys.disk, c'.made[k], e.manifests[lt].layers, lt) {
        ListsKept(c.sys.disk, c'.sys.disk, c.made[k], e.manifests[lt].layers, lt);
      }
    }
  }

  /** The definition of a layer gives both its lineage and its entry. */
  lemma DefinitionPairs(m: Meaning, w: World, step: R.Step, sys: R.Sys, l: R.Lineage, e: CacheEntry, n: Name, s: State, lts: seq<LayerType>)
    requires Ranked(w) && n in w.layers && DefOf(m, w, w.layers[n]) == Ok(step.def) && R.LineageOf(sys, step, lts) == Ok(l)
    requires e.layer == w.layers[n] && GetBaseHash(w, s, n) == Ok(e.base)
    requires l.Child? ==> l.base.name == w.layers[n].from.tag
    ensures Pairs(m, e, l)
  {
  }

  lemma NewMadeOk(m: Meaning, w: World, c: Store, n: Name, lts: seq<LayerType>, ch: Choices)
    requires StoreInv(m, c, lts)
    requires Ranked(w) && |lts| > 0 && n in w.layers && n in c.s.imported && Rebuilt(m, w, c, n, lts, ch).Ok?
    requires n in Rebuilt(m, w, c, n, lts, ch).value.made
    ensures MadeOk(m, Rebuilt(m, w, c, n, lts, ch).value, n)
  {
    RebuiltIs(m, w, c, n, lts, ch);
    StepIs(m, w, c, n, ch);
    var c', step := Rebuilt(m, w, c, n, lts, ch).value, StepFor(m, w, c, n, ch).value;
    RebuiltIsNext(m, w, c, n, lts, ch);
    BaseStands(m, w, c, n, lts, ch);
    RecordedBase(w, c.s, n, lts, Emits(c'.sys.disk));
    if w.layers[n].from.Built? {
      assert R.Good(c.sys.disk, c.sys.built, w.layers[n].from.tag, lts);
    }
    DefinitionPairs(m, w, step, c.sys, c'.made[n], c'.s.cache[n], n, c.s, lts);
  }

  lemma RebuiltInv(m: Meaning, w: World, c: Store, n: Name, lts: seq<LayerType>, ch: Choices)
    requires StoreInv(m, c, lts) && Distinct(lts)
    requires Ranked(w) && |lts| > 0 && n in w.layers && n in c.s.imported && Rebuilt(m, w, c, n, lts, ch).Ok?
    requires ImportAll(w, c.s.roots, w.layers[n].imports) == Ok(c.s.imported[n])
    ensures StoreInv(m, Rebuilt(m, w, c, n, lts, ch).value, lts)
  {
    RebuiltIs(m, w, c, n, lts, ch);
    StepIs(m, w, c, n, ch);
    var c' := Rebuilt(m, w, c, n, lts, ch).value;
    RebuiltSysInv(m, w, c, n, lts, ch);
    RebuiltApart(m, w, c, n, lts, ch);
    RebuildKeeps(w, c.s, n, lts, Emits(c'.sys.disk), c.s.roots);
    RebuildShape(w, c.s, n, lts, Emits(c'.sys.disk));
    RebuiltLinks(m, w, c, n, lts, ch);
    forall k | k in c'.sys.built ensures StandsOk(c', k) {
      RebuiltStands(m, w, c, n, lts, ch, k);
    }
    forall k | k in c'.made ensures MadeOk(m, c', k) {
      if k == n {
        NewMadeOk(m, w, c, n, lts, ch);
      } else {
        assert MadeOk(m, c, k);
      }
    }
    forall k | k in c'.s.cache ensures RecordOk(c', k, lts) {
      if k == n {
        NewRecordOk(m, w, c, n, lts, ch);
      } else {
        assert RecordOk(c, k, lts);
        OldRecordOk(c, c', k, lts);
      }
    }
  }

  // ----- a turn -----

  lemma ForgetIsOutside(built: map<Name, R.Lineage>, n: Name)
    ensures R.Forget(built, n) == Outside(built, {n})
  {
  }

  /** What a failed turn did to the disk, and what it left to stand. */
  ghost predicate FailureLeaves(c: Store, c': Store, n: Name, names: set<Name>) {
    && Grows(c.sys.disk, c'.sys.disk, n) && Apart(c.sys.disk, c'.sys.disk, names) && n in names
    && c'.sys.built == Outside(c.sys.built, names) && c'.made == c.made
  }

  /** A failed turn leaves the cache, other layers' images and every layer that it cannot have touched. */
  lemma FailedInv(m: Meaning, c: Store, c': Store, n: Name, left: map<LayerType, Blob>, names: set<Name>, lts: seq<LayerType>)
    requires StoreInv(m, c, lts) && FailureLeaves(c, c', n, names) && c'.s == FailOn(c.s, n, left)
    requires forall lt <- left :: lt in lts && D.Ref(n, lt) in c'.sys.disk.images && c'.sys.disk.images[D.Ref(n, lt)] == left[lt].layers
    requires forall lt <- lts :: lt !in left && D.Ref(n, lt) in c.sys.disk.images ==>
      D.Ref(n, lt) in c'.sys.disk.images && c'.sys.disk.images[D.Ref(n, lt)] == c.sys.disk.images[D.Ref(n, lt)]
    ensures StoreInv(m, c', lts)
  {
    FailKeeps(c.s, n, left);
    BuiltApart(c.sys.disk, c'.sys.disk, c.sys.built, n, names, lts);
    SetImagesAt(c.s.(roots := c.s.roots[n := None], overlaid := c.s.overlaid - {n}), n, left);
    forall k | k in c'.sys.built ensures StandsOk(c', k) {
      assert StandsOk(c, k) && R.Good(c.sys.disk, c.sys.built, k, lts);
      NameInNames(c.sys.built[k]);
    }
    forall k | k in c'.made ensures MadeOk(m, c', k) {
      assert MadeOk(m, c, k);
    }
    forall ref | ref in c'.s.images ensures ref.layerType in lts && LinkedAt(c', ref) {
      if ref.name != n || ref.layerType !in left {
        assert ref in c.s.images && LinkedAt(c, ref);
      }
    }
    forall k | k in c'.s.cache ensures RecordOk(c', k, lts) {
      assert RecordOk(c, k, lts);
      OldRecordOk(c, c', k, lts);
    }
  }

  lemma FailedTurnParts(m: Meaning, w: World, c: Store, n: Name, ch: Choices, left: D.Diff) returns (s: State, from: D.From)
    requires FailedTurn(m, w, c, n, ch, left).Ok?
    ensures StartLayer(Real(m, w, c.sys.disk, ch.picks), c.s, n) == Ok(s) && D.SetupRootfs(c.sys.disk, n, from, ch.pick).Ok?
    ensures var c' := FailedTurn(m, w, c, n, ch, left).value;
      && c'.s == FailOn(s, n, map[]) && c'.made == c.made && c'.sys.built == R.Forget(c.sys.built, n)
      && c'.sys.disk == R.RunContainer(D.SetupRootfs(c.sys.disk, n, from, ch.pick).value, n, left)
  {
    var w' := Real(m, w, c.sys.disk, ch.picks);
    s := StartLayer(w', c.s, n).value;
    from := StepFor(m, w', c.(s := s), n, ch).value.def.from;
  }

  /** The commands failed. */
  lemma FailedTurnIs(m: Meaning, w: World, c: Store, n: Name, ch: Choices, left: D.Diff) returns (s: State)
    requires R.StoreOk(c.sys.disk) && FailedTurn(m, w, c, n, ch, left).Ok?
    ensures StartLayer(Real(m, w, c.sys.disk, ch.picks), c.s, n) == Ok(s)
    ensures var c' := FailedTurn(m, w, c, n, ch, left).value;
      c'.s == FailOn(s, n, map[]) && FailureLeaves(c, c', n, {n}) && c'.sys.disk.images == c.sys.disk.images
  {
    var from: D.From;
    s, from := FailedTurnParts(m, w, c, n, ch, left);
    SetupLeaves(c.sys.disk, n, from, ch.pick, left);
    ForgetIsOutside(c.sys.built, n);
  }

  lemma SetupLeaves(d: D.Disk, n: Name, from: D.From, pick: LayerType, left: D.Diff)
    requires R.StoreOk(d) && D.SetupRootfs(d, n, from, pick).Ok?
    ensures var ran := R.RunContainer(D.SetupRootfs(d, n, from, pick).value, n, left);
      Grows(d, ran, n) && Apart(d, ran, {n}) && ran.images == d.images
  {
    SetupGrows(d, n, from, pick);
    SetupApart(d, n, from, pick);
  }

  lemma FailedTurnInv(m: Meaning, w: World, c: Store, n: Name, lts: seq<LayerType>, ch: Choices, left: D.Diff)
    requires StoreInv(m, c, lts) && FailedTurn(m, w, c, n, ch, left).Ok?
    ensures StoreInv(m, FailedTurn(m, w, c, n, ch, left).value, lts)
  {
    var w' := Real(m, w, c.sys.disk, ch.picks);
    var s := FailedTurnIs(m, w, c, n, ch, left);
    StartInv(m, w', c, n, lts);
    FailedInv(m, c.(s := s), FailedTurn(m, w, c, n, ch, left).value, n, map[], {n}, lts);
  }

  /** The layer was repacked, and then something failed. */
  lemma UnrecordedTurnIs(m: Meaning, w: World, c: Store, n: Name, lts: seq<LayerType>, ch: Choices) returns (names: set<Name>)
    requires R.StoreOk(c.sys.disk) && Ranked(w) && |lts| > 0 && UnrecordedTurn(m, w, c, n, lts, ch).Ok?
    ensures var w', c' := Real(m, w, c.sys.disk, ch.picks), UnrecordedTurn(m, w, c, n, lts, ch).value;
      && n in w.layers && StartLayer(w', c.s, n).Ok?
      && c'.s == FailOn(StartLayer(w', c.s, n).value, n, Unrecorded(w.layers[n], n, lts, Emits(c'.sys.disk)))
      && FailureLeaves(c, c', n, names)
      && if w.layers[n].buildOnly then c'.sys.disk.images == c.sys.disk.images else D.HasImages(c'.sys.disk, n, lts)
  {
    var w' := Real(m, w, c.sys.disk, ch.picks);
    var started := c.(s := StartLayer(w', c.s, n).value);
    StepIs(m, w', started, n, ch);
    var step := StepFor(m, w', started, n, ch).value;
    names := Touched(c.sys.disk, step);
    BuildApart(c.sys.disk, step, StartIn(m, w', n).value, lts);
  }

  lemma UnrecordedTurnInv(m: Meaning, w: World, c: Store, n: Name, lts: seq<LayerType>, ch: Choices)
    requires StoreInv(m, c, lts) && Ranked(w) && |lts| > 0 && UnrecordedTurn(m, w, c, n, lts, ch).Ok?
    ensures StoreInv(m, UnrecordedTurn(m, w, c, n, lts, ch).value, lts)
  {
    var w', c' := Real(m, w, c.sys.disk, ch.picks), UnrecordedTurn(m, w, c, n, lts, ch).value;
    var names := UnrecordedTurnIs(m, w, c, n, lts, ch);
    StartInv(m, w', c, n, lts);
    FailedInv(m, c.(s := StartLayer(w', c.s, n).value), c', n, Unrecorded(w.layers[n], n, lts, Emits(c'.sys.disk)), names, lts);
  }

  lemma TurnFromInv(m: Meaning, w: World, c: Store, n: Name, lts: seq<LayerType>, ch: Choices)
    requires StoreInv(m, c, lts) && Distinct(lts)
    requires Ranked(w) && |lts| > 0 && n in w.layers && n in c.s.imported && TurnFrom(m, w, c, n, lts, ch).Ok?
    requires ImportAll(w, c.s.roots, w.layers[n].imports) == Ok(c.s.imported[n])
    ensures StoreInv(m, TurnFrom(m, w, c, n, lts, ch).value, lts)
  {
    var hit := LookupEntry(w, c.s, n);
    if hit.Hit? && w.layers[n].binds == [] {
      HitMeansCached(w, c.s, n);
      UseInv(m, c, n, lts);
      if !HasAllTypes(hit.entry, lts) {
        RebuiltInv(m, w, Use(c, n, hit.entry, lts), n, lts, ch);
      }
    } else {
      RebuiltInv(m, w, c, n, lts, ch);
    }
  }

  lemma TurnInv(m: Meaning, w: World, c: Store, n: Name, lts: seq<LayerType>, ch: Choices)
    requires StoreInv(m, c, lts) && Distinct(lts) && Ranked(w) && |lts| > 0 && Turn(m, w, c, n, lts, ch).Ok?
    ensures StoreInv(m, Turn(m, w, c, n, lts, ch).value, lts)
  {
    var w' := Real(m, w, c.sys.disk, ch.picks);
    StartInv(m, w', c, n, lts);
    TurnFromInv(m, w', c.(s := StartLayer(w', c.s, n).value), n, lts, ch);
  }

  /** After any history, whatever its definitions and failures. */
  lemma {:induction false} HistoryInv(m: Meaning, bases: set<D.Digest>, lts: seq<LayerType>, hs: seq<Happening>)
    requires |lts| > 0 && Distinct(lts) && History(m, bases, lts, hs).Ok?
    ensures StoreInv(m, History(m, bases, lts, hs).value, lts)
  {
    if hs == [] {
      BeginInv(m, bases, lts);
    } else {
      var before, h := hs[..|hs| - 1], hs[|hs| - 1];
      HistoryInv(m, bases, lts, before);
      var c := History(m, bases, lts, before).value;
      match h {
        case Turned(w, n, ch) => TurnInv(m, w, c, n, lts, ch);
        case RunFailed(w, n, ch, left) => FailedTurnInv(m, w, c, n, lts, ch, left);
        case PutFailed(w, n, ch) => UnrecordedTurnInv(m, w, c, n, lts, ch);
        case Collected => CollectInv(m, c, lts);
        case Reopened => ReopenInv(m, c, lts);
      }
    }
  }

  // ----- lineages are bookkeeping -----

  /** The same cache and the same disk, whatever is noted about lineages. */
  ghost predicate SameOutside(c: Store, k: Store) {
    c.s == k.s && c.sys.disk == k.sys.disk
  }

  ghost predicate SameOutcome(a: Result<Store>, b: Result<Store>) {
    (a.Ok? <==> b.Ok?) && (a.Ok? ==> SameOutside(a.value, b.value))
  }

  lemma StepInert(m: Meaning, w: World, c: Store, k: Store, n: Name, ch: Choices)
    requires SameOutside(c, k) && n in w.layers && n in c.s.imported
    ensures StepFor(m, w, c, n, ch) == StepFor(m, w, k, n, ch)
  {
  }

  lemma RebuiltInert(m: Meaning, w: World, c: Store, k: Store, n: Name, lts: seq<LayerType>, ch: Choices)
    requires SameOutside(c, k) && Ranked(w) && |lts| > 0 && n in w.layers && n in c.s.imported
    ensures SameOutcome(Rebuilt(m, w, c, n, lts, ch), Rebuilt(m, w, k, n, lts, ch))
  {
    StepInert(m, w, c, k, n, ch);
    var step, start := StepFor(m, w, c, n, ch), StartIn(m, w, n);
    if step.Ok? && start.Ok? {
      BuiltInert(m, w, c, k, n, lts, ch, step.value, start.value);
    }
  }

  lemma BuiltInert(
      m: Meaning, w: World, c: Store, k: Store, n: Name, lts: seq<LayerType>, ch: Choices, step: R.Step, start: D.Start)
    requires SameOutside(c, k) && Ranked(w) && |lts| > 0 && n in w.layers && n in c.s.imported
    requires StepFor(m, w, c, n, ch) == Ok(step) && StepFor(m, w, k, n, ch) == Ok(step) && StartIn(m, w, n) == Ok(start)
    ensures SameOutcome(Rebuilt(m, w, c, n, lts, ch), Rebuilt(m, w, k, n, lts, ch))
  {
  }

  lemma UseInert(c: Store, k: Store, n: Name, e: CacheEntry, lts: seq<LayerType>)
    requires SameOutside(c, k)
    ensures SameOutside(Use(c, n, e, lts), Use(k, n, e, lts))
  {
  }

  lemma TurnFromInert(m: Meaning, w: World, c: Store, k: Store, n: Name, lts: seq<LayerType>, ch: Choices)
    requires SameOutside(c, k) && Ranked(w) && |lts| > 0 && n in w.layers && n in c.s.imported
    ensures SameOutcome(TurnFrom(m, w, c, n, lts, ch), TurnFrom(m, w, k, n, lts, ch))
  {
    var hit := LookupEntry(w, c.s, n);
    if hit.Hit? && w.layers[n].binds == [] {
      UseInert(c, k, n, hit.entry, lts);
      UsedState(c, n, hit.entry, lts);
      UsedNames(c.s, n, hit.entry, lts);
      RebuiltInert(m, w, Use(c, n, hit.entry, lts), Use(k, n, hit.entry, lts), n, lts, ch);
    } else {
      RebuiltInert(m, w, c, k, n, lts, ch);
    }
  }

  lemma TurnInert(m: Meaning, w: World, c: Store, k: Store, n: Name, lts: seq<LayerType>, ch: Choices)
    requires SameOutside(c, k) && Ranked(w) && |lts| > 0
    ensures SameOutcome(Turn(m, w, c, n, lts, ch), Turn(m, w, k, n, lts, ch))
  {
    var w' := Real(m, w, c.sys.disk, ch.picks);
    if StartLayer(w', c.s, n).Ok? {
      var s := StartLayer(w', c.s, n).value;
      TurnFromInert(m, w', c.(s := s), k.(s := s), n, lts, ch);
    }
  }

  lemma UsedNames(s: State, n: Name, e: CacheEntry, lts: seq<LayerType>)
    ensures UseCached(s, n, e, lts).imported == s.imported
  {
  }

  lemma FailedTurnInert(m: Meaning, w: World, c: Store, k: Store, n: Name, ch: Choices, left: D.Diff)
    requires SameOutside(c, k)
    ensures SameOutcome(FailedTurn(m, w, c, n, ch, left), FailedTurn(m, w, k, n, ch, left))
  {
    var w' := Real(m, w, c.sys.disk, ch.picks);
    if StartLayer(w', c.s, n).Ok? {
      var s := StartLayer(w', c.s, n).value;
      StepInert(m, w', c.(s := s), k.(s := s), n, ch);
    }
  }

  lemma UnrecordedTurnInert(m: Meaning, w: World, c: Store, k: Store, n: Name, lts: seq<LayerType>, ch: Choices)
    requires SameOutside(c, k) && Ranked(w) && |lts| > 0
    ensures SameOutcome(UnrecordedTurn(m, w, c, n, lts, ch), UnrecordedTurn(m, w, k, n, lts, ch))
  {
    var w' := Real(m, w, c.sys.disk, ch.picks);
    if StartLayer(w', c.s, n).Ok? {
      var s := StartLayer(w', c.s, n).value;
      StepInert(m, w', c.(s := s), k.(s := s), n, ch);
    }
  }

  /** What happens to the cache and the disk depends on them alone, not on what is noted about lineages. */
  lemma LineagesAreBookkeeping(m: Meaning, c: Store, k: Store, lts: seq<LayerType>, h: Happening)
    requires SameOutside(c, k) && |lts| > 0
    ensures SameOutcome(Happens(m, c, lts, h), Happens(m, k, lts, h))
  {
    match h
    case Turned(w, n, ch) =>
      if Ranked(w) {
        TurnInert(m, w, c, k, n, lts, ch);
      }
    case RunFailed(w, n, ch, left) => FailedTurnInert(m, w, c, k, n, ch, left);
    case PutFailed(w, n, ch) =>
      if Ranked(w) {
        UnrecordedTurnInert(m, w, c, k, n, lts, ch);
      }
    case _ =>
  }

  // ----- the cache's side of a turn -----

  /** The cache sees a turn of its own model, with the imports that were really there and the layers
      that were really emitted. */
  lemma TurnIsProcess(m: Meaning, w: World, c: Store, n: Name, lts: seq<LayerType>, ch: Choices) returns (emitted: Emitted)
    requires Ranked(w) && |lts| > 0 && Turn(m, w, c, n, lts, ch).Ok?
    ensures Process(Real(m, w, c.sys.disk, ch.picks), c.s, n, lts, emitted) == Ok(Turn(m, w, c, n, lts, ch).value.s)
  {
    var w', c' := Real(m, w, c.sys.disk, ch.picks), Turn(m, w, c, n, lts, ch).value;
    emitted := Emits(c'.sys.disk);
    var started := c.(s := StartLayer(w', c.s, n).value);
    var hit := LookupEntry(w', started.s, n);
    if hit.Hit? && w.layers[n].binds == [] {
      UsedState(started, n, hit.entry, lts);
      if !HasAllTypes(hit.entry, lts) {
        RebuiltIs(m, w', Use(started, n, hit.entry, lts), n, lts, ch);
      }
    } else {
      RebuiltIs(m, w', started, n, lts, ch);
    }
  }

  lemma UsedState(c: Store, n: Name, e: CacheEntry, lts: seq<LayerType>)
    ensures Use(c, n, e, lts).s == UseCached(c.s, n, e, lts) && Use(c, n, e, lts).made == c.made
    ensures Use(c, n, e, lts).sys.disk == Restore(c.sys, n, e, lts).disk
  {
  }
}

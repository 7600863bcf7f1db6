/** When a turn succeeds on the real store: if and only if the cache's own turn does and the layers that
    the new root needs can be unpacked. */
module CachedStoreSuccess {
  import opened Collections
  import opened Wrappers
  import opened CacheModel
  import opened CacheProofs
  import opened CacheTheorems
  import opened CacheSuccess
  import opened CachedStore
  import opened CachedStoreProofs
  import opened CachedStoreTheorems
  import opened CachedStoreMounts
  import opened OverlayProofs
  import opened OverlaySteps
  import opened OverlayTheorems
  import opened OverlayMounts
  import D = OverlayDisk
  import R = OverlayRuns

  // ----- what decides -----

  /** The manifests picked, for setting up and for mounting, are among those there are. */
  predicate Possible(m: Meaning, w: World, d: D.Disk, n: Name, ch: Choices)
    requires n in w.layers
  {
    match w.layers[n].from
    case Built(tag) => tag in d.meta ==> D.Picks(d.meta[tag], ch.pick) && D.Picks(d.meta[tag], ch.seen)
    case Image(tag) => tag in w.images ==> ch.seen == m.source(w.images[tag]).layerType
    case _ => true
  }

  /** What the layer is set up on can be unpacked: on a built base no layer picked is empty without being a
      base image's own blob, and on an image every blob is there. */
  predicate CanUnpack(m: Meaning, w: World, d: D.Disk, n: Name, ch: Choices)
    requires n in w.layers
  {
    match w.layers[n].from
    case Built(tag) => tag in d.meta && NoStrayEmptyLayer(d, tag, ch.pick)
    case Image(tag) => tag in w.images && CanSetUp(d, n, D.Image(m.source(w.images[tag])), ch.pick)
    case _ => true
  }

  /** The turn comes to a rebuild. */
  ghost predicate Rebuilds(w: World, s: State, n: Name, lts: seq<LayerType>)
    requires Ranked(w) && n in w.layers
  {
    StartLayer(w, s, n).Ok? ==>
      var hit := LookupEntry(w, StartLayer(w, s, n).value, n);
      !(hit.Hit? && w.layers[n].binds == [] && HasAllTypes(hit.entry, lts))
  }

  // ----- the cache's side does not depend on what was emitted -----

  lemma BaseHashOfImages(w: World, s: State, s': State, n: Name)
    requires Ranked(w) && s' == s.(images := s'.images, blobs := s'.blobs)
    ensures GetBaseHash(w, s', n) == GetBaseHash(w, s, n)
  {
    if n in w.layers && w.layers[n].from.Built? {
      LookupLocal(w, s, s', w.layers[n].from.tag, (k: Name) => true);
    }
  }

  lemma {:induction false} RecordOfImages(s: State, s': State, n: Name, imports: seq<Import>)
    requires s'.imported == s.imported
    ensures RecordImports(s', n, imports) == RecordImports(s, n, imports)
  {
    if imports != [] {
      RecordOfImages(s, s', n, imports[..|imports| - 1]);
    }
  }

  lemma PutOfImages(w: World, s: State, s': State, n: Name, a: map<LayerType, Blob>, b: map<LayerType, Blob>)
    requires Ranked(w) && n in w.layers && s' == s.(images := s'.images, blobs := s'.blobs)
    ensures Put(w, s, n, a).Ok? <==> Put(w, s', n, b).Ok?
  {
    BaseHashOfImages(w, s, s', n);
    RecordOfImages(s, s', n, w.layers[n].imports);
  }

  lemma RebuildAnyEmitted(w: World, s: State, n: Name, lts: seq<LayerType>, a: Emitted, b: Emitted)
    requires Ranked(w) && |lts| > 0 && n in w.layers && n in s.imported
    ensures Rebuild(w, s, n, lts, a).Ok? <==> Rebuild(w, s, n, lts, b).Ok?
  {
    var fs := BuildFs(w, s.roots - {n}, w.layers[n], s.imported[n]);
    if fs.Ok? {
      PutOfImages(w, Ran(w, s, n, fs.value, lts, a), Ran(w, s, n, fs.value, lts, b), n,
        ManifestsFor(w, n, fs.value, lts, a), ManifestsFor(w, n, fs.value, lts, b));
    }
  }

  // ----- setting up -----

  lemma MountedOnBuilt(d: D.Disk, built: map<Name, R.Lineage>, tag: Name, n: Name, pick: LayerType, seen: LayerType, lts: seq<LayerType>)
    requires R.StoreOk(d) && R.BuiltOk(d, built, lts) && tag in built && n !in R.Names(built[tag])
    requires D.SetupRootfs(d, n, D.Built(tag), pick).Ok? && D.Picks(d.meta[tag], seen)
    ensures ViewOf(D.SetupRootfs(d, n, D.Built(tag), pick).value, n, seen).Some?
  {
    assert R.Good(d, built, tag, lts);
    BuiltMountable(d, built, built[tag], lts);
    SnapshotShape(d, tag, n, pick);
  }

  lemma MountedOnImage(d: D.Disk, source: D.Source, n: Name, pick: LayerType)
    requires R.StoreOk(d) && D.SetupRootfs(d, n, D.Image(source), pick).Ok?
    ensures ViewOf(D.SetupRootfs(d, n, D.Image(source), pick).value, n, source.layerType).Some?
  {
    UnpackedOk(D.Delete(d, n), source.layers);
  }

  lemma BuiltBaseUnpacks(d: D.Disk, built: map<Name, R.Lineage>, tag: Name, n: Name, pick: LayerType, lts: seq<LayerType>)
    requires R.StoreOk(d) && R.BuiltOk(d, built, lts) && tag in built && n !in R.Names(built[tag])
    ensures tag in d.meta && (CanSetUp(d, n, D.Built(tag), pick) <==> NoStrayEmptyLayer(d, tag, pick))
  {
    assert R.Good(d, built, tag, lts);
    NameInNames(built[tag]);
    BlobsAreThere(d, tag, pick, lts);
  }

  /** On a base that stands, the new root can be set up and mounted if and only if its layers can be unpacked. */
  lemma StepIff(m: Meaning, w: World, c: Store, n: Name, lts: seq<LayerType>, ch: Choices)
    requires R.Inv(c.sys, lts) && n in w.layers && n in c.s.imported && w.layers[n].overlayDirs == []
    requires DefOf(m, w, w.layers[n]).Ok? && BaseStanding(m, w, c, n, lts) && Possible(m, w, c.sys.disk, n, ch)
    ensures StepFor(m, w, c, n, ch).Ok? <==> CanUnpack(m, w, c.sys.disk, n, ch)
  {
    DefIs(m, w, w.layers[n]);
    var from := DefOf(m, w, w.layers[n]).value.from;
    SetupSucceedsIff(c.sys.disk, n, from, ch.pick);
    match w.layers[n].from
    case Built(tag) =>
      BuiltBaseUnpacks(c.sys.disk, c.sys.built, tag, n, ch.pick, lts);
      if D.SetupRootfs(c.sys.disk, n, from, ch.pick).Ok? {
        MountedOnBuilt(c.sys.disk, c.sys.built, tag, n, ch.pick, ch.seen, lts);
      }
    case Image(tag) =>
      if D.SetupRootfs(c.sys.disk, n, from, ch.pick).Ok? {
        MountedOnImage(c.sys.disk, m.source(w.images[tag]), n, ch.pick);
      }
    case _ =>
  }

  // ----- rebuilding -----

  lemma RebuildDefined(m: Meaning, w: World, s: State, n: Name, lts: seq<LayerType>, emitted: Emitted)
    requires Ranked(w) && |lts| > 0 && n in w.layers && n in s.imported && Rebuild(w, s, n, lts, emitted).Ok?
    ensures DefOf(m, w, w.layers[n]).Ok?
  {
    RebuildIs(w, s, n, lts, emitted);
  }

  lemma RebuiltIff(m: Meaning, w: World, c: Store, n: Name, lts: seq<LayerType>, ch: Choices, emitted: Emitted)
    requires StoreInv(m, c, lts) && Distinct(lts) && Ranked(w) && |lts| > 0
    requires n in w.layers && n in c.s.imported && w.layers[n].overlayDirs == []
    requires BaseStanding(m, w, c, n, lts) && Possible(m, w, c.sys.disk, n, ch)
    ensures Rebuilt(m, w, c, n, lts, ch).Ok? <==> Rebuild(w, c.s, n, lts, emitted).Ok? && CanUnpack(m, w, c.sys.disk, n, ch)
  {
    if Rebuilt(m, w, c, n, lts, ch).Ok? {
      RebuiltIs(m, w, c, n, lts, ch);
      StepIs(m, w, c, n, ch);
      StepIff(m, w, c, n, lts, ch);
      RebuildAnyEmitted(w, c.s, n, lts, emitted, Emits(Rebuilt(m, w, c, n, lts, ch).value.sys.disk));
    }
    if Rebuild(w, c.s, n, lts, emitted).Ok? && CanUnpack(m, w, c.sys.disk, n, ch) {
      RebuildDefined(m, w, c.s, n, lts, emitted);
      StepIff(m, w, c, n, lts, ch);
      StepRebuilds(m, w, c, n, lts, ch, emitted);
    }
  }

  lemma StepRebuilds(m: Meaning, w: World, c: Store, n: Name, lts: seq<LayerType>, ch: Choices, emitted: Emitted)
    requires StoreInv(m, c, lts) && Distinct(lts) && Ranked(w) && |lts| > 0 && n in w.layers && n in c.s.imported
    requires StepFor(m, w, c, n, ch).Ok? && BaseStanding(m, w, c, n, lts) && Rebuild(w, c.s, n, lts, emitted).Ok?
    ensures Rebuilt(m, w, c, n, lts, ch).Ok?
  {
    StepIs(m, w, c, n, ch);
    StandingBase(m, w, c, n, lts, ch);
    var step := StepFor(m, w, c, n, ch).value;
    StepKeepsInv(c.sys, step, lts);
    var sys := R.Next(c.sys, step, lts).value;
    RebuildAnyEmitted(w, c.s, n, lts, emitted, Emits(sys.disk));
    NextIsRebuilt(m, w, c, n, lts, ch, sys);
  }

  // ----- a turn -----

  lemma SameUnpacks(m: Meaning, w: World, d: D.Disk, d': D.Disk, n: Name, ch: Choices)
    requires n in w.layers && d'.meta == d.meta && d'.store == d.store && d'.bases == d.bases
    ensures (CanUnpack(m, w, d', n, ch) <==> CanUnpack(m, w, d, n, ch)) && (Possible(m, w, d', n, ch) <==> Possible(m, w, d, n, ch))
  {
    assert forall x :: Available(d', x) <==> Available(d, x);
  }

  lemma UsedDisk(c: Store, n: Name, e: CacheEntry, lts: seq<LayerType>)
    ensures var d := Use(c, n, e, lts).sys.disk; d.meta == c.sys.disk.meta && d.store == c.sys.disk.store && d.bases == c.sys.disk.bases
  {
    UsedState(c, n, e, lts);
    RestoreShape(c.sys, n, e, lts);
  }

  lemma UsedUnpacks(m: Meaning, w: World, c: Store, n: Name, e: CacheEntry, lts: seq<LayerType>, ch: Choices)
    requires n in w.layers
    ensures var d := Use(c, n, e, lts).sys.disk;
      && (CanUnpack(m, w, d, n, ch) <==> CanUnpack(m, w, c.sys.disk, n, ch))
      && (Possible(m, w, d, n, ch) <==> Possible(m, w, c.sys.disk, n, ch))
  {
    UsedDisk(c, n, e, lts);
    SameUnpacks(m, w, c.sys.disk, Use(c, n, e, lts).sys.disk, n, ch);
  }

  lemma TurnFromIff(m: Meaning, w: World, c: Store, n: Name, lts: seq<LayerType>, ch: Choices, emitted: Emitted)
    requires StoreInv(m, c, lts) && Distinct(lts) && Ranked(w) && |lts| > 0
    requires n in w.layers && n in c.s.imported && w.layers[n].overlayDirs == []
    requires BaseStanding(m, w, c, n, lts) && Possible(m, w, c.sys.disk, n, ch)
    ensures TurnFrom(m, w, c, n, lts, ch).Ok? <==>
      match LookupEntry(w, c.s, n)
      case Error => false
      case Miss => Rebuild(w, c.s, n, lts, emitted).Ok? && CanUnpack(m, w, c.sys.disk, n, ch)
      case Hit(e) =>
        var used := UseCached(c.s, n, e, lts);
        (w.layers[n].binds == [] && HasAllTypes(e, lts)) ||
        (Rebuild(w, if w.layers[n].binds == [] then used else c.s, n, lts, emitted).Ok? && CanUnpack(m, w, c.sys.disk, n, ch))
  {
    var hit := LookupEntry(w, c.s, n);
    if hit.Hit? && w.layers[n].binds == [] {
      HitMeansCached(w, c.s, n);
      UsedState(c, n, hit.entry, lts);
      UseInv(m, c, n, lts);
      UsedBase(m, w, c, n, hit.entry, lts);
      UsedUnpacks(m, w, c, n, hit.entry, lts, ch);
      UseCachedKeeps(c.s, n, lts);
      RebuiltIff(m, w, Use(c, n, hit.entry, lts), n, lts, ch, emitted);
    } else {
      RebuiltIff(m, w, c, n, lts, ch, emitted);
    }
  }

  /** On a base that stands, a turn on the real store succeeds if and only if the cache's own turn does, and,
      if it comes to a rebuild, the layers it is set up on can be unpacked. */
  lemma TurnSucceedsIff(m: Meaning, w: World, c: Store, n: Name, lts: seq<LayerType>, ch: Choices, emitted: Emitted)
    requires StoreInv(m, c, lts) && Distinct(lts) && Ranked(w) && |lts| > 0 && n in w.layers && w.layers[n].overlayDirs == []
    requires BaseStanding(m, w, c, n, lts) && Possible(m, w, c.sys.disk, n, ch)
    ensures var w' := Real(m, w, c.sys.disk, ch.picks);
      Turn(m, w, c, n, lts, ch).Ok? <==>
        Process(w', c.s, n, lts, emitted).Ok? && (Rebuilds(w', c.s, n, lts) ==> CanUnpack(m, w, c.sys.disk, n, ch))
  {
    var w' := Real(m, w, c.sys.disk, ch.picks);
    if StartLayer(w', c.s, n).Ok? {
      var started := c.(s := StartLayer(w', c.s, n).value);
      StartInv(m, w', c, n, lts);
      TurnFromIff(m, w', started, n, lts, ch, emitted);
    }
  }

  lemma CleanTurnSucceedsIff(w: World, s: State, done: seq<Name>, n: Name, lts: seq<LayerType>, emitted: Emitted)
    requires Ranked(w) && |lts| > 0 && RunInv(w, s, done, lts) && Ordered(w, done + [n])
    requires n in w.layers && Tracked(w.layers[n]) && HitIsWhole(w, s, n)
    ensures Process(w, s, n, lts, emitted).Ok? <==> FreshRun(w, done + [n]).Ok?
  {
    if FreshRun(w, done + [n]).Ok? {
      TurnSucceeds(w, s, done, n, lts, emitted);
    }
    if Process(w, s, n, lts, emitted).Ok? {
      ProcessStep(w, s, done, n, lts, emitted);
    }
  }

  /** So at any point of a run on the real store, as CachedStoreTheorems.RunKeeps describes it, the next
      turn succeeds if and only if a clean build of one more layer does and, if it comes to a rebuild, the
      layers it is set up on can be unpacked. */
  lemma NextTurnSucceedsIffClean(m: Meaning, w: World, c: Store, done: seq<Name>, n: Name, lts: seq<LayerType>, ch: Choices)
    requires StoreInv(m, c, lts) && Distinct(lts) && Ranked(w) && |lts| > 0 && w.grab == IdealGrab(m)
    requires RunInv(w, c.s, done, lts) && Ordered(w, done + [n]) && n in w.layers && Tracked(w.layers[n])
    requires w.layers[n].overlayDirs == [] && TurnRight(m, w, c, n, ch)
    requires BaseStanding(m, w, c, n, lts) && Possible(m, w, c.sys.disk, n, ch)
    ensures Turn(m, w, c, n, lts, ch).Ok? <==>
      FreshRun(w, done + [n]).Ok? && (Rebuilds(w, c.s, n, lts) ==> CanUnpack(m, w, c.sys.disk, n, ch))
  {
    var w', emitted := Real(m, w, c.sys.disk, ch.picks), Emits(c.sys.disk);
    TurnSucceedsIff(m, w, c, n, lts, ch, emitted);
    SameImports(m, w, c, w.layers[n].imports, ch.picks);
    ProcessGrabFree(w, RealGrab(m, c.sys.disk, ch.picks), c.s, n, lts, emitted);
    CleanTurnSucceedsIff(w, c.s, done, n, lts, emitted);
    SameRebuilds(w, RealGrab(m, c.sys.disk, ch.picks), c.s, n, lts);
  }

  lemma SameRebuilds(w: World, g: (Name, Option<Fs>, string) -> Option<Content>, s: State, n: Name, lts: seq<LayerType>)
    requires Ranked(w) && Ranked(w.(grab := g)) && n in w.layers && StartLayer(w.(grab := g), s, n) == StartLayer(w, s, n)
    ensures Rebuilds(w.(grab := g), s, n, lts) <==> Rebuilds(w, s, n, lts)
  {
    if StartLayer(w, s, n).Ok? {
      LookupGrabFree(w, g, StartLayer(w, s, n).value, n);
    }
  }
}

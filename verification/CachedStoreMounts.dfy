/** When every layer of a history left the change a clean build leaves: if no repack hollowed the
    mount of another layer, no layer came back to a mount that is no longer what it was, and as far as no
    layer below is stale. */
module CachedStoreMounts {
  import opened Collections
  import opened Wrappers
  import opened CacheModel
  import opened CacheProofs
  import opened CacheTheorems
  import opened CachedStore
  import opened CachedStoreProofs
  import opened CachedStoreTheorems
  import opened OverlayProofs
  import opened OverlaySteps
  import opened OverlayTheorems
  import opened OverlayMounts
  import opened OverlayGrowth
  import opened OverlayReturns
  import D = OverlayDisk
  import R = OverlayRuns

  // ----- safe histories -----

  /** The layer's repack, if it comes to one, hollows no other layer. */
  ghost predicate SafeRebuild(m: Meaning, w: World, c: Store, n: Name, lts: seq<LayerType>, ch: Choices)
    requires n in w.layers && n in c.s.imported
  {
    var step := StepFor(m, w, c, n, ch);
    step.Ok? && R.LineageOf(c.sys, step.value, lts).Ok? ==> SafeStep(c.sys, step.value)
  }

  /** If the layer did not stand and does again, its mount is still what its build left: each change below
      is recorded in its manifests or in its layer's directory, and not in both. */
  ghost predicate SafeUse(c: Store, n: Name, e: CacheEntry, lts: seq<LayerType>) {
    Returns(Referenced(c, n, e, lts), n, lts) && R.Clean(c.made[n]) ==> Intact(c.sys.disk, c.made[n])
  }

  ghost predicate SafeTurn(m: Meaning, w: World, c: Store, n: Name, lts: seq<LayerType>, ch: Choices)
    requires Ranked(w)
  {
    var w' := Real(m, w, c.sys.disk, ch.picks);
    StartLayer(w', c.s, n).Ok? ==>
      var started := c.(s := StartLayer(w', c.s, n).value);
      var hit := LookupEntry(w', started.s, n);
      && n in w.layers && n in started.s.imported
      && if hit.Hit? && w.layers[n].binds == [] then
           var used := Use(started, n, hit.entry, lts);
           && SafeUse(started, n, hit.entry, lts)
           && n in used.s.imported && (!HasAllTypes(hit.entry, lts) ==> SafeRebuild(m, w', used, n, lts, ch))
         else SafeRebuild(m, w', started, n, lts, ch)
  }

  ghost predicate SafeHistory(m: Meaning, bases: set<D.Digest>, lts: seq<LayerType>, hs: seq<Happening>)
    requires |lts| > 0
  {
    hs != [] ==>
      var before, h := hs[..|hs| - 1], hs[|hs| - 1];
      && SafeHistory(m, bases, lts, before)
      && var c := History(m, bases, lts, before);
         (c.Ok? && h.Turned? && Ranked(h.world) ==> SafeTurn(m, h.world, c.value, h.name, lts, h.choices))
  }

  // ----- what a container ran on -----

  /** If nothing below is stale, the layer's last completed build left what a clean build leaves. */
  ghost predicate FaithOk(m: Meaning, c: Store, n: Name)
    requires n in c.made
  {
    n in c.s.roots && c.s.roots[n].Some? && (c.made[n].Child? ==> R.Clean(c.made[n].base)) ==>
      Faithful(m, c.made[n], c.s.roots[n].value)
  }

  ghost predicate FaithInv(m: Meaning, c: Store) {
    forall n {:trigger FaithOk(m, c, n)} | n in c.made :: FaithOk(m, c, n)
  }

  lemma StandingView(m: Meaning, c: Store, tag: Name, pick: LayerType, lts: seq<LayerType>)
    requires StoreInv(m, c, lts) && FaithInv(m, c) && MountsSound(c.sys.disk, c.sys.built)
    requires tag in c.sys.built && R.Clean(c.sys.built[tag])
    ensures tag in c.s.roots && c.s.roots[tag].Some? && Faithful(m, c.sys.built[tag], c.s.roots[tag].value)
    ensures Sound(c.sys.disk, c.sys.built[tag]) && c.sys.built[tag].name == tag
    ensures D.Picks(c.sys.disk.meta[tag], pick) ==>
      D.View(D.MountStack(c.sys.disk, tag, pick)) == D.View(StackOf(m, c.s.roots[tag].value))
  {
    assert StandsOk(c, tag) && R.Good(c.sys.disk, c.sys.built, tag, lts);
    assert FaithOk(m, c, tag);
    FaithfulStack(m, c.sys.built[tag], c.s.roots[tag].value);
    if D.Picks(c.sys.disk.meta[tag], pick) {
      SoundView(c.sys.disk, c.sys.built[tag], pick);
    }
  }

  lemma ListedElsewhere(d: D.Disk, l: R.Lineage, lts: seq<LayerType>, n: Name)
    requires R.LayerOk(d, l, lts) && n !in R.Names(l)
    ensures forall x <- d.meta[l.name].builtLayers :: x != n
  {
  }

  /** A layer set up on a standing, clean base runs on what a clean build of the base shows. */
  lemma ChildView(m: Meaning, c: Store, n: Name, tag: Name, pick: LayerType, seen: LayerType, lts: seq<LayerType>)
    requires StoreInv(m, c, lts) && FaithInv(m, c) && MountsSound(c.sys.disk, c.sys.built)
    requires tag in c.sys.built && R.Clean(c.sys.built[tag]) && n !in R.Names(c.sys.built[tag])
    requires D.SetupRootfs(c.sys.disk, n, D.Built(tag), pick).Ok?
    requires ViewOf(D.SetupRootfs(c.sys.disk, n, D.Built(tag), pick).value, n, seen).Some?
    ensures tag in c.s.roots && c.s.roots[tag].Some?
    ensures ViewOf(D.SetupRootfs(c.sys.disk, n, D.Built(tag), pick).value, n, seen) == Some(D.View(StackOf(m, c.s.roots[tag].value)))
  {
    var d, l := c.sys.disk, c.sys.built[tag];
    StandingView(m, c, tag, seen, lts);
    assert R.Good(d, c.sys.built, tag, lts);
    ListedElsewhere(d, l, lts, n);
    NameInNames(l);
    SnapshotShape(d, tag, n, pick);
    SnapshotKeepsView(d, tag, n, pick, seen);
  }

  lemma RootView(m: Meaning, d: D.Disk, l: R.Lineage, from: D.From, pick: LayerType, seen: LayerType)
    requires R.StoreOk(d) && l.Root? && !from.Built? && l.source == R.SourceOf(from)
    requires D.SetupRootfs(d, l.name, from, pick).Ok?
    requires ViewOf(D.SetupRootfs(d, l.name, from, pick).value, l.name, seen).Some?
    ensures ViewOf(D.SetupRootfs(d, l.name, from, pick).value, l.name, seen) == Some(D.View(R.SourceDiffs(l.source)))
  {
    var mounted := D.SetupRootfs(d, l.name, from, pick).value;
    RootSetup(d, l, from, pick, seen);
    assert mounted.meta[l.name].builtLayers == [] && mounted.upper[l.name] == map[];
    assert D.MountStack(mounted, l.name, seen) == D.Diffs(D.Picked(mounted.meta[l.name], seen)) + [map[]];
    ViewEmptyTop(D.Diffs(D.Picked(mounted.meta[l.name], seen)));
  }

  // ----- rebuilding keeps both -----

  /** What the new root was made from, as the term that records it. */
  lemma RebuiltTerm(w: World, s: State, n: Name, lts: seq<LayerType>, emitted: Emitted)
    requires Ranked(w) && |lts| > 0 && n in w.layers && n in s.imported && Rebuild(w, s, n, lts, emitted).Ok?
    requires w.layers[n].overlayDirs == []
    requires n in Rebuild(w, s, n, lts, emitted).value.roots && Rebuild(w, s, n, lts, emitted).value.roots[n].Some?
    ensures var l, fs := w.layers[n], Rebuild(w, s, n, lts, emitted).value.roots[n].value;
      && InputsOf(fs) == InputsFor(w, s, n)
      && match l.from
         case Scratch => fs.base == Empty
         case Tar(_) => fs.base.Unpacked?
         case Image(tag) => tag in w.images && fs.base == Pulled(w.images[tag])
         case Built(tag) => tag in s.roots && s.roots[tag].Some? && fs.base == On(s.roots[tag].value)
  {
    RebuildShape(w, s, n, lts, emitted);
  }

  lemma DefinedSource(m: Meaning, w: World, sys: R.Sys, step: R.Step, n: Name, lts: seq<LayerType>)
    requires n in w.layers && DefOf(m, w, w.layers[n]) == Ok(step.def)
    requires R.LineageOf(sys, step, lts).Ok? && R.LineageOf(sys, step, lts).value.Root?
    ensures var l := R.LineageOf(sys, step, lts).value;
      && l.source == R.SourceOf(step.def.from) && !step.def.from.Built? && l.name == step.name
      && l.source == match w.layers[n].from
                     case Image(tag) => if tag in w.images then Some(m.source(w.images[tag])) else None
                     case _ => None
  {
  }

  lemma RebuiltRootView(m: Meaning, w: World, c: Store, n: Name, lts: seq<LayerType>, ch: Choices)
    requires R.StoreOk(c.sys.disk) && n in w.layers && n in c.s.imported && StepFor(m, w, c, n, ch).Ok?
    requires R.LineageOf(c.sys, StepFor(m, w, c, n, ch).value, lts).Ok?
    requires R.LineageOf(c.sys, StepFor(m, w, c, n, ch).value, lts).value.Root?
    ensures var step := StepFor(m, w, c, n, ch).value;
      var l := R.LineageOf(c.sys, step, lts).value;
      && ViewOf(D.SetupRootfs(c.sys.disk, n, step.def.from, ch.pick).value, n, ch.seen) == Some(D.View(R.SourceDiffs(l.source)))
      && l.source == match w.layers[n].from
                     case Image(tag) => if tag in w.images then Some(m.source(w.images[tag])) else None
                     case _ => None
  {
    StepIs(m, w, c, n, ch);
    var step := StepFor(m, w, c, n, ch).value;
    DefinedSource(m, w, c.sys, step, n, lts);
    RootView(m, c.sys.disk, R.LineageOf(c.sys, step, lts).value, step.def.from, ch.pick, ch.seen);
  }

  lemma NewRootFaithful(m: Meaning, w: World, c: Store, n: Name, lts: seq<LayerType>, ch: Choices)
    requires StoreInv(m, c, lts) && Ranked(w) && |lts| > 0 && n in w.layers && n in c.s.imported
    requires Rebuilt(m, w, c, n, lts, ch).Ok? && R.LineageOf(c.sys, StepFor(m, w, c, n, ch).value, lts).Ok?
    requires var c' := Rebuilt(m, w, c, n, lts, ch).value;
      n in c'.s.roots && c'.s.roots[n].Some? && n in c'.made && c'.made[n].Root?
    ensures var c' := Rebuilt(m, w, c, n, lts, ch).value; Faithful(m, c'.made[n], c'.s.roots[n].value)
  {
    RebuiltIs(m, w, c, n, lts, ch);
    RebuiltIsNext(m, w, c, n, lts, ch);
    StepIs(m, w, c, n, ch);
    BaseStands(m, w, c, n, lts, ch);
    var c' := Rebuilt(m, w, c, n, lts, ch).value;
    RebuiltTerm(w, c.s, n, lts, Emits(c'.sys.disk));
    RebuiltRootView(m, w, c, n, lts, ch);
    RootBase(m, w, w.layers[n], c'.made[n].source, c'.s.roots[n].value.base);
  }

  lemma RootBase(m: Meaning, w: World, l: Layer, source: Option<D.Source>, base: BaseFs)
    requires !l.from.Built?
    requires source == match l.from case Image(tag) => if tag in w.images then Some(m.source(w.images[tag])) else None case _ => None
    requires match l.from
      case Scratch => base == Empty
      case Tar(_) => base.Unpacked?
      case Image(tag) => tag in w.images && base == Pulled(w.images[tag])
      case _ => false
    ensures BaseStack(m, base) == R.SourceDiffs(source) && !base.On?
    ensures if base.Pulled? then source == Some(m.source(base.digest)) else source == None
  {
  }

  lemma NewChildView(m: Meaning, w: World, c: Store, n: Name, lts: seq<LayerType>, ch: Choices)
    requires StoreInv(m, c, lts) && FaithInv(m, c) && MountsSound(c.sys.disk, c.sys.built)
    requires n in w.layers && n in c.s.imported && StepFor(m, w, c, n, ch).Ok?
    requires var l := R.LineageOf(c.sys, StepFor(m, w, c, n, ch).value, lts);
      l.Ok? && l.value.Child? && R.Clean(l.value.base)
    ensures var l, tag := R.LineageOf(c.sys, StepFor(m, w, c, n, ch).value, lts).value, w.layers[n].from.tag;
      && w.layers[n].from.Built? && tag in c.s.roots && c.s.roots[tag].Some? && Faithful(m, l.base, c.s.roots[tag].value)
      && l.own == m.run(D.View(StackOf(m, c.s.roots[tag].value)), InputsFor(w, c.s, n))
  {
    StepIs(m, w, c, n, ch);
    BaseStands(m, w, c, n, lts, ch);
    var tag := w.layers[n].from.tag;
    ChildView(m, c, n, tag, ch.pick, ch.seen, lts);
    StandingView(m, c, tag, ch.seen, lts);
  }

  lemma ChildIsFaithful(m: Meaning, l: R.Lineage, fs: Fs, b: Fs, inputs: Inputs)
    requires l.Child? && fs.base == On(b) && Faithful(m, l.base, b) && inputs == InputsOf(fs)
    requires l.own == m.run(D.View(StackOf(m, b)), inputs)
    ensures Faithful(m, l, fs)
  {
  }

  lemma NewChildFaithful(m: Meaning, w: World, c: Store, n: Name, lts: seq<LayerType>, ch: Choices)
    requires StoreInv(m, c, lts) && FaithInv(m, c) && MountsSound(c.sys.disk, c.sys.built)
    requires Ranked(w) && |lts| > 0 && n in w.layers && n in c.s.imported
    requires Rebuilt(m, w, c, n, lts, ch).Ok? && R.LineageOf(c.sys, StepFor(m, w, c, n, ch).value, lts).Ok?
    requires var c' := Rebuilt(m, w, c, n, lts, ch).value;
      n in c'.s.roots && c'.s.roots[n].Some? && n in c'.made && c'.made[n].Child? && R.Clean(c'.made[n].base)
    ensures var c' := Rebuilt(m, w, c, n, lts, ch).value; Faithful(m, c'.made[n], c'.s.roots[n].value)
  {
    RebuiltIs(m, w, c, n, lts, ch);
    RebuiltIsNext(m, w, c, n, lts, ch);
    StepIs(m, w, c, n, ch);
    var c', tag := Rebuilt(m, w, c, n, lts, ch).value, w.layers[n].from.tag;
    RebuiltTerm(w, c.s, n, lts, Emits(c'.sys.disk));
    NewChildView(m, w, c, n, lts, ch);
    ChildIsFaithful(m, c'.made[n], c'.s.roots[n].value, c.s.roots[tag].value, InputsFor(w, c.s, n));
  }

  lemma RebuiltFaith(m: Meaning, w: World, c: Store, n: Name, lts: seq<LayerType>, ch: Choices)
    requires StoreInv(m, c, lts) && FaithInv(m, c) && MountsSound(c.sys.disk, c.sys.built)
    requires Ranked(w) && |lts| > 0 && n in w.layers && n in c.s.imported && Rebuilt(m, w, c, n, lts, ch).Ok?
    ensures FaithInv(m, Rebuilt(m, w, c, n, lts, ch).value)
  {
    RebuiltIs(m, w, c, n, lts, ch);
    StepIs(m, w, c, n, ch);
    var c' := Rebuilt(m, w, c, n, lts, ch).value;
    RebuildShape(w, c.s, n, lts, Emits(c'.sys.disk));
    forall k | k in c'.made ensures FaithOk(m, c', k) {
      if k != n {
        assert FaithOk(m, c, k);
      } else if c'.s.roots[n].Some? {
        if c'.made[n].Root? {
          NewRootFaithful(m, w, c, n, lts, ch);
        } else if R.Clean(c'.made[n].base) {
          NewChildFaithful(m, w, c, n, lts, ch);
        }
      }
    }
  }

  lemma RebuiltSound(m: Meaning, w: World, c: Store, n: Name, lts: seq<LayerType>, ch: Choices)
    requires StoreInv(m, c, lts) && MountsSound(c.sys.disk, c.sys.built) && Distinct(lts)
    requires Ranked(w) && |lts| > 0 && n in w.layers && n in c.s.imported && Rebuilt(m, w, c, n, lts, ch).Ok?
    requires SafeRebuild(m, w, c, n, lts, ch)
    ensures var c' := Rebuilt(m, w, c, n, lts, ch).value; MountsSound(c'.sys.disk, c'.sys.built)
  {
    RebuiltIs(m, w, c, n, lts, ch);
    var c', step := Rebuilt(m, w, c, n, lts, ch).value, StepFor(m, w, c, n, ch).value;
    if R.LineageOf(c.sys, step, lts).Ok? {
      RebuiltIsNext(m, w, c, n, lts, ch);
      StepKeepsMounts(c.sys, step, lts);
    } else {
      RebuiltApart(m, w, c, n, lts, ch);
      MountsApart(c.sys.disk, c'.sys.disk, c.sys.built, Touched(c.sys.disk, step), lts);
    }
  }

  // ----- every other happening keeps both -----

  lemma SoundIgnoresImages(d: D.Disk, d': D.Disk, built: map<Name, R.Lineage>)
    requires MountsSound(d, built) && d'.meta == d.meta && d'.upper == d.upper
    ensures MountsSound(d', built)
  {
    forall k | k in built && R.Clean(built[k]) ensures Sound(d', built[k]) {
      assert Sound(d, built[k]);
      SameMount(d, d', built[k]);
    }
  }

  ghost predicate SafeInv(m: Meaning, c: Store) {
    FaithInv(m, c) && MountsSound(c.sys.disk, c.sys.built)
  }

  lemma SameMade(m: Meaning, c: Store, c': Store)
    requires SafeInv(m, c) && c'.made == c.made && c'.s.roots == c.s.roots
    requires c'.sys.built == c.sys.built && c'.sys.disk.meta == c.sys.disk.meta && c'.sys.disk.upper == c.sys.disk.upper
    ensures SafeInv(m, c')
  {
    SoundIgnoresImages(c.sys.disk, c'.sys.disk, c.sys.built);
    forall k | k in c'.made ensures FaithOk(m, c', k) {
      assert FaithOk(m, c, k);
    }
  }

  /** A failure leaves the layer's root broken and the mounts it cannot have touched as they were. */
  lemma FailedSafe(m: Meaning, c: Store, c': Store, n: Name, names: set<Name>, lts: seq<LayerType>)
    requires StoreInv(m, c, lts) && SafeInv(m, c) && FailureLeaves(c, c', n, names) && c'.s.roots == c.s.roots[n := None]
    ensures SafeInv(m, c')
  {
    MountsApart(c.sys.disk, c'.sys.disk, c.sys.built, names, lts);
    forall k | k in c'.made ensures FaithOk(m, c', k) {
      assert FaithOk(m, c, k);
    }
  }

  lemma FailedRoots(s: State, n: Name, left: map<LayerType, Blob>)
    ensures FailOn(s, n, left).roots == s.roots[n := None]
  {
  }

  lemma FailedTurnSafe(m: Meaning, w: World, c: Store, n: Name, lts: seq<LayerType>, ch: Choices, left: D.Diff)
    requires StoreInv(m, c, lts) && SafeInv(m, c) && FailedTurn(m, w, c, n, ch, left).Ok?
    ensures SafeInv(m, FailedTurn(m, w, c, n, ch, left).value)
  {
    var s := FailedTurnIs(m, w, c, n, ch, left);
    FailedRoots(s, n, map[]);
    FailedSafe(m, c, FailedTurn(m, w, c, n, ch, left).value, n, {n}, lts);
  }

  lemma UnrecordedTurnSafe(m: Meaning, w: World, c: Store, n: Name, lts: seq<LayerType>, ch: Choices)
    requires StoreInv(m, c, lts) && SafeInv(m, c) && Ranked(w) && |lts| > 0 && UnrecordedTurn(m, w, c, n, lts, ch).Ok?
    ensures SafeInv(m, UnrecordedTurn(m, w, c, n, lts, ch).value)
  {
    var c' := UnrecordedTurn(m, w, c, n, lts, ch).value;
    var names := UnrecordedTurnIs(m, w, c, n, lts, ch);
    var s := StartLayer(Real(m, w, c.sys.disk, ch.picks), c.s, n).value;
    FailedRoots(s, n, Unrecorded(w.layers[n], n, lts, Emits(c'.sys.disk)));
    FailedSafe(m, c, c', n, names, lts);
  }

  lemma ReferencedSafe(m: Meaning, c: Store, n: Name, lts: seq<LayerType>)
    requires StoreInv(m, c, lts) && SafeInv(m, c) && n in c.s.cache
    ensures SafeInv(m, Referenced(c, n, c.s.cache[n], lts))
  {
    RestoreShape(c.sys, n, c.s.cache[n], lts);
    UseCachedKeeps(c.s, n, lts);
    SameMade(m, c, Referenced(c, n, c.s.cache[n], lts));
  }

  lemma SameIntact(d: D.Disk, d': D.Disk, l: R.Lineage)
    requires Intact(d, l) && d'.meta == d.meta && d'.upper == d.upper
    ensures Intact(d', l)
  {
    var top :| HoldsAbove(d, l, top) && RecordsUpTo(d, l, top) && RecordedAreDrained(d, top);
    SameHolds(d, d', l, top);
    assert RecordsUpTo(d', l, top) && RecordedAreDrained(d', top);
  }

  lemma {:induction false} SameHolds(d: D.Disk, d': D.Disk, l: R.Lineage, top: Option<R.Lineage>)
    requires HoldsAbove(d, l, top) && d'.upper == d.upper
    ensures HoldsAbove(d', l, top)
  {
    if top != Some(l) && l.Child? {
      SameHolds(d, d', l.base, top);
    }
  }

  lemma UseSafe(m: Meaning, c: Store, n: Name, lts: seq<LayerType>)
    requires StoreInv(m, c, lts) && SafeInv(m, c) && n in c.s.cache && SafeUse(c, n, c.s.cache[n], lts)
    ensures SafeInv(m, Use(c, n, c.s.cache[n], lts))
  {
    ReferencedInv(m, c, n, lts);
    ReferencedSafe(m, c, n, lts);
    RestoreShape(c.sys, n, c.s.cache[n], lts);
    var used, c' := Referenced(c, n, c.s.cache[n], lts), Use(c, n, c.s.cache[n], lts);
    if Returns(used, n, lts) {
      ReturnBuilt(m, used, n, lts);
      if R.Clean(used.made[n]) {
        SameIntact(c.sys.disk, used.sys.disk, used.made[n]);
        IntactIsSound(used.sys.disk, c'.sys.built, used.made[n], lts);
      }
      forall k | k in c'.made ensures FaithOk(m, c', k) {
        assert FaithOk(m, used, k);
      }
    }
  }

  /** The exact condition for a layer that comes back: where its manifests record its lineage up to some
      layer and the changes above are in their directories, its mount is sound if and only if no directory
      that it lists is filled although its change is recorded. */
  lemma ReturnIsSoundIff(m: Meaning, c: Store, n: Name, top: Option<R.Lineage>, lts: seq<LayerType>)
    requires StoreInv(m, c, lts) && Returns(c, n, lts) && n in c.sys.disk.meta && c.made[n].name == n
    requires HoldsAbove(c.sys.disk, c.made[n], top) && RecordsUpTo(c.sys.disk, c.made[n], top)
    ensures Sound(c.sys.disk, c.made[n]) <==> RecordedAreDrained(c.sys.disk, top)
  {
    ReturnBuilt(m, c, n, lts);
    SoundIffDrained(c.sys.disk, c.sys.built[n := c.made[n]], c.made[n], top, lts);
  }

  lemma TurnFromSafe(m: Meaning, w: World, c: Store, n: Name, lts: seq<LayerType>, ch: Choices)
    requires StoreInv(m, c, lts) && SafeInv(m, c) && Distinct(lts)
    requires Ranked(w) && |lts| > 0 && n in w.layers && n in c.s.imported && TurnFrom(m, w, c, n, lts, ch).Ok?
    requires var hit := LookupEntry(w, c.s, n);
      if hit.Hit? && w.layers[n].binds == [] then
        SafeUse(c, n, hit.entry, lts) && (!HasAllTypes(hit.entry, lts) ==> SafeRebuild(m, w, Use(c, n, hit.entry, lts), n, lts, ch))
      else SafeRebuild(m, w, c, n, lts, ch)
    ensures SafeInv(m, TurnFrom(m, w, c, n, lts, ch).value)
  {
    var hit := LookupEntry(w, c.s, n);
    if hit.Hit? && w.layers[n].binds == [] {
      HitMeansCached(w, c.s, n);
      var used := Use(c, n, hit.entry, lts);
      UseInv(m, c, n, lts);
      UseSafe(m, c, n, lts);
      if !HasAllTypes(hit.entry, lts) {
        RebuiltFaith(m, w, used, n, lts, ch);
        RebuiltSound(m, w, used, n, lts, ch);
      }
    } else {
      RebuiltFaith(m, w, c, n, lts, ch);
      RebuiltSound(m, w, c, n, lts, ch);
    }
  }

  lemma TurnSafe(m: Meaning, w: World, c: Store, n: Name, lts: seq<LayerType>, ch: Choices)
    requires StoreInv(m, c, lts) && SafeInv(m, c) && Distinct(lts) && Ranked(w) && |lts| > 0
    requires Turn(m, w, c, n, lts, ch).Ok? && SafeTurn(m, w, c, n, lts, ch)
    ensures SafeInv(m, Turn(m, w, c, n, lts, ch).value)
  {
    var w' := Real(m, w, c.sys.disk, ch.picks);
    var started := c.(s := StartLayer(w', c.s, n).value);
    StartInv(m, w', c, n, lts);
    SameMade(m, c, started);
    TurnFromSafe(m, w', started, n, lts, ch);
  }

  /** In a safe history, each layer left what a clean build leaves as far as nothing below it is stale,
      and the mounts of all standing clean layers are sound. */
  lemma {:induction false} HistorySafe(m: Meaning, bases: set<D.Digest>, lts: seq<LayerType>, hs: seq<Happening>)
    requires |lts| > 0 && Distinct(lts) && History(m, bases, lts, hs).Ok? && SafeHistory(m, bases, lts, hs)
    ensures SafeInv(m, History(m, bases, lts, hs).value)
  {
    if hs != [] {
      var before, h := hs[..|hs| - 1], hs[|hs| - 1];
      HistorySafe(m, bases, lts, before);
      HistoryInv(m, bases, lts, before);
      var c := History(m, bases, lts, before).value;
      match h {
        case Turned(w, n, ch) => TurnSafe(m, w, c, n, lts, ch);
        case RunFailed(w, n, ch, left) => FailedTurnSafe(m, w, c, n, lts, ch, left);
        case PutFailed(w, n, ch) => UnrecordedTurnSafe(m, w, c, n, lts, ch);
        case Collected => SameMade(m, c, c.(s := CollectGarbage(c.s)));
        case Reopened => SameMade(m, c, c.(s := OpenCache(c.s)));
      }
    }
  }

  // ----- the theorems -----

  /** The layers a layer imports from stand and are clean. */
  ghost predicate HostsClean(c: Store, imports: seq<Import>, picks: Name -> LayerType) {
    forall imp <- imports :: imp.location.Stacker? ==>
      var host := imp.location.host;
      host in c.sys.built && R.Clean(c.sys.built[host]) && host in c.sys.disk.meta && D.Picks(c.sys.disk.meta[host], picks(host))
  }

  lemma CleanHostsAreRight(m: Meaning, c: Store, imports: seq<Import>, picks: Name -> LayerType, lts: seq<LayerType>)
    requires StoreInv(m, c, lts) && SafeInv(m, c) && HostsClean(c, imports, picks)
    ensures HostsRight(m, c, imports, picks)
  {
    forall imp | imp in imports && imp.location.Stacker? ensures HostRight(m, c, imp.location.host, picks(imp.location.host)) {
      StandingView(m, c, imp.location.host, picks(imp.location.host), lts);
    }
  }

  /** The base that a layer is built on stands, and is not built on the layer. */
  ghost predicate BaseStanding(m: Meaning, w: World, c: Store, n: Name, lts: seq<LayerType>)
    requires n in w.layers
  {
    match w.layers[n].from
    case Built(tag) => tag in c.sys.built && n !in R.Names(c.sys.built[tag])
    case Image(tag) => tag in w.images ==> R.WellFormedSource(m.source(w.images[tag]), lts)
    case _ => true
  }

  /** A layer that is built is built on a base that stands, and one that is used was. */
  ghost predicate OnStanding(m: Meaning, w: World, c: Store, n: Name, lts: seq<LayerType>, ch: Choices)
    requires Ranked(w) && n in w.layers
  {
    var w' := Real(m, w, c.sys.disk, ch.picks);
    StartLayer(w', c.s, n).Ok? ==>
      var hit := LookupEntry(w', StartLayer(w', c.s, n).value, n);
      if hit.Hit? && w.layers[n].binds == [] && HasAllTypes(hit.entry, lts) then n in c.made else BaseStanding(m, w, c, n, lts)
  }

  /** At every turn of the run, a hit is on a root that no failed build left broken, the base stands, and
      the layers that are imported from stand and are clean. */
  ghost predicate CleanTurn(m: Meaning, w: World, c: Store, n: Name, lts: seq<LayerType>, ch: Choices)
    requires Ranked(w)
  {
    && HitIsWhole(w, c.s, n)
    && (n in w.layers ==> HostsClean(c, w.layers[n].imports, ch.picks) && OnStanding(m, w, c, n, lts, ch))
  }

  ghost predicate RunClean(m: Meaning, bases: set<D.Digest>, lts: seq<LayerType>, past: seq<Happening>, w: World, run: seq<Happening>)
    requires Ranked(w) && |lts| > 0
  {
    run != [] ==>
      var before, h := run[..|run| - 1], run[|run| - 1];
      && RunClean(m, bases, lts, past, w, before)
      && var c := History(m, bases, lts, past + before);
         (c.Ok? && h.Turned? ==> CleanTurn(m, w, c.value, h.name, lts, h.choices))
  }

  // ----- what was built in the run was built on bases that stood -----

  lemma StandingBase(m: Meaning, w: World, c: Store, n: Name, lts: seq<LayerType>, ch: Choices)
    requires StoreInv(m, c, lts) && n in w.layers && n in c.s.imported && StepFor(m, w, c, n, ch).Ok?
    requires BaseStanding(m, w, c, n, lts)
    ensures R.LineageOf(c.sys, StepFor(m, w, c, n, ch).value, lts).Ok?
  {
    StepIs(m, w, c, n, ch);
    if w.layers[n].from.Built? {
      assert R.Good(c.sys.disk, c.sys.built, w.layers[n].from.tag, lts);
    }
  }

  lemma RebuiltIsMade(m: Meaning, w: World, c: Store, n: Name, lts: seq<LayerType>, ch: Choices)
    requires StoreInv(m, c, lts) && Ranked(w) && |lts| > 0 && n in w.layers && n in c.s.imported
    requires Rebuilt(m, w, c, n, lts, ch).Ok? && BaseStanding(m, w, c, n, lts)
    ensures n in Rebuilt(m, w, c, n, lts, ch).value.made
  {
    RebuiltIs(m, w, c, n, lts, ch);
    StandingBase(m, w, c, n, lts, ch);
    RebuiltIsNext(m, w, c, n, lts, ch);
  }

  lemma UsedBase(m: Meaning, w: World, c: Store, n: Name, e: CacheEntry, lts: seq<LayerType>)
    requires StoreInv(m, c, lts) && n in w.layers && BaseStanding(m, w, c, n, lts)
    ensures BaseStanding(m, w, Use(c, n, e, lts), n, lts)
  {
  }

  lemma TurnFromMakes(m: Meaning, w: World, c: Store, n: Name, lts: seq<LayerType>, ch: Choices)
    requires StoreInv(m, c, lts) && Ranked(w) && |lts| > 0 && n in w.layers && n in c.s.imported
    requires TurnFrom(m, w, c, n, lts, ch).Ok?
    requires var hit := LookupEntry(w, c.s, n);
      if hit.Hit? && w.layers[n].binds == [] && HasAllTypes(hit.entry, lts) then n in c.made else BaseStanding(m, w, c, n, lts)
    ensures n in TurnFrom(m, w, c, n, lts, ch).value.made
  {
    var hit := LookupEntry(w, c.s, n);
    if hit.Hit? && w.layers[n].binds == [] {
      HitMeansCached(w, c.s, n);
      UsedState(c, n, hit.entry, lts);
      if !HasAllTypes(hit.entry, lts) {
        UseInv(m, c, n, lts);
        UsedBase(m, w, c, n, hit.entry, lts);
        RebuiltIsMade(m, w, Use(c, n, hit.entry, lts), n, lts, ch);
      }
    } else {
      RebuiltIsMade(m, w, c, n, lts, ch);
    }
  }

  lemma TurnMakes(m: Meaning, w: World, c: Store, n: Name, lts: seq<LayerType>, ch: Choices)
    requires StoreInv(m, c, lts) && Ranked(w) && |lts| > 0 && n in w.layers
    requires Turn(m, w, c, n, lts, ch).Ok? && OnStanding(m, w, c, n, lts, ch)
    ensures n in Turn(m, w, c, n, lts, ch).value.made
  {
    var w' := Real(m, w, c.sys.disk, ch.picks);
    StartInv(m, w', c, n, lts);
    TurnFromMakes(m, w', c.(s := StartLayer(w', c.s, n).value), n, lts, ch);
  }

  lemma MadeKeeps(c: Store, step: R.Step, lts: seq<LayerType>, k: Name)
    requires k in c.made && k != step.name
    ensures k in MadeAfter(c, step, lts)
  {
  }

  lemma StepIsNamed(m: Meaning, w: World, c: Store, n: Name, ch: Choices)
    requires n in w.layers && n in c.s.imported && StepFor(m, w, c, n, ch).Ok?
    ensures StepFor(m, w, c, n, ch).value.name == n
  {
  }

  lemma RebuiltMakesOnly(m: Meaning, w: World, c: Store, n: Name, lts: seq<LayerType>, ch: Choices, k: Name)
    requires Ranked(w) && |lts| > 0 && n in w.layers && n in c.s.imported
    requires Rebuilt(m, w, c, n, lts, ch).Ok? && k in c.made && k != n
    ensures k in Rebuilt(m, w, c, n, lts, ch).value.made
  {
    RebuiltIs(m, w, c, n, lts, ch);
    StepIsNamed(m, w, c, n, ch);
    MadeKeeps(c, StepFor(m, w, c, n, ch).value, lts, k);
  }

  lemma TurnMakesOnly(m: Meaning, w: World, c: Store, n: Name, lts: seq<LayerType>, ch: Choices, k: Name)
    requires Ranked(w) && |lts| > 0 && Turn(m, w, c, n, lts, ch).Ok? && k in c.made && k != n
    ensures k in Turn(m, w, c, n, lts, ch).value.made
  {
    var w' := Real(m, w, c.sys.disk, ch.picks);
    var started := c.(s := StartLayer(w', c.s, n).value);
    var hit := LookupEntry(w', started.s, n);
    if hit.Hit? && w.layers[n].binds == [] {
      UsedState(started, n, hit.entry, lts);
      if !HasAllTypes(hit.entry, lts) {
        RebuiltMakesOnly(m, w', Use(started, n, hit.entry, lts), n, lts, ch, k);
      }
    } else {
      RebuiltMakesOnly(m, w', started, n, lts, ch, k);
    }
  }

  lemma {:induction false} RunMakes(
      m: Meaning, bases: set<D.Digest>, lts: seq<LayerType>, past: seq<Happening>, w: World, run: seq<Happening>)
    requires |lts| > 0 && Distinct(lts) && History(m, bases, lts, past + run).Ok?
    requires Ranked(w) && IsRun(w, run) && RunClean(m, bases, lts, past, w, run)
    ensures forall n <- TurnNames(run) :: n in w.layers ==> n in History(m, bases, lts, past + run).value.made
  {
    if run != [] {
      var before, h := run[..|run| - 1], run[|run| - 1];
      HistoryLast(m, bases, lts, past, run);
      assert h in run && forall k <- before :: k in run;
      RunMakes(m, bases, lts, past, w, before);
      var c := History(m, bases, lts, past + before).value;
      if h.Turned? {
        HistoryInv(m, bases, lts, past + before);
        TurnsMake(m, w, c, TurnNames(before), h.name, lts, h.choices);
      }
    }
  }

  lemma TurnsMake(m: Meaning, w: World, c: Store, before: seq<Name>, n: Name, lts: seq<LayerType>, ch: Choices)
    requires StoreInv(m, c, lts) && Distinct(lts) && Ranked(w) && |lts| > 0
    requires Turn(m, w, c, n, lts, ch).Ok? && CleanTurn(m, w, c, n, lts, ch)
    requires forall k <- before :: k in w.layers ==> k in c.made
    ensures forall k <- before + [n] :: k in w.layers ==> k in Turn(m, w, c, n, lts, ch).value.made
  {
    forall k | k in before + [n] && k in w.layers ensures k in Turn(m, w, c, n, lts, ch).value.made {
      if k == n {
        TurnMakes(m, w, c, n, lts, ch);
      } else {
        TurnMakesOnly(m, w, c, n, lts, ch, k);
      }
    }
  }

  lemma {:induction false} SafePrefix(m: Meaning, bases: set<D.Digest>, lts: seq<LayerType>, a: seq<Happening>, b: seq<Happening>)
    requires |lts| > 0 && SafeHistory(m, bases, lts, a + b)
    ensures SafeHistory(m, bases, lts, a)
  {
    if b == [] {
      assert a + b == a;
    } else {
      assert (a + b)[..|a + b| - 1] == a + b[..|b| - 1];
      SafePrefix(m, bases, lts, a, b[..|b| - 1]);
    }
  }

  lemma {:induction false} CleanRunIsRight(
      m: Meaning, bases: set<D.Digest>, lts: seq<LayerType>, past: seq<Happening>, w: World, run: seq<Happening>)
    requires Ranked(w) && |lts| > 0 && Distinct(lts)
    requires SafeHistory(m, bases, lts, past + run) && RunClean(m, bases, lts, past, w, run)
    ensures RunRight(m, bases, lts, past, w, run)
  {
    if run != [] {
      var before, h := run[..|run| - 1], run[|run| - 1];
      assert past + run == (past + before) + [h];
      SafePrefix(m, bases, lts, past + before, [h]);
      CleanRunIsRight(m, bases, lts, past, w, before);
      var c := History(m, bases, lts, past + before);
      if c.Ok? && h.Turned? && h.name in w.layers {
        HistoryInv(m, bases, lts, past + before);
        HistorySafe(m, bases, lts, past + before);
        CleanHostsAreRight(m, c.value, w.layers[h.name].imports, h.choices.picks, lts);
      }
    }
  }

  /** The main theorem.  In a history in which no repack hollowed another layer's mount and layers that
      came back are intact, a run on bases that stand leaves an output layer whose base is clean an image
      that is the stack of a clean build if and only if the layer is not stale; and a standing clean layer
      is mounted on exactly what a clean build shows. */
  lemma CachedRunIsCleanIffNotStale(
      m: Meaning, bases: set<D.Digest>, lts: seq<LayerType>, past: seq<Happening>, w: World, run: seq<Happening>, n: Name, lt: LayerType)
    requires |lts| > 0 && Distinct(lts) && History(m, bases, lts, past + run).Ok?
    requires Ranked(w) && w.grab == IdealGrab(m) && IsRun(w, run) && Ordered(w, TurnNames(run))
    requires SafeHistory(m, bases, lts, past + run) && RunClean(m, bases, lts, past, w, run)
    requires n in Kept(w, TurnNames(run)) && lt in lts
    ensures n in w.layers && FreshRun(w, Kept(w, TurnNames(run))).Ok?
    ensures var clean := FreshRun(w, Kept(w, TurnNames(run))).value; n in clean && clean[n].Some?
    ensures !w.layers[n].buildOnly ==>
      var c, fs := History(m, bases, lts, past + run).value, FreshRun(w, Kept(w, TurnNames(run))).value[n].value;
      && D.Ref(n, lt) in c.sys.disk.images && n in c.made
      && var image := c.sys.disk.images[D.Ref(n, lt)];
         && (forall x <- image :: x in c.sys.disk.store && x.layerType == lt)
         && (c.made[n].Root? || R.Clean(c.made[n].base) ==>
               (D.Resolve(c.sys.disk, image) == StackOf(m, fs) <==> !R.Stale(c.made[n])))
    ensures var c, fs := History(m, bases, lts, past + run).value, FreshRun(w, Kept(w, TurnNames(run))).value[n].value;
      n in c.sys.built && R.Clean(c.sys.built[n]) && n in c.sys.disk.meta && D.Picks(c.sys.disk.meta[n], lt) ==>
        ViewOf(c.sys.disk, n, lt) == Some(D.View(StackOf(m, fs)))
  {
    CleanRunIsRight(m, bases, lts, past, w, run);
    CachedImagesAreExact(m, bases, lts, past, w, run, n, lt);
    HistoryInv(m, bases, lts, past + run);
    HistorySafe(m, bases, lts, past + run);
    RunKeeps(m, bases, lts, past, w, run);
    RunMakes(m, bases, lts, past, w, run);
    KeptIn(w, TurnNames(run));
    var c := History(m, bases, lts, past + run).value;
    var clean := FreshRun(w, Kept(w, TurnNames(run))).value;
    assert Settled(w, c.s, clean, n, lts);
    SettledFaith(m, c, w, clean, n, lts);
    SettledView(m, c, w, clean, n, lt, lts);
  }

  lemma SettledView(m: Meaning, c: Store, w: World, clean: map<Name, Option<Fs>>, n: Name, pick: LayerType, lts: seq<LayerType>)
    requires Ranked(w) && StoreInv(m, c, lts) && SafeInv(m, c) && Settled(w, c.s, clean, n, lts)
    ensures n in c.sys.built && R.Clean(c.sys.built[n]) && n in c.sys.disk.meta && D.Picks(c.sys.disk.meta[n], pick) ==>
      ViewOf(c.sys.disk, n, pick) == Some(D.View(StackOf(m, clean[n].value)))
  {
    if n in c.sys.built && R.Clean(c.sys.built[n]) {
      StandingView(m, c, n, pick, lts);
    }
  }

  lemma SettledFaith(m: Meaning, c: Store, w: World, clean: map<Name, Option<Fs>>, n: Name, lts: seq<LayerType>)
    requires Ranked(w) && FaithInv(m, c) && Settled(w, c.s, clean, n, lts)
    ensures n in c.made && (c.made[n].Root? || R.Clean(c.made[n].base)) ==>
      Faithful(m, c.made[n], clean[n].value) && (R.Clean(c.made[n]) <==> !R.Stale(c.made[n]))
  {
    if n in c.made {
      assert FaithOk(m, c, n);
    }
  }

  /** So a cached run and a run from nothing ship the same stack for every layer that is clean in both. */
  lemma CachedImageEqualsScratchImage(
      m: Meaning, bases: set<D.Digest>, lts: seq<LayerType>, past: seq<Happening>, w: World,
      run: seq<Happening>, scratch: seq<Happening>, n: Name, lt: LayerType)
    requires |lts| > 0 && Distinct(lts) && History(m, bases, lts, past + run).Ok? && History(m, bases, lts, [] + scratch).Ok?
    requires Ranked(w) && w.grab == IdealGrab(m) && IsRun(w, run) && IsRun(w, scratch)
    requires TurnNames(run) == TurnNames(scratch) && Ordered(w, TurnNames(run))
    requires SafeHistory(m, bases, lts, past + run) && RunClean(m, bases, lts, past, w, run)
    requires SafeHistory(m, bases, lts, [] + scratch) && RunClean(m, bases, lts, [], w, scratch)
    requires n in Kept(w, TurnNames(run)) && n in w.layers && !w.layers[n].buildOnly && lt in lts
    ensures var c, c' := History(m, bases, lts, past + run).value, History(m, bases, lts, [] + scratch).value;
      && n in c.made && n in c'.made && D.Ref(n, lt) in c.sys.disk.images && D.Ref(n, lt) in c'.sys.disk.images
      && var image, image' := c.sys.disk.images[D.Ref(n, lt)], c'.sys.disk.images[D.Ref(n, lt)];
         && (forall x <- image :: x in c.sys.disk.store) && (forall x <- image' :: x in c'.sys.disk.store)
         && (R.Clean(c.made[n]) && R.Clean(c'.made[n]) ==> D.Resolve(c.sys.disk, image) == D.Resolve(c'.sys.disk, image'))
  {
    CachedRunIsCleanIffNotStale(m, bases, lts, past, w, run, n, lt);
    CachedRunIsCleanIffNotStale(m, bases, lts, [], w, scratch, n, lt);
  }
}

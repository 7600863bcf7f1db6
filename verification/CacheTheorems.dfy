/** What every history of cached builds keeps, and that a run with a cache gives what a run
    without one would give. */
module CacheTheorems {
  import opened Wrappers
  import opened CacheModel
  import opened CacheProofs

  // ----- the invariant of every history -----

  /** Unless the layer's root was left broken, its cache entry describes it, and its images are
      the ones the entry records, made from that root. */
  ghost predicate EntryOk(s: State, n: Name)
    requires n in s.cache
  {
    var e := s.cache[n];
    && e.name == n && n in s.roots
    && (s.roots[n].Some? ==>
          && (EntryTracked(e) ==> FsOf(e) == Ok(s.roots[n].value))
          && (!e.layer.buildOnly ==> forall lt <- e.manifests ::
                && Ref(n, lt) in s.images && s.images[Ref(n, lt)] == e.manifests[lt]
                && e.manifests[lt] in s.blobs && e.manifests[lt].fs == s.roots[n]))
  }

  ghost predicate Coherent(s: State) {
    forall n {:trigger EntryOk(s, n)} | n in s.cache :: EntryOk(s, n)
  }

  lemma CollectKeeps(s: State)
    requires Coherent(s)
    ensures Coherent(CollectGarbage(s))
  {
    var s' := CollectGarbage(s);
    forall n | n in s'.cache ensures EntryOk(s', n) {
      assert EntryOk(s, n);
      var e := s.cache[n];
      if s.roots[n].Some? && !e.layer.buildOnly {
        forall lt <- e.manifests ensures e.manifests[lt] in s'.blobs {
          assert s.images[Ref(n, lt)] in s.images.Values;
        }
      }
    }
  }

  lemma ReopenKeeps(s: State)
    requires Coherent(s)
    ensures Coherent(OpenCache(s))
  {
    var s' := OpenCache(s);
    forall n | n in s'.cache ensures EntryOk(s', n) {
      assert EntryOk(s, n);
    }
  }

  lemma SetImagesAt(s: State, n: Name, manifests: map<LayerType, Blob>)
    ensures var s' := SetImages(s, n, manifests);
      && s' == s.(images := s'.images, blobs := s'.blobs)
      && (forall lt <- manifests :: Ref(n, lt) in s'.images && s'.images[Ref(n, lt)] == manifests[lt] && manifests[lt] in s'.blobs)
      && (forall ref <- s.images :: ref.name != n || ref.layerType !in manifests ==> ref in s'.images && s'.images[ref] == s.images[ref])
      && s.blobs <= s'.blobs
  {
    forall lt <- manifests ensures manifests[lt] in manifests.Values {}
  }

  lemma FailKeeps(s: State, n: Name, left: map<LayerType, Blob>)
    requires Coherent(s)
    ensures Coherent(FailOn(s, n, left))
  {
    var torn := s.(roots := s.roots[n := None], overlaid := s.overlaid - {n});
    SetImagesAt(torn, n, left);
    var s' := FailOn(s, n, left);
    forall m | m in s'.cache ensures EntryOk(s', m) {
      assert EntryOk(s, m);
    }
  }

  lemma UseCachedKeeps(s: State, n: Name, lts: seq<LayerType>)
    requires Coherent(s) && n in s.cache
    ensures var s' := UseCached(s, n, s.cache[n], lts);
      Coherent(s') && s' == s.(images := s'.images, blobs := s'.blobs)
  {
    var e := s.cache[n];
    if !e.layer.buildOnly {
      var found := map lt | lt in lts && lt in e.manifests :: e.manifests[lt];
      SetImagesAt(s, n, found);
      var s' := UseCached(s, n, e, lts);
      forall m | m in s'.cache ensures EntryOk(s', m) {
        assert EntryOk(s, m);
        if m == n && s.roots[n].Some? {
          forall lt <- e.manifests ensures Ref(n, lt) in s'.images && s'.images[Ref(n, lt)] == e.manifests[lt] {
            assert lt in found || lt !in found;
          }
        }
      }
    }
  }

  lemma BaseDescribed(w: World, s: State, l: Layer)
    requires Ranked(w) && Coherent(s) && l.from.Built?
    requires LookupEntry(w, s, l.from.tag).Hit? && EntryTracked(LookupEntry(w, s, l.from.tag).entry)
    requires l.from.tag in s.roots && s.roots[l.from.tag].Some?
    ensures var tag := l.from.tag;
      tag in s.cache && FsOf(s.cache[tag]).Ok? && s.roots[tag] == Some(FsOf(s.cache[tag]).value)
  {
    HitMeansCached(w, s, l.from.tag);
    assert EntryOk(s, l.from.tag);
  }

  /** The state between running the layer and recording it. */
  function Ran(w: World, s: State, n: Name, fs: Option<Fs>, lts: seq<LayerType>, emitted: Emitted): State
    requires n in w.layers
  {
    var built := s.(roots := s.roots[n := fs], overlaid := s.overlaid[n := OverlayDirSet(w.layers[n].overlayDirs)]);
    if w.layers[n].buildOnly then built else SetImages(built, n, NewManifests(n, fs, lts, emitted))
  }

  function ManifestsFor(w: World, n: Name, fs: Option<Fs>, lts: seq<LayerType>, emitted: Emitted): map<LayerType, Blob>
    requires n in w.layers && |lts| > 0
  {
    if w.layers[n].buildOnly then BuildOnlyManifests(lts) else NewManifests(n, fs, lts, emitted)
  }

  lemma RebuildIs(w: World, s: State, n: Name, lts: seq<LayerType>, emitted: Emitted)
    requires Ranked(w) && |lts| > 0 && n in w.layers && n in s.imported
    requires Rebuild(w, s, n, lts, emitted).Ok?
    ensures var fs := BuildFs(w, s.roots - {n}, w.layers[n], s.imported[n]);
      fs.Ok? && Rebuild(w, s, n, lts, emitted) == Put(w, Ran(w, s, n, fs.value, lts, emitted), n, ManifestsFor(w, n, fs.value, lts, emitted))
  {
  }

  lemma RanAt(w: World, s: State, n: Name, fs: Option<Fs>, lts: seq<LayerType>, emitted: Emitted)
    requires n in w.layers
    ensures var r := Ran(w, s, n, fs, lts, emitted);
      && r.cache == s.cache && r.imported == s.imported && r.roots == s.roots[n := fs]
      && r.overlaid == s.overlaid[n := OverlayDirSet(w.layers[n].overlayDirs)]
      && (forall ref <- s.images :: ref.name != n ==> ref in r.images && r.images[ref] == s.images[ref])
      && s.blobs <= r.blobs
      && (!w.layers[n].buildOnly ==> forall lt <- NewManifests(n, fs, lts, emitted) ::
            Ref(n, lt) in r.images && r.images[Ref(n, lt)] == NewManifests(n, fs, lts, emitted)[lt] &&
            NewManifests(n, fs, lts, emitted)[lt] in r.blobs)
  {
    if !w.layers[n].buildOnly {
      var built := s.(roots := s.roots[n := fs], overlaid := s.overlaid[n := OverlayDirSet(w.layers[n].overlayDirs)]);
      SetImagesAt(built, n, NewManifests(n, fs, lts, emitted));
    }
  }

  /** Looking up the base of a layer does not involve the layer itself. */
  lemma {:induction false} LookupBelow(w: World, s: State, s': State, m: Name, n: Name)
    requires Ranked(w) && n in w.layers && Height(w, m) < Height(w, n)
    requires forall k :: k != n ==> SameFor(s, s', k)
    ensures LookupEntry(w, s, m) == LookupEntry(w, s', m)
    decreases Height(w, m)
  {
    LookupLocal(w, s, s', m, (k: Name) => k != n);
  }

  ghost predicate SameFor(s: State, s': State, k: Name) {
    && (k in s.cache <==> k in s'.cache) && (k in s.cache ==> s'.cache[k] == s.cache[k])
    && (k in s.imported <==> k in s'.imported) && (k in s.imported ==> s'.imported[k] == s.imported[k])
    && (k in s.overlaid <==> k in s'.overlaid) && (k in s.overlaid ==> s'.overlaid[k] == s.overlaid[k])
  }

  lemma {:induction false} OverlaysLocal(w: World, s: State, s': State, e: CacheEntry, n: Name, ods: seq<OverlayDir>)
    requires SameFor(s, s', n)
    ensures CheckOverlays(w, s, e, n, ods) == CheckOverlays(w, s', e, n, ods)
  {
    if ods != [] {
      OverlaysLocal(w, s, s', e, n, ods[..|ods| - 1]);
    }
  }

  /** A lookup reads only the layers of the base chain. */
  lemma {:induction false} LookupLocal(w: World, s: State, s': State, m: Name, inside: Name -> bool)
    requires Ranked(w) && inside(m)
    requires forall k :: inside(k) ==> SameFor(s, s', k)
    requires forall k :: k in w.layers && inside(k) && Height(w, k) <= Height(w, m) && w.layers[k].from.Built? ==> inside(w.layers[k].from.tag)
    ensures LookupEntry(w, s, m) == LookupEntry(w, s', m)
    decreases Height(w, m)
  {
    assert SameFor(s, s', m);
    if m in w.layers && m in s.cache {
      OverlaysLocal(w, s, s', s.cache[m], m, s.cache[m].layer.overlayDirs);
      if w.layers[m].from.Built? && w.layers[m].from.tag in w.layers {
        assert inside(w.layers[m].from.tag);
        LookupLocal(w, s, s', w.layers[m].from.tag, inside);
      }
    }
  }

  // ----- every step keeps the invariant -----

  lemma PutEntry(w: World, s: State, n: Name, manifests: map<LayerType, Blob>)
    requires Ranked(w) && Put(w, s, n, manifests).Ok?
    ensures var s' := Put(w, s, n, manifests).value;
      && n in w.layers && n in s'.cache && s' == s.(cache := s.cache[n := s'.cache[n]])
      && var e := s'.cache[n];
         && e.name == n && e.layer == w.layers[n] && e.manifests == manifests && e.epoch == w.epoch
         && GetBaseHash(w, s, n) == Ok(e.base)
  {
  }

  lemma NewEntryDescribes(w: World, s: State, n: Name, lts: seq<LayerType>, emitted: Emitted, from: map<Name, Option<Fs>>)
    requires Ranked(w) && |lts| > 0 && n in w.layers && n in s.imported && Coherent(s)
    requires Rebuild(w, s, n, lts, emitted).Ok? && ImportAll(w, from, w.layers[n].imports).Ok?
    requires s.imported[n] == ImportAll(w, from, w.layers[n].imports).value
    ensures var s' := Rebuild(w, s, n, lts, emitted).value;
      && n in s'.cache && n in s'.roots
      && (s'.roots[n].Some? && EntryTracked(s'.cache[n]) ==> FsOf(s'.cache[n]) == Ok(s'.roots[n].value))
  {
    var l := w.layers[n];
    RebuildIs(w, s, n, lts, emitted);
    var fs := BuildFs(w, s.roots - {n}, l, s.imported[n]).value;
    var r := Ran(w, s, n, fs, lts, emitted);
    RanAt(w, s, n, fs, lts, emitted);
    var manifests := ManifestsFor(w, n, fs, lts, emitted);
    PutEntry(w, r, n, manifests);
    var e := Put(w, r, n, manifests).value.cache[n];
    if fs.Some? && EntryTracked(e) {
      if l.from.Built? {
        LookupBelow(w, s, r, l.from.tag, n);
        BaseDescribed(w, s, l);
      }
      PutDescribes(w, r, n, manifests, from, s.roots - {n});
    }
  }

  lemma RebuildShape(w: World, s: State, n: Name, lts: seq<LayerType>, emitted: Emitted)
    requires Ranked(w) && |lts| > 0 && n in w.layers && n in s.imported && Rebuild(w, s, n, lts, emitted).Ok?
    ensures var s' := Rebuild(w, s, n, lts, emitted).value;
      && n in s'.cache && s'.cache == s.cache[n := s'.cache[n]] && s'.cache[n].name == n && s'.cache[n].layer == w.layers[n]
      && n in s'.roots && s'.roots == s.roots[n := s'.roots[n]] && s'.imported == s.imported
      && s'.overlaid == s.overlaid[n := OverlayDirSet(w.layers[n].overlayDirs)]
      && BuildFs(w, s.roots - {n}, w.layers[n], s.imported[n]) == Ok(s'.roots[n])
      && (forall ref <- s.images :: ref.name != n ==> ref in s'.images && s'.images[ref] == s.images[ref])
      && s.blobs <= s'.blobs
      && (!w.layers[n].buildOnly ==>
            && s'.cache[n].manifests == NewManifests(n, s'.roots[n], lts, emitted)
            && forall lt <- s'.cache[n].manifests ::
                 Ref(n, lt) in s'.images && s'.images[Ref(n, lt)] == s'.cache[n].manifests[lt] && s'.cache[n].manifests[lt] in s'.blobs)
  {
    RebuildIs(w, s, n, lts, emitted);
    var fs := BuildFs(w, s.roots - {n}, w.layers[n], s.imported[n]).value;
    RanAt(w, s, n, fs, lts, emitted);
    PutEntry(w, Ran(w, s, n, fs, lts, emitted), n, ManifestsFor(w, n, fs, lts, emitted));
  }

  lemma RebuildKeeps(w: World, s: State, n: Name, lts: seq<LayerType>, emitted: Emitted, from: map<Name, Option<Fs>>)
    requires Ranked(w) && |lts| > 0 && n in w.layers && n in s.imported && Coherent(s)
    requires Rebuild(w, s, n, lts, emitted).Ok? && ImportAll(w, from, w.layers[n].imports).Ok?
    requires s.imported[n] == ImportAll(w, from, w.layers[n].imports).value
    ensures Coherent(Rebuild(w, s, n, lts, emitted).value)
  {
    NewEntryDescribes(w, s, n, lts, emitted, from);
    RebuildShape(w, s, n, lts, emitted);
    var s' := Rebuild(w, s, n, lts, emitted).value;
    forall m | m in s'.cache ensures EntryOk(s', m) {
      if m != n {
        assert EntryOk(s, m);
      }
    }
  }

  lemma StartKeeps(w: World, s: State, n: Name)
    requires Coherent(s) && StartLayer(w, s, n).Ok?
    ensures Coherent(StartLayer(w, s, n).value)
  {
    var s' := StartLayer(w, s, n).value;
    forall m | m in s'.cache ensures EntryOk(s', m) {
      assert EntryOk(s, m);
    }
  }

  lemma ProcessKeeps(w: World, s: State, n: Name, lts: seq<LayerType>, emitted: Emitted)
    requires Ranked(w) && |lts| > 0 && Coherent(s) && Process(w, s, n, lts, emitted).Ok?
    ensures Coherent(Process(w, s, n, lts, emitted).value)
  {
    StartKeeps(w, s, n);
    var started := StartLayer(w, s, n).value;
    var hit := LookupEntry(w, started, n);
    if hit.Miss? || (hit.Hit? && w.layers[n].binds != []) {
      RebuildKeeps(w, started, n, lts, emitted, s.roots);
    } else {
      HitMeansCached(w, started, n);
      UseCachedKeeps(started, n, lts);
      if !HasAllTypes(hit.entry, lts) {
        RebuildKeeps(w, UseCached(started, n, hit.entry, lts), n, lts, emitted, s.roots);
      }
    }
  }

  /** Whatever runs, failures, collections and reopenings came before, the state is coherent. */
  lemma {:induction false} PastIsCoherent(events: seq<Event>)
    requires Past(events).Ok?
    ensures Coherent(Past(events).value)
  {
    if events != [] {
      PastIsCoherent(events[..|events| - 1]);
      var s, e := Past(events[..|events| - 1]).value, events[|events| - 1];
      match e {
        case LayerTurn(w, n, lts, emitted) => ProcessKeeps(w, s, n, lts, emitted);
        case Failure(n, left) => FailKeeps(s, n, left);
        case Collect => CollectKeeps(s);
        case Reopen => ReopenKeeps(s);
      }
    }
  }

  // ----- one run -----

  /** Everything a layer refers to among the given layers. */
  ghost predicate DependsOnlyOn(w: World, n: Name, done: seq<Name>)
    requires n in w.layers
  {
    && (w.layers[n].from.Built? ==> w.layers[n].from.tag in done)
    && forall imp <- w.layers[n].imports :: imp.location.Stacker? ==> imp.location.host in done
  }

  /** An order in which every base and every `stacker://` host comes before the layer that uses it. */
  ghost predicate Ordered(w: World, order: seq<Name>) {
    order != [] ==>
      var before, n := order[..|order| - 1], order[|order| - 1];
      Ordered(w, before) && n in w.layers && n !in before && DependsOnlyOn(w, n, before)
  }

  ghost predicate AllTracked(w: World, order: seq<Name>) {
    forall m <- order :: m in w.layers && Tracked(w.layers[m])
  }

  lemma HitTrackedIn(w: World, s: State, done: seq<Name>, n: Name)
    requires Ranked(w) && Ordered(w, done) && AllTracked(w, done) && LookupEntry(w, s, n).Hit?
    requires n in w.layers && Tracked(w.layers[n]) && DependsOnlyOn(w, n, done)
    ensures EntryTracked(LookupEntry(w, s, n).entry)
  {
    OrderedClosed(w, done);
    HitTracked(w, s, n, (set m | m in done) + {n});
  }

  lemma {:induction false} OrderedClosed(w: World, order: seq<Name>)
    requires Ordered(w, order)
    ensures forall m <- order :: m in w.layers && (w.layers[m].from.Built? ==> w.layers[m].from.tag in order)
  {
    if order != [] {
      OrderedClosed(w, order[..|order| - 1]);
      assert order == order[..|order| - 1] + [order[|order| - 1]];
    }
  }

  /** The layer is built: its lookup hits, and its root and images are what a fresh build gives. */
  ghost predicate Settled(w: World, s: State, ideal: map<Name, Option<Fs>>, m: Name, lts: seq<LayerType>)
    requires Ranked(w)
  {
    && m in w.layers && m in s.cache && LookupEntry(w, s, m) == Hit(s.cache[m]) && HasAllTypes(s.cache[m], lts)
    && m in ideal && ideal[m].Some? && FsOf(s.cache[m]) == Ok(ideal[m].value)
    && m in s.roots && s.roots[m] == ideal[m]
    && (!w.layers[m].buildOnly ==> forall lt <- lts :: Ref(m, lt) in s.images && s.images[Ref(m, lt)].fs == ideal[m])
  }

  ghost predicate RunInv(w: World, s: State, done: seq<Name>, lts: seq<LayerType>)
    requires Ranked(w)
  {
    && Coherent(s) && Ordered(w, done) && AllTracked(w, done) && FreshRun(w, done).Ok?
    && forall m {:trigger Settled(w, s, FreshRun(w, done).value, m, lts)} | m in done ::
         Settled(w, s, FreshRun(w, done).value, m, lts)
  }

  lemma {:induction false} ImportAgree(w: World, a: map<Name, Option<Fs>>, b: map<Name, Option<Fs>>, imports: seq<Import>)
    requires forall imp <- imports :: imp.location.Stacker? ==>
      imp.location.host in a && imp.location.host in b && a[imp.location.host] == b[imp.location.host]
    ensures ImportAll(w, a, imports) == ImportAll(w, b, imports)
  {
    if imports != [] {
      assert imports[|imports| - 1] in imports;
      ImportAgree(w, a, b, imports[..|imports| - 1]);
    }
  }

  lemma BuildAgree(w: World, a: map<Name, Option<Fs>>, b: map<Name, Option<Fs>>, l: Layer, imported: map<string, Content>)
    requires Tracked(l)
    requires l.from.Built? ==> l.from.tag in a && l.from.tag in b && a[l.from.tag] == b[l.from.tag]
    ensures BuildFs(w, a, l, imported) == BuildFs(w, b, l, imported)
  {
    NothingUnseen(w, a, l);
    NothingUnseen(w, b, l);
  }

  /** Right after Put the layer's own lookup hits. */
  lemma PutThenHit(w: World, s: State, n: Name, manifests: map<LayerType, Blob>)
    requires Ranked(w) && Put(w, s, n, manifests).Ok?
    requires n in w.layers && n in s.imported && n in s.overlaid && s.overlaid[n] == OverlayDirSet(w.layers[n].overlayDirs)
    ensures var s' := Put(w, s, n, manifests).value; n in s'.cache && LookupEntry(w, s', n) == Hit(s'.cache[n])
  {
    var l, s' := w.layers[n], Put(w, s, n, manifests).value;
    var e := s'.cache[n];
    if l.from.Built? {
      LookupBelow(w, s, s', l.from.tag, n);
    }
    assert GetBaseHash(w, s', n) == Ok(e.base);
    RecordedAre(s, n, l.imports);
    RecordedOverlays(w, l.overlayDirs);
    RecordedCheck(w, s', e, n, l.overlayDirs);
  }

  lemma RebuiltHits(w: World, s: State, n: Name, lts: seq<LayerType>, emitted: Emitted)
    requires Ranked(w) && |lts| > 0 && n in w.layers && n in s.imported && Rebuild(w, s, n, lts, emitted).Ok?
    ensures var s' := Rebuild(w, s, n, lts, emitted).value; n in s'.cache && LookupEntry(w, s', n) == Hit(s'.cache[n])
  {
    RebuildIs(w, s, n, lts, emitted);
    var fs := BuildFs(w, s.roots - {n}, w.layers[n], s.imported[n]).value;
    RanAt(w, s, n, fs, lts, emitted);
    PutThenHit(w, Ran(w, s, n, fs, lts, emitted), n, ManifestsFor(w, n, fs, lts, emitted));
  }

  /** A later layer's turn leaves the earlier ones built. */
  lemma SettledStays(w: World, s: State, s': State, done: seq<Name>, n: Name, ideal: map<Name, Option<Fs>>, ideal': map<Name, Option<Fs>>, m: Name, lts: seq<LayerType>)
    requires Ranked(w) && Ordered(w, done) && n !in done && m in done
    requires Settled(w, s, ideal, m, lts)
    requires forall k :: k != n ==> SameFor(s, s', k)
    requires m in s'.roots && s'.roots[m] == s.roots[m] && m in ideal' && ideal'[m] == ideal[m]
    requires forall ref <- s.images :: ref.name != n ==> ref in s'.images && s'.images[ref] == s.images[ref]
    ensures Settled(w, s', ideal', m, lts)
  {
    OrderedClosed(w, done);
    assert SameFor(s, s', m);
    LookupLocal(w, s, s', m, (k: Name) => k in done);
  }

  /** The state in which the layer is looked up. */
  lemma StartedOk(w: World, s: State, done: seq<Name>, n: Name, lts: seq<LayerType>)
    requires Ranked(w) && RunInv(w, s, done, lts) && Ordered(w, done + [n])
    requires StartLayer(w, s, n).Ok?
    ensures var started, ideal := StartLayer(w, s, n).value, FreshRun(w, done).value;
      && n in w.layers && n !in done && DependsOnlyOn(w, n, done)
      && n in started.imported && ImportAll(w, s.roots, w.layers[n].imports) == Ok(started.imported[n])
      && ImportAll(w, ideal, w.layers[n].imports) == Ok(started.imported[n])
      && started == s.(imported := started.imported)
      && RunInv(w, started, done, lts)
  {
    assert (done + [n])[..|done|] == done;
    var started, ideal := StartLayer(w, s, n).value, FreshRun(w, done).value;
    forall imp <- w.layers[n].imports | imp.location.Stacker? ensures
      imp.location.host in s.roots && imp.location.host in ideal && s.roots[imp.location.host] == ideal[imp.location.host]
    {
      assert Settled(w, s, ideal, imp.location.host, lts);
    }
    ImportAgree(w, s.roots, ideal, w.layers[n].imports);
    StartKeeps(w, s, n);
    forall m | m in done ensures Settled(w, started, ideal, m, lts) {
      assert Settled(w, s, ideal, m, lts);
      SettledStays(w, s, started, done, n, ideal, ideal, m, lts);
    }
  }

  lemma FreshStep(w: World, done: seq<Name>, n: Name, fs: Fs)
    requires FreshRun(w, done).Ok? && n in w.layers
    requires var ideal := FreshRun(w, done).value;
      && ImportAll(w, ideal, w.layers[n].imports).Ok?
      && BuildFs(w, ideal, w.layers[n], ImportAll(w, ideal, w.layers[n].imports).value) == Ok(Some(fs))
    ensures FreshRun(w, done + [n]) == Ok(FreshRun(w, done).value[n := Some(fs)])
  {
    assert (done + [n])[..|done|] == done;
  }

  lemma ExtendRun(w: World, s: State, s': State, done: seq<Name>, n: Name, fs: Fs, lts: seq<LayerType>)
    requires Ranked(w) && RunInv(w, s, done, lts) && Ordered(w, done + [n]) && n !in done && Coherent(s')
    requires n in w.layers && Tracked(w.layers[n])
    requires FreshRun(w, done + [n]) == Ok(FreshRun(w, done).value[n := Some(fs)])
    requires forall k :: k != n ==> SameFor(s, s', k)
    requires forall k <- s.roots :: k != n ==> k in s'.roots && s'.roots[k] == s.roots[k]
    requires forall ref <- s.images :: ref.name != n ==> ref in s'.images && s'.images[ref] == s.images[ref]
    requires Settled(w, s', FreshRun(w, done + [n]).value, n, lts)
    ensures RunInv(w, s', done + [n], lts)
  {
    var ideal, ideal' := FreshRun(w, done).value, FreshRun(w, done + [n]).value;
    forall m | m in done + [n] ensures Settled(w, s', ideal', m, lts) {
      if m != n {
        assert Settled(w, s, ideal, m, lts);
        SettledStays(w, s, s', done, n, ideal, ideal', m, lts);
      }
    }
  }

  lemma BuildSucceeds(w: World, roots: map<Name, Option<Fs>>, l: Layer, imported: map<string, Content>)
    requires BuildFs(w, roots, l, imported).Ok?
    requires l.from.Built? ==> l.from.tag in roots && roots[l.from.tag].Some?
    ensures BuildFs(w, roots, l, imported).value.Some?
  {
  }

  lemma RebuiltIsFresh(w: World, s: State, done: seq<Name>, n: Name, lts: seq<LayerType>, emitted: Emitted)
    requires Ranked(w) && |lts| > 0 && RunInv(w, s, done, lts)
    requires n in w.layers && Tracked(w.layers[n]) && n !in done && DependsOnlyOn(w, n, done) && n in s.imported
    requires ImportAll(w, FreshRun(w, done).value, w.layers[n].imports) == Ok(s.imported[n])
    requires Rebuild(w, s, n, lts, emitted).Ok?
    ensures var s' := Rebuild(w, s, n, lts, emitted).value;
      n in s'.roots && s'.roots[n].Some? && FreshRun(w, done + [n]) == Ok(FreshRun(w, done).value[n := s'.roots[n]])
  {
    var l, ideal := w.layers[n], FreshRun(w, done).value;
    RebuildShape(w, s, n, lts, emitted);
    if l.from.Built? {
      assert Settled(w, s, ideal, l.from.tag, lts);
    }
    BuildAgree(w, s.roots - {n}, ideal, l, s.imported[n]);
    BuildSucceeds(w, s.roots - {n}, l, s.imported[n]);
    FreshStep(w, done, n, Rebuild(w, s, n, lts, emitted).value.roots[n].value);
  }

  lemma RebuildStep(w: World, s: State, done: seq<Name>, n: Name, lts: seq<LayerType>, emitted: Emitted, from: map<Name, Option<Fs>>)
    requires Ranked(w) && |lts| > 0 && RunInv(w, s, done, lts) && Ordered(w, done + [n])
    requires n in w.layers && Tracked(w.layers[n]) && n !in done && DependsOnlyOn(w, n, done) && n in s.imported
    requires ImportAll(w, from, w.layers[n].imports) == Ok(s.imported[n])
    requires ImportAll(w, FreshRun(w, done).value, w.layers[n].imports) == Ok(s.imported[n])
    requires Rebuild(w, s, n, lts, emitted).Ok?
    ensures RunInv(w, Rebuild(w, s, n, lts, emitted).value, done + [n], lts)
  {
    var s' := Rebuild(w, s, n, lts, emitted).value;
    RebuiltIsFresh(w, s, done, n, lts, emitted);
    RebuildShape(w, s, n, lts, emitted);
    RebuildKeeps(w, s, n, lts, emitted, from);
    RebuiltHits(w, s, n, lts, emitted);
    HitTrackedIn(w, s', done, n);
    NewEntryDescribes(w, s, n, lts, emitted, from);
    ExtendRun(w, s, s', done, n, s'.roots[n].value, lts);
  }

  lemma UsedImages(s: State, n: Name, lts: seq<LayerType>)
    requires n in s.cache && EntryOk(s, n) && s.roots[n].Some? && HasAllTypes(s.cache[n], lts)
    ensures var s' := UseCached(s, n, s.cache[n], lts);
      && (!s.cache[n].layer.buildOnly ==> forall lt <- lts :: Ref(n, lt) in s'.images && s'.images[Ref(n, lt)].fs == s.roots[n])
      && forall ref <- s.images :: ref.name != n ==> ref in s'.images && s'.images[ref] == s.images[ref]
  {
    var e := s.cache[n];
    if !e.layer.buildOnly {
      SetImagesAt(s, n, map lt | lt in lts && lt in e.manifests :: e.manifests[lt]);
    }
  }

  lemma UsedRun(w: World, s: State, done: seq<Name>, n: Name, lts: seq<LayerType>)
    requires Ranked(w) && RunInv(w, s, done, lts) && n in s.cache && n !in done
    ensures RunInv(w, UseCached(s, n, s.cache[n], lts), done, lts)
  {
    var s', ideal := UseCached(s, n, s.cache[n], lts), FreshRun(w, done).value;
    UseCachedKeeps(s, n, lts);
    UsedElsewhere(s, n, lts);
    forall m | m in done ensures Settled(w, s', ideal, m, lts) {
      assert Settled(w, s, ideal, m, lts);
      SettledStays(w, s, s', done, n, ideal, ideal, m, lts);
    }
  }

  lemma UsedElsewhere(s: State, n: Name, lts: seq<LayerType>)
    requires n in s.cache
    ensures var s' := UseCached(s, n, s.cache[n], lts);
      forall ref <- s.images :: ref.name != n ==> ref in s'.images && s'.images[ref] == s.images[ref]
  {
    var e := s.cache[n];
    if !e.layer.buildOnly {
      SetImagesAt(s, n, map lt | lt in lts && lt in e.manifests :: e.manifests[lt]);
    }
  }

  /** The root of a layer that hits is what a clean build of it gives. */
  lemma HitIsFresh(w: World, s: State, done: seq<Name>, n: Name, lts: seq<LayerType>, from: map<Name, Option<Fs>>)
    requires Ranked(w) && RunInv(w, s, done, lts)
    requires n in w.layers && Tracked(w.layers[n]) && DependsOnlyOn(w, n, done) && n in s.imported
    requires ImportAll(w, from, w.layers[n].imports) == Ok(s.imported[n])
    requires ImportAll(w, FreshRun(w, done).value, w.layers[n].imports) == Ok(s.imported[n])
    requires LookupEntry(w, s, n).Hit? && n in s.roots && s.roots[n].Some?
    ensures n in s.cache && LookupEntry(w, s, n) == Hit(s.cache[n]) && w.layers[n] == s.cache[n].layer
    ensures FsOf(s.cache[n]) == Ok(s.roots[n].value)
    ensures FreshRun(w, done + [n]) == Ok(FreshRun(w, done).value[n := s.roots[n]])
  {
    var l, ideal := w.layers[n], FreshRun(w, done).value;
    HitMeans(w, s, n);
    HitTrackedIn(w, s, done, n);
    assert EntryOk(s, n);
    if l.from.Built? {
      assert Settled(w, s, ideal, l.from.tag, lts);
    }
    HitDescribesBuild(w, s, n, from, ideal);
    FreshStep(w, done, n, s.roots[n].value);
  }

  /** Using the entry settles the layer. */
  lemma UsedSettled(w: World, s: State, ideal: map<Name, Option<Fs>>, n: Name, lts: seq<LayerType>)
    requires Ranked(w) && Coherent(s) && n in w.layers && n in s.cache && LookupEntry(w, s, n) == Hit(s.cache[n])
    requires w.layers[n] == s.cache[n].layer && HasAllTypes(s.cache[n], lts)
    requires n in s.roots && s.roots[n].Some? && FsOf(s.cache[n]) == Ok(s.roots[n].value)
    requires n in ideal && ideal[n] == s.roots[n]
    ensures Settled(w, UseCached(s, n, s.cache[n], lts), ideal, n, lts)
  {
    assert EntryOk(s, n);
    UseCachedKeeps(s, n, lts);
    UsedImages(s, n, lts);
    LookupLocal(w, s, UseCached(s, n, s.cache[n], lts), n, (k: Name) => true);
  }

  lemma UsedExtends(w: World, s: State, done: seq<Name>, n: Name, lts: seq<LayerType>)
    requires Ranked(w) && RunInv(w, s, done, lts) && Ordered(w, done + [n]) && n !in done
    requires n in w.layers && Tracked(w.layers[n])
    requires n in s.cache && HasAllTypes(s.cache[n], lts) && n in s.roots && s.roots[n].Some?
    requires FreshRun(w, done + [n]) == Ok(FreshRun(w, done).value[n := s.roots[n]])
    requires Settled(w, UseCached(s, n, s.cache[n], lts), FreshRun(w, done + [n]).value, n, lts)
    ensures RunInv(w, UseCached(s, n, s.cache[n], lts), done + [n], lts)
  {
    UseCachedKeeps(s, n, lts);
    assert EntryOk(s, n);
    UsedImages(s, n, lts);
    ExtendRun(w, s, UseCached(s, n, s.cache[n], lts), done, n, s.roots[n].value, lts);
  }

  lemma HitStep(w: World, s: State, done: seq<Name>, n: Name, lts: seq<LayerType>, from: map<Name, Option<Fs>>)
    requires Ranked(w) && RunInv(w, s, done, lts) && Ordered(w, done + [n])
    requires n in w.layers && Tracked(w.layers[n]) && n !in done && DependsOnlyOn(w, n, done) && n in s.imported
    requires ImportAll(w, from, w.layers[n].imports) == Ok(s.imported[n])
    requires ImportAll(w, FreshRun(w, done).value, w.layers[n].imports) == Ok(s.imported[n])
    requires LookupEntry(w, s, n).Hit? && HasAllTypes(LookupEntry(w, s, n).entry, lts)
    requires n in s.roots && s.roots[n].Some?
    ensures RunInv(w, UseCached(s, n, LookupEntry(w, s, n).entry, lts), done + [n], lts)
  {
    HitIsFresh(w, s, done, n, lts, from);
    UsedSettled(w, s, FreshRun(w, done + [n]).value, n, lts);
    UsedExtends(w, s, done, n, lts);
  }

  /** The layer's root was not left broken by a failed build if its cache entry is going to be used. */
  ghost predicate HitIsWhole(w: World, s: State, n: Name)
    requires Ranked(w)
  {
    var started := StartLayer(w, s, n);
    started.Ok? && LookupEntry(w, started.value, n).Hit? ==> n in s.roots && s.roots[n].Some?
  }

  lemma ProcessStep(w: World, s: State, done: seq<Name>, n: Name, lts: seq<LayerType>, emitted: Emitted)
    requires Ranked(w) && |lts| > 0 && RunInv(w, s, done, lts) && Ordered(w, done + [n])
    requires n in w.layers && Tracked(w.layers[n])
    requires Process(w, s, n, lts, emitted).Ok? && HitIsWhole(w, s, n)
    ensures RunInv(w, Process(w, s, n, lts, emitted).value, done + [n], lts)
  {
    StartedOk(w, s, done, n, lts);
    var started := StartLayer(w, s, n).value;
    var hit := LookupEntry(w, started, n);
    if hit.Miss? {
      RebuildStep(w, started, done, n, lts, emitted, s.roots);
    } else {
      HitMeansCached(w, started, n);
      if HasAllTypes(hit.entry, lts) {
        HitStep(w, started, done, n, lts, s.roots);
      } else {
        UsedRun(w, started, done, n, lts);
        UseCachedKeeps(started, n, lts);
        RebuildStep(w, UseCached(started, n, hit.entry, lts), done, n, lts, emitted, s.roots);
      }
    }
  }

  /** Every hit of the run is on a layer whose root is whole. */
  ghost predicate HitsAreWhole(w: World, s: State, order: seq<Name>, lts: seq<LayerType>, emitted: Emitted)
    requires Ranked(w) && |lts| > 0
  {
    order != [] ==>
      && HitsAreWhole(w, s, order[..|order| - 1], lts, emitted)
      && var before := RunLayers(w, s, order[..|order| - 1], lts, emitted);
         (before.Ok? ==> HitIsWhole(w, before.value, order[|order| - 1]))
  }

  lemma {:induction false} OrderedPrefix(w: World, a: seq<Name>, b: seq<Name>)
    requires Ordered(w, a + b)
    ensures Ordered(w, a)
  {
    if b == [] {
      assert a + b == a;
    } else {
      assert (a + b)[..|a + b| - 1] == a + b[..|b| - 1];
      OrderedPrefix(w, a, b[..|b| - 1]);
    }
  }

  lemma OrderedLast(w: World, done: seq<Name>, order: seq<Name>)
    requires order != [] && Ordered(w, done + order)
    ensures var most := done + order[..|order| - 1];
      && most + [order[|order| - 1]] == done + order && Ordered(w, most)
      && order[|order| - 1] in w.layers && order[|order| - 1] !in most
  {
    var most, n := done + order[..|order| - 1], order[|order| - 1];
    assert most + [n] == done + order;
    OrderedPrefix(w, most, [n]);
  }

  lemma RunLast(w: World, s: State, order: seq<Name>, lts: seq<LayerType>, emitted: Emitted)
    requires Ranked(w) && |lts| > 0 && order != [] && RunLayers(w, s, order, lts, emitted).Ok?
    ensures var before := RunLayers(w, s, order[..|order| - 1], lts, emitted);
      && before.Ok? && Process(w, before.value, order[|order| - 1], lts, emitted) == RunLayers(w, s, order, lts, emitted)
      && (HitsAreWhole(w, s, order, lts, emitted) ==>
            HitsAreWhole(w, s, order[..|order| - 1], lts, emitted) && HitIsWhole(w, before.value, order[|order| - 1]))
  {
  }

  // ----- layers the cache does not track -----

  /** The layers of the run that the cache tracks, together with everything they are built from. */
  ghost function Kept(w: World, order: seq<Name>): seq<Name> {
    if order == [] then []
    else
      var before, n := Kept(w, order[..|order| - 1]), order[|order| - 1];
      if n in w.layers && Tracked(w.layers[n]) && DependsOnlyOn(w, n, before) then before + [n] else before
  }

  lemma {:induction false} KeptIn(w: World, order: seq<Name>)
    ensures forall m <- Kept(w, order) :: m in order
  {
    if order != [] {
      KeptIn(w, order[..|order| - 1]);
    }
  }

  lemma KeptNext(w: World, before: seq<Name>, n: Name)
    requires n !in before && n in w.layers
    ensures var k, k' := Kept(w, before), Kept(w, before + [n]);
      && n !in k
      && (k' == k || (k' == k + [n] && Tracked(w.layers[n]) && DependsOnlyOn(w, n, k)))
      && (Ordered(w, k) ==> Ordered(w, k'))
  {
    assert (before + [n])[..|before|] == before;
    KeptIn(w, before);
    var k := Kept(w, before);
    assert (k + [n])[..|k|] == k;
  }

  /** If all layers are tracked, all are kept. */
  lemma {:induction false} AllKept(w: World, order: seq<Name>)
    requires Ordered(w, order) && AllTracked(w, order)
    ensures Kept(w, order) == order
  {
    if order != [] {
      var before := order[..|order| - 1];
      assert order[|order| - 1] in order && forall m <- before :: m in order;
      AllKept(w, before);
      assert before + [order[|order| - 1]] == order;
    }
  }

  /** Everything about layers other than `n` is as before. */
  ghost predicate Elsewhere(s: State, s': State, n: Name) {
    && (forall k :: k != n ==> SameFor(s, s', k))
    && (forall k <- s.roots :: k != n ==> k in s'.roots && s'.roots[k] == s.roots[k])
    && (forall ref <- s.images :: ref.name != n ==> ref in s'.images && s'.images[ref] == s.images[ref])
  }

  lemma ElsewhereTwice(s: State, s': State, s'': State, n: Name)
    requires Elsewhere(s, s', n) && Elsewhere(s', s'', n)
    ensures Elsewhere(s, s'', n)
  {
    forall k | k != n ensures SameFor(s, s'', k) {
      assert SameFor(s, s', k) && SameFor(s', s'', k);
    }
  }

  lemma RebuildElsewhere(w: World, s: State, n: Name, lts: seq<LayerType>, emitted: Emitted)
    requires Ranked(w) && |lts| > 0 && n in w.layers && n in s.imported && Rebuild(w, s, n, lts, emitted).Ok?
    ensures Elsewhere(s, Rebuild(w, s, n, lts, emitted).value, n)
  {
    RebuildShape(w, s, n, lts, emitted);
  }

  /** The ways a turn can go. */
  lemma ProcessIs(w: World, s: State, n: Name, lts: seq<LayerType>, emitted: Emitted)
    requires Ranked(w) && |lts| > 0 && Process(w, s, n, lts, emitted).Ok?
    ensures StartLayer(w, s, n).Ok? && n in w.layers
    ensures var started := StartLayer(w, s, n).value;
      var hit := LookupEntry(w, started, n);
      && n in started.imported
      && if hit.Miss? || (hit.Hit? && w.layers[n].binds != []) then
           Process(w, s, n, lts, emitted) == Rebuild(w, started, n, lts, emitted)
         else
           && hit.Hit?
           && var used := UseCached(started, n, hit.entry, lts);
              && used.imported == started.imported
              && Process(w, s, n, lts, emitted) == if HasAllTypes(hit.entry, lts) then Ok(used) else Rebuild(w, used, n, lts, emitted)
  {
  }

  lemma StartElsewhere(w: World, s: State, n: Name)
    requires StartLayer(w, s, n).Ok?
    ensures Elsewhere(s, StartLayer(w, s, n).value, n)
  {
  }

  lemma UseElsewhere(s: State, n: Name, lts: seq<LayerType>)
    requires n in s.cache
    ensures Elsewhere(s, UseCached(s, n, s.cache[n], lts), n)
  {
    UsedElsewhere(s, n, lts);
  }

  lemma ProcessElsewhere(w: World, s: State, n: Name, lts: seq<LayerType>, emitted: Emitted)
    requires Ranked(w) && |lts| > 0 && Process(w, s, n, lts, emitted).Ok?
    ensures Elsewhere(s, Process(w, s, n, lts, emitted).value, n)
  {
    ProcessIs(w, s, n, lts, emitted);
    var started, s' := StartLayer(w, s, n).value, Process(w, s, n, lts, emitted).value;
    var hit := LookupEntry(w, started, n);
    StartElsewhere(w, s, n);
    if hit.Miss? || w.layers[n].binds != [] {
      RebuildElsewhere(w, started, n, lts, emitted);
    } else {
      HitMeansCached(w, started, n);
      var used := UseCached(started, n, hit.entry, lts);
      UseElsewhere(started, n, lts);
      if !HasAllTypes(hit.entry, lts) {
        RebuildElsewhere(w, used, n, lts, emitted);
        ElsewhereTwice(started, used, s', n);
      }
    }
    ElsewhereTwice(s, started, s', n);
  }

  /** Whatever the world is that the other layer's turn sees. */
  lemma BystanderStep(w: World, s: State, done: seq<Name>, w': World, n: Name, lts: seq<LayerType>, emitted: Emitted)
    requires Ranked(w) && Ranked(w') && |lts| > 0 && RunInv(w, s, done, lts) && n !in done
    requires Process(w', s, n, lts, emitted).Ok?
    ensures RunInv(w, Process(w', s, n, lts, emitted).value, done, lts)
  {
    var s', ideal := Process(w', s, n, lts, emitted).value, FreshRun(w, done).value;
    ProcessKeeps(w', s, n, lts, emitted);
    ProcessElsewhere(w', s, n, lts, emitted);
    forall m | m in done ensures Settled(w, s', ideal, m, lts) {
      assert Settled(w, s, ideal, m, lts);
      SettledStays(w, s, s', done, n, ideal, ideal, m, lts);
    }
  }

  lemma TurnStep(w: World, s: State, before: seq<Name>, n: Name, lts: seq<LayerType>, emitted: Emitted)
    requires Ranked(w) && |lts| > 0 && RunInv(w, s, Kept(w, before), lts) && n !in before && n in w.layers
    requires Process(w, s, n, lts, emitted).Ok? && HitIsWhole(w, s, n)
    ensures RunInv(w, Process(w, s, n, lts, emitted).value, Kept(w, before + [n]), lts)
  {
    KeptNext(w, before, n);
    if Kept(w, before + [n]) == Kept(w, before) {
      BystanderStep(w, s, Kept(w, before), w, n, lts, emitted);
    } else {
      ProcessStep(w, s, Kept(w, before), n, lts, emitted);
    }
  }

  lemma {:induction false} LayersStep(w: World, s: State, done: seq<Name>, order: seq<Name>, lts: seq<LayerType>, emitted: Emitted)
    requires Ranked(w) && |lts| > 0 && RunInv(w, s, Kept(w, done), lts) && Ordered(w, done + order)
    requires RunLayers(w, s, order, lts, emitted).Ok? && HitsAreWhole(w, s, order, lts, emitted)
    ensures RunInv(w, RunLayers(w, s, order, lts, emitted).value, Kept(w, done + order), lts)
  {
    if order == [] {
      assert done + order == done;
    } else {
      var before, n := order[..|order| - 1], order[|order| - 1];
      OrderedLast(w, done, order);
      RunLast(w, s, order, lts, emitted);
      LayersStep(w, s, done, before, lts, emitted);
      TurnStep(w, RunLayers(w, s, before, lts, emitted).value, done + before, n, lts, emitted);
    }
  }

  // ----- reopening the cache between files -----

  /** Entries of layers already built survive: garbage collection keeps their images, and
      reopening keeps their entries. */
  lemma CollectRun(w: World, s: State, done: seq<Name>, lts: seq<LayerType>)
    requires Ranked(w) && RunInv(w, s, done, lts)
    ensures RunInv(w, CollectGarbage(s), done, lts)
  {
    var s', ideal := CollectGarbage(s), FreshRun(w, done).value;
    CollectKeeps(s);
    forall m | m in done ensures Settled(w, s', ideal, m, lts) {
      assert Settled(w, s, ideal, m, lts);
      LookupLocal(w, s, s', m, (k: Name) => true);
    }
  }

  lemma SettledSurvives(w: World, s: State, ideal: map<Name, Option<Fs>>, m: Name, lts: seq<LayerType>)
    requires Ranked(w) && Coherent(s) && Settled(w, s, ideal, m, lts)
    ensures Survives(s, s.cache[m])
  {
    assert EntryOk(s, m);
  }

  lemma ReopenRun(w: World, s: State, done: seq<Name>, lts: seq<LayerType>)
    requires Ranked(w) && RunInv(w, s, done, lts)
    ensures RunInv(w, OpenCache(s), done, lts)
  {
    var s', ideal := OpenCache(s), FreshRun(w, done).value;
    ReopenKeeps(s);
    OrderedClosed(w, done);
    forall m | m in done ensures SameFor(s, s', m) {
      assert Settled(w, s, ideal, m, lts);
      SettledSurvives(w, s, ideal, m, lts);
    }
    forall m | m in done ensures Settled(w, s', ideal, m, lts) {
      assert Settled(w, s, ideal, m, lts);
      LookupLocal(w, s, s', m, (k: Name) => k in done);
    }
  }

  ghost predicate FilesAreWhole(w: World, s: State, files: seq<seq<Name>>, lts: seq<LayerType>, emitted: Emitted)
    requires Ranked(w) && |lts| > 0
  {
    files != [] ==>
      && FilesAreWhole(w, s, files[..|files| - 1], lts, emitted)
      && var before := RunFiles(w, s, files[..|files| - 1], lts, emitted);
         (before.Ok? ==> HitsAreWhole(w, OpenCache(before.value), files[|files| - 1], lts, emitted))
  }

  lemma {:induction false} FilesStep(w: World, s: State, files: seq<seq<Name>>, lts: seq<LayerType>, emitted: Emitted)
    requires Ranked(w) && |lts| > 0 && Coherent(s) && Ordered(w, Concat(files))
    requires RunFiles(w, s, files, lts, emitted).Ok? && FilesAreWhole(w, s, files, lts, emitted)
    ensures RunInv(w, RunFiles(w, s, files, lts, emitted).value, Kept(w, Concat(files)), lts)
  {
    if files != [] {
      var before, file := files[..|files| - 1], files[|files| - 1];
      OrderedPrefix(w, Concat(before), file);
      FilesStep(w, s, before, lts, emitted);
      var s0 := RunFiles(w, s, before, lts, emitted).value;
      ReopenRun(w, s0, Kept(w, Concat(before)), lts);
      LayersStep(w, OpenCache(s0), Concat(before), file, lts, emitted);
      CollectRun(w, RunLayers(w, OpenCache(s0), file, lts, emitted).value, Kept(w, Concat(files)), lts);
    }
  }

  /** After any past - runs with any other definitions and files, failed builds, collections,
      pruned entries - a run over several files in dependency order leaves every layer that the
      cache tracks with a root filesystem and images made from exactly what a clean build makes
      them from, provided no hit is on a root that a failed build left broken.  What the store then
      holds for them is the subject of CachedStore.dfy. */
  lemma IncrementalEqualsClean(
      events: seq<Event>, w: World, files: seq<seq<Name>>, lts: seq<LayerType>, emitted: Emitted, n: Name)
    requires Past(events).Ok? && Ranked(w) && |lts| > 0 && Ordered(w, Concat(files))
    requires RunFiles(w, Past(events).value, files, lts, emitted).Ok?
    requires FilesAreWhole(w, Past(events).value, files, lts, emitted)
    requires n in Kept(w, Concat(files))
    ensures FreshRun(w, Kept(w, Concat(files))).Ok? && n in FreshRun(w, Kept(w, Concat(files))).value
    ensures var s, clean := RunFiles(w, Past(events).value, files, lts, emitted).value, FreshRun(w, Kept(w, Concat(files))).value;
      && n in s.roots && s.roots[n] == clean[n] && n in w.layers
      && (!w.layers[n].buildOnly ==> forall lt <- lts :: Ref(n, lt) in s.images && s.images[Ref(n, lt)].fs == clean[n])
  {
    PastIsCoherent(events);
    FilesStep(w, Past(events).value, files, lts, emitted);
    assert Settled(w, RunFiles(w, Past(events).value, files, lts, emitted).value, FreshRun(w, Kept(w, Concat(files))).value, n, lts);
  }

  /** In such a run every tracked layer already built still has a hitting entry, across files: the
      base of a later layer is never reported missing. */
  lemma BuiltLayersHit(
      events: seq<Event>, w: World, files: seq<seq<Name>>, more: seq<Name>, lts: seq<LayerType>, emitted: Emitted, n: Name)
    requires Past(events).Ok? && Ranked(w) && |lts| > 0 && Ordered(w, Concat(files) + more)
    requires RunFiles(w, Past(events).value, files, lts, emitted).Ok?
    requires FilesAreWhole(w, Past(events).value, files, lts, emitted)
    requires var s := OpenCache(RunFiles(w, Past(events).value, files, lts, emitted).value);
      RunLayers(w, s, more, lts, emitted).Ok? && HitsAreWhole(w, s, more, lts, emitted)
    requires n in Kept(w, Concat(files) + more)
    ensures var s := RunLayers(w, OpenCache(RunFiles(w, Past(events).value, files, lts, emitted).value), more, lts, emitted).value;
      n in s.cache && LookupEntry(w, s, n) == Hit(s.cache[n])
  {
    PastIsCoherent(events);
    OrderedPrefix(w, Concat(files), more);
    FilesStep(w, Past(events).value, files, lts, emitted);
    var s := RunFiles(w, Past(events).value, files, lts, emitted).value;
    ReopenRun(w, s, Kept(w, Concat(files)), lts);
    LayersStep(w, OpenCache(s), Concat(files), more, lts, emitted);
    var all := Kept(w, Concat(files) + more);
    assert Settled(w, RunLayers(w, OpenCache(s), more, lts, emitted).value, FreshRun(w, all).value, n, lts);
  }
}

/** What a cache entry records, and that what it records is what the layer was built from. */
module CacheProofs {
  import opened Wrappers
  import opened CacheModel

  // ----- what an entry says the layer was made from -----

  function NamedImports(recorded: map<Location, Content>, imports: seq<Import>): Result<map<string, Content>> {
    if imports == [] then Ok(map[])
    else
      var before :- NamedImports(recorded, imports[..|imports| - 1]);
      var imp := imports[|imports| - 1];
      if imp.copied then Ok(before)
      else if imp.location in recorded then Ok(before[Fname(imp.location) := recorded[imp.location]])
      else Err
  }

  /** The filesystem an entry describes, through the chain of entry hashes. */
  function FsOf(e: CacheEntry): Result<Fs> {
    var base :- BaseOf(e.base);
    var imports :- NamedImports(e.imports, e.layer.imports);
    var overlayDirs :- OverlayContents(e.overlayDirs, e.layer.overlayDirs);
    Ok(Fs(base, e.layer, imports, overlayDirs, e.epoch, []))
  }

  function BaseOf(b: BaseHash): Result<BaseFs> {
    match b
    case NoBase => Ok(Empty)
    case TarHash(hash) => Ok(Unpacked(hash))
    case ManifestHash(digest) => Ok(Pulled(digest))
    case EntryHash(entry) =>
      var fs :- FsOf(entry);
      Ok(On(fs))
  }

  /** Everything that reaches the layer is tracked by the cache. */
  predicate Tracked(l: Layer) {
    l.binds == [] && forall imp <- l.imports :: !imp.copied
  }

  predicate EntryTracked(e: CacheEntry) {
    Tracked(e.layer) && (e.base.EntryHash? ==> EntryTracked(e.base.entry))
  }

  /** Everything that reaches the layers of a set is tracked, and their bases are in the set. */
  predicate ClosedTracked(w: World, names: set<Name>) {
    forall n <- names :: n in w.layers && Tracked(w.layers[n]) && (w.layers[n].from.Built? ==> w.layers[n].from.tag in names)
  }

  // ----- imports -----

  lemma {:induction false} NothingUnseen(w: World, roots: map<Name, Option<Fs>>, l: Layer)
    requires Tracked(l)
    ensures Unseen(w, roots, l) == []
  {
    NoUnseenImports(w, roots, l.imports);
  }

  lemma {:induction false} NoUnseenImports(w: World, roots: map<Name, Option<Fs>>, imports: seq<Import>)
    requires forall imp <- imports :: !imp.copied
    ensures UnseenImports(w, roots, imports) == []
  {
    if imports != [] {
      assert imports[|imports| - 1] in imports;
      NoUnseenImports(w, roots, imports[..|imports| - 1]);
    }
  }

  ghost predicate Named(imports: seq<Import>, name: string) {
    exists imp <- imports :: !imp.copied && Fname(imp.location) == name
  }

  lemma NamedSplit(imports: seq<Import>, name: string)
    requires imports != []
    ensures var imp := imports[|imports| - 1];
      Named(imports, name) <==> Named(imports[..|imports| - 1], name) || (!imp.copied && Fname(imp.location) == name)
  {
    var before, imp := imports[..|imports| - 1], imports[|imports| - 1];
    assert imports == before + [imp];
    if Named(imports, name) {
      var i :| i in imports && !i.copied && Fname(i.location) == name;
      assert i in before || i == imp;
    }
  }

  /** After Import the imports directory holds exactly the tracked imports' base names. */
  lemma {:induction false} ImportedNames(w: World, roots: map<Name, Option<Fs>>, imports: seq<Import>)
    requires ImportAll(w, roots, imports).Ok?
    ensures forall name :: name in ImportAll(w, roots, imports).value <==> Named(imports, name)
  {
    if imports != [] {
      var before := imports[..|imports| - 1];
      ImportedNames(w, roots, before);
      forall name ensures name in ImportAll(w, roots, imports).value <==> Named(imports, name) {
        NamedSplit(imports, name);
      }
    }
  }

  /** An entry whose every recorded import equals what is on disk names exactly that directory. */
  lemma {:induction false} NamedAre(recorded: map<Location, Content>, imports: seq<Import>, disk: map<string, Content>)
    requires forall imp <- imports ::
      !imp.copied ==> imp.location in recorded && Fname(imp.location) in disk && recorded[imp.location] == disk[Fname(imp.location)]
    ensures var r := NamedImports(recorded, imports);
      && r.Ok?
      && (forall name :: name in r.value <==> Named(imports, name))
      && (forall name <- r.value :: name in disk && r.value[name] == disk[name])
  {
    if imports != [] {
      var before, imp := imports[..|imports| - 1], imports[|imports| - 1];
      assert imp in imports;
      NamedAre(recorded, before, disk);
      forall name ensures name in NamedImports(recorded, imports).value <==> Named(imports, name) {
        NamedSplit(imports, name);
      }
    }
  }

  lemma {:induction false} RecordedAre(s: State, n: Name, imports: seq<Import>)
    requires RecordImports(s, n, imports).Ok?
    ensures var r := RecordImports(s, n, imports).value;
      && (forall imp <- imports :: !imp.copied ==> n in s.imported && imp.location in r)
      && (forall loc <- r :: n in s.imported && Fname(loc) in s.imported[n] && r[loc] == s.imported[n][Fname(loc)])
  {
    if imports != [] {
      var before, imp := imports[..|imports| - 1], imports[|imports| - 1];
      RecordedAre(s, n, before);
      assert imports == before + [imp];
    }
  }

  lemma SameDirectory(w: World, roots: map<Name, Option<Fs>>, recorded: map<Location, Content>, imports: seq<Import>)
    requires ImportAll(w, roots, imports).Ok?
    requires var disk := ImportAll(w, roots, imports).value;
      forall imp <- imports ::
        !imp.copied ==> imp.location in recorded && Fname(imp.location) in disk && recorded[imp.location] == disk[Fname(imp.location)]
    ensures NamedImports(recorded, imports) == ImportAll(w, roots, imports)
  {
    var disk := ImportAll(w, roots, imports).value;
    ImportedNames(w, roots, imports);
    NamedAre(recorded, imports, disk);
    assert NamedImports(recorded, imports).value == disk;
  }

  // ----- overlay dirs -----

  lemma {:induction false} SameOverlays(w: World, s: State, e: CacheEntry, n: Name, ods: seq<OverlayDir>)
    requires CheckOverlays(w, s, e, n, ods).Same?
    ensures OverlayContents(e.overlayDirs, ods) == OverlayContents(w.dirs, ods)
    ensures OverlayContents(e.overlayDirs, ods).Ok?
  {
    if ods != [] {
      SameOverlays(w, s, e, n, ods[..|ods| - 1]);
    }
  }

  lemma {:induction false} RecordedOverlays(w: World, ods: seq<OverlayDir>)
    requires RecordOverlays(w, ods).Ok?
    ensures var r := RecordOverlays(w, ods).value;
      && (forall od <- ods :: od.source in r)
      && (forall source <- r :: source in w.dirs && r[source] == w.dirs[source])
  {
    if ods != [] {
      var before, od := ods[..|ods| - 1], ods[|ods| - 1];
      RecordedOverlays(w, before);
      assert ods == before + [od];
    }
  }

  lemma {:induction false} RecordedContents(w: World, recorded: map<string, string>, ods: seq<OverlayDir>)
    requires forall od <- ods :: od.source in recorded
    requires forall source <- recorded :: source in w.dirs && recorded[source] == w.dirs[source]
    ensures OverlayContents(recorded, ods) == OverlayContents(w.dirs, ods)
    ensures OverlayContents(recorded, ods).Ok?
  {
    if ods != [] {
      assert ods[|ods| - 1] in ods;
      RecordedContents(w, recorded, ods[..|ods| - 1]);
    }
  }

  /** Right after they are recorded and copied, the overlay dirs check as unchanged. */
  lemma {:induction false} RecordedCheck(w: World, s: State, e: CacheEntry, n: Name, ods: seq<OverlayDir>)
    requires forall od <- ods :: od.source in e.overlayDirs
    requires forall source <- e.overlayDirs :: source in w.dirs && e.overlayDirs[source] == w.dirs[source]
    requires n in s.overlaid && forall od <- ods :: od in s.overlaid[n]
    ensures CheckOverlays(w, s, e, n, ods) == Same
  {
    if ods != [] {
      assert ods[|ods| - 1] in ods;
      RecordedCheck(w, s, e, n, ods[..|ods| - 1]);
    }
  }

  // ----- hits -----

  /** A hit: the definition, the epoch, the tracked imports and the overlay dirs are what the entry
      recorded, and the base is the one whose entry, manifest or tarball hash it recorded. */
  lemma HitMeans(w: World, s: State, n: Name)
    requires Ranked(w) && LookupEntry(w, s, n).Hit?
    ensures n in w.layers && n in s.cache && LookupEntry(w, s, n) == Hit(s.cache[n])
    ensures var e := s.cache[n];
      && e.layer == w.layers[n] && e.epoch == w.epoch && GetBaseHash(w, s, n) == Ok(e.base)
      && ImportsUnchanged(s, e, n, e.layer.imports) && CheckOverlays(w, s, e, n, e.layer.overlayDirs).Same?
      && (e.layer.from.Built? ==>
            LookupEntry(w, s, e.layer.from.tag).Hit? && e.base == EntryHash(s.cache[e.layer.from.tag]))
  {
    if w.layers[n].from.Built? {
      HitMeansCached(w, s, w.layers[n].from.tag);
    }
  }

  lemma HitMeansCached(w: World, s: State, n: Name)
    requires Ranked(w)
    ensures LookupEntry(w, s, n).Hit? ==> n in w.layers && n in s.cache && LookupEntry(w, s, n) == Hit(s.cache[n])
  {
  }

  lemma {:induction false} HitTracked(w: World, s: State, n: Name, names: set<Name>)
    requires Ranked(w) && ClosedTracked(w, names) && n in names && LookupEntry(w, s, n).Hit?
    ensures EntryTracked(LookupEntry(w, s, n).entry)
    decreases Height(w, n)
  {
    HitMeans(w, s, n);
    var e := s.cache[n];
    if e.base.EntryHash? {
      assert e.layer.from.Built?;
      HitTracked(w, s, e.layer.from.tag, names);
    }
  }

  /** What a hit's entry describes is what building the layer now, on the filesystem its base's
      entry describes, would give. */
  lemma HitDescribesBuild(w: World, s: State, n: Name, from: map<Name, Option<Fs>>, roots: map<Name, Option<Fs>>)
    requires Ranked(w) && LookupEntry(w, s, n).Hit? && Tracked(w.layers[n])
    requires ImportAll(w, from, w.layers[n].imports).Ok?
    requires n in s.imported && s.imported[n] == ImportAll(w, from, w.layers[n].imports).value
    requires w.layers[n].from.Built? ==>
      var tag := w.layers[n].from.tag;
      tag in s.cache && FsOf(s.cache[tag]).Ok? && tag in roots && roots[tag] == Some(FsOf(s.cache[tag]).value)
    ensures BuildFs(w, roots, w.layers[n], s.imported[n]).Ok?
    ensures FsOf(s.cache[n]).Ok? && BuildFs(w, roots, w.layers[n], s.imported[n]).value == Some(FsOf(s.cache[n]).value)
  {
    HitMeans(w, s, n);
    var e := s.cache[n];
    SameDirectory(w, from, e.imports, e.layer.imports);
    SameOverlays(w, s, e, n, e.layer.overlayDirs);
    NothingUnseen(w, roots, e.layer);
  }

  // ----- putting -----

  lemma PutRecords(w: World, s: State, n: Name, manifests: map<LayerType, Blob>, from: map<Name, Option<Fs>>)
    requires Ranked(w) && n in w.layers && Tracked(w.layers[n]) && Put(w, s, n, manifests).Ok?
    requires ImportAll(w, from, w.layers[n].imports).Ok?
    requires n in s.imported && s.imported[n] == ImportAll(w, from, w.layers[n].imports).value
    ensures n in Put(w, s, n, manifests).value.cache
    ensures var l, e := w.layers[n], Put(w, s, n, manifests).value.cache[n];
      && e.layer == l && e.epoch == w.epoch && GetBaseHash(w, s, n) == Ok(e.base)
      && NamedImports(e.imports, l.imports) == Ok(s.imported[n])
      && OverlayContents(e.overlayDirs, l.overlayDirs) == OverlayContents(w.dirs, l.overlayDirs)
      && OverlayContents(e.overlayDirs, l.overlayDirs).Ok?
  {
    var l, e := w.layers[n], Put(w, s, n, manifests).value.cache[n];
    RecordedAre(s, n, l.imports);
    SameDirectory(w, from, e.imports, l.imports);
    RecordedOverlays(w, l.overlayDirs);
    RecordedContents(w, e.overlayDirs, l.overlayDirs);
  }

  /** The entry that Put records describes the filesystem just built. */
  lemma PutDescribes(
      w: World, s: State, n: Name, manifests: map<LayerType, Blob>, from: map<Name, Option<Fs>>, roots: map<Name, Option<Fs>>)
    requires Ranked(w) && n in w.layers && Tracked(w.layers[n]) && Put(w, s, n, manifests).Ok?
    requires ImportAll(w, from, w.layers[n].imports).Ok?
    requires n in s.imported && s.imported[n] == ImportAll(w, from, w.layers[n].imports).value
    requires w.layers[n].from.Built? ==>
      var tag := w.layers[n].from.tag;
      tag in s.cache && FsOf(s.cache[tag]).Ok? && tag in roots && roots[tag] == Some(FsOf(s.cache[tag]).value)
    ensures var e := Put(w, s, n, manifests).value.cache[n];
      BuildFs(w, roots, w.layers[n], s.imported[n]).Ok? && FsOf(e).Ok? &&
      BuildFs(w, roots, w.layers[n], s.imported[n]).value == Some(FsOf(e).value)
  {
    PutRecords(w, s, n, manifests, from);
    NothingUnseen(w, roots, w.layers[n]);
    if w.layers[n].from.Built? {
      HitMeansCached(w, s, w.layers[n].from.tag);
    }
  }
}

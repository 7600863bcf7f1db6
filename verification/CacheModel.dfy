/** The build cache and the build loop (pkg/stacker/cache.go, pkg/stacker/build.go) as functions
    on one state.  BuildLoop.dfy runs them step by step in a class.
    Hashes are taken to be injective, so the hash of a thing is modelled by the thing itself. */
module CacheModel {
  import opened Wrappers
  import D = OverlayDisk

  type Name = string
  type LayerType = D.LayerType

  // A file's sha256 or a directory's mtree manifest; the constructor is the recorded ImportType.
  datatype Content = FileHash(hash: string) | DirTree(tree: string)

  // Where an import comes from: a path or URL, or `stacker://host/path` in another layer.
  datatype Location = Plain(path: string) | Stacker(host: Name, path: string)

  // An import with a `dest` is copied into the layer and not tracked by the cache.
  datatype Import = Import(location: Location, copied: bool)

  // The last component of a path, under which an import is kept on disk.
  function Basename(path: string): string {
    if path == "" || path[|path| - 1] == '/' then ""
    else Basename(path[..|path| - 1]) + [path[|path| - 1]]
  }

  function Fname(loc: Location): string {
    Basename(loc.path)
  }

  datatype OverlayDir = OverlayDir(source: string, dest: string)

  datatype From = Scratch | Tar(url: string) | Image(tag: string) | Built(tag: Name)

  datatype Layer = Layer(
    from: From, imports: seq<Import>, overlayDirs: seq<OverlayDir>, run: seq<string>,
    binds: seq<string>, buildOnly: bool)

  /** What a root filesystem was made from, as a term over everything that went into it.  What
      such a term means, and whether the store really holds it, is the subject of CachedStore.dfy. */
  datatype Fs = Fs(
    base: BaseFs, layer: Layer, imports: map<string, Content>, overlayDirs: seq<string>,
    epoch: Option<int>, unseen: seq<Content>)

  datatype BaseFs = Empty | Unpacked(tarHash: string) | Pulled(digest: string) | On(fs: Fs)

  // An output image's descriptor: what it was made from, None for a broken root filesystem, and
  // the layers its manifest lists.
  datatype Blob = Blob(layerType: LayerType, fs: Option<Fs>, layers: D.Manifest)

  datatype BaseHash = NoBase | TarHash(hash: string) | ManifestHash(digest: string) | EntryHash(entry: CacheEntry)

  datatype CacheEntry = CacheEntry(
    manifests: map<LayerType, Blob>, imports: map<Location, Content>, overlayDirs: map<string, string>,
    name: Name, layer: Layer, base: BaseHash, epoch: Option<int>)

  /** What one run reads: the definitions and the outside world.  `rank` is a layer's place in the
      build order, by which base chains are known to end. */
  datatype World = World(
    layers: map<Name, Layer>, rank: map<Name, nat>,
    files: map<string, Content>, dirs: map<string, string>,
    tars: map<string, string>, images: map<string, string>,
    epoch: Option<int>, grab: (Name, Option<Fs>, string) -> Option<Content>)

  datatype Ref = Ref(name: Name, layerType: LayerType)

  datatype State = State(
    cache: map<Name, CacheEntry>,                  // the cache file
    roots: map<Name, Option<Fs>>,                  // roots/<name>; None: left broken by a failed build
    overlaid: map<Name, set<OverlayDir>>,          // roots/<name>/overlay_dirs
    imported: map<Name, map<string, Content>>,     // imports/<name>/<base name>
    images: map<Ref, Blob>,                        // the output layout's references
    blobs: set<Blob>)                              // the output layout's blobs

  predicate Ranked(w: World) {
    forall n <- w.layers ::
      n in w.rank &&
      (w.layers[n].from.Built? && w.layers[n].from.tag in w.layers ==>
         w.layers[n].from.tag in w.rank && w.rank[w.layers[n].from.tag] < w.rank[n])
  }

  function Height(w: World, n: Name): nat
    requires Ranked(w)
  {
    if n in w.layers then w.rank[n] + 1 else 0
  }

  // ----- looking up -----

  datatype Lookup = Error | Miss | Hit(entry: CacheEntry)

  predicate ImportUnchanged(s: State, e: CacheEntry, n: Name, imp: Import) {
    imp.copied ||
    (imp.location in e.imports && n in s.imported && Fname(imp.location) in s.imported[n] &&
     s.imported[n][Fname(imp.location)] == e.imports[imp.location])
  }

  predicate ImportsUnchanged(s: State, e: CacheEntry, n: Name, imports: seq<Import>) {
    forall imp <- imports :: ImportUnchanged(s, e, n, imp)
  }

  // How far the loop over overlay_dirs has come: a new or missing one stops it with a miss, an
  // unreadable one with an error, while a changed one is only noted.
  datatype Check = Same | Changed | Stopped | Failed

  function CheckOverlays(w: World, s: State, e: CacheEntry, n: Name, ods: seq<OverlayDir>): Check {
    if ods == [] then Same
    else
      var before := CheckOverlays(w, s, e, n, ods[..|ods| - 1]);
      var od := ods[|ods| - 1];
      if before.Stopped? || before.Failed? then before
      else if od.source !in e.overlayDirs || n !in s.overlaid || od !in s.overlaid[n] then Stopped
      else if od.source !in w.dirs then Failed
      else if w.dirs[od.source] != e.overlayDirs[od.source] then Changed
      else before
  }

  function LookupEntry(w: World, s: State, n: Name): Lookup
    requires Ranked(w)
    decreases Height(w, n), 1
  {
    if n !in w.layers || n !in s.cache || s.cache[n].layer != w.layers[n] then Miss
    else
      var e := s.cache[n];
      match GetBaseHash(w, s, n)
      case Err => Error
      case Ok(hash) =>
        if hash != e.base || w.epoch != e.epoch || !ImportsUnchanged(s, e, n, e.layer.imports) then Miss
        else match CheckOverlays(w, s, e, n, e.layer.overlayDirs)
          case Same => Hit(e)
          case Failed => Error
          case _ => Miss
  }

  function GetBaseHash(w: World, s: State, n: Name): Result<BaseHash>
    requires Ranked(w)
    decreases Height(w, n), 0
  {
    if n !in w.layers then Err
    else match w.layers[n].from
      case Scratch => Ok(NoBase)
      case Tar(url) => if url in w.tars then Ok(TarHash(w.tars[url])) else Err
      case Image(tag) => if tag in w.images then Ok(ManifestHash(w.images[tag])) else Err
      case Built(tag) =>
        if tag !in w.layers then Err
        else
          var base := LookupEntry(w, s, tag);
          if base.Hit? then Ok(EntryHash(base.entry)) else Err
  }

  // ----- recording -----

  function RecordImports(s: State, n: Name, imports: seq<Import>): Result<map<Location, Content>> {
    if imports == [] then Ok(map[])
    else
      var before :- RecordImports(s, n, imports[..|imports| - 1]);
      var imp := imports[|imports| - 1];
      if imp.copied then Ok(before)
      else if n !in s.imported || Fname(imp.location) !in s.imported[n] then Err
      else Ok(before[imp.location := s.imported[n][Fname(imp.location)]])
  }

  function RecordOverlays(w: World, ods: seq<OverlayDir>): Result<map<string, string>> {
    if ods == [] then Ok(map[])
    else
      var before :- RecordOverlays(w, ods[..|ods| - 1]);
      var od := ods[|ods| - 1];
      if od.source in w.dirs then Ok(before[od.source := w.dirs[od.source]]) else Err
  }

  function Put(w: World, s: State, n: Name, manifests: map<LayerType, Blob>): Result<State>
    requires Ranked(w)
  {
    if n !in w.layers then Err
    else
      var l := w.layers[n];
      var base :- GetBaseHash(w, s, n);
      var imports :- RecordImports(s, n, l.imports);
      var overlayDirs :- RecordOverlays(w, l.overlayDirs);
      Ok(s.(cache := s.cache[n := CacheEntry(manifests, imports, overlayDirs, n, l, base, w.epoch)]))
  }

  // ----- importing and building -----

  function Fetch(w: World, roots: map<Name, Option<Fs>>, loc: Location): Option<Content> {
    match loc
    case Plain(path) => if path in w.files then Some(w.files[path]) else None
    case Stacker(host, path) => if host in roots then w.grab(host, roots[host], path) else None
  }

  /** What the imports directory of a layer holds after Import. */
  function ImportAll(w: World, roots: map<Name, Option<Fs>>, imports: seq<Import>): Result<map<string, Content>> {
    if imports == [] then Ok(map[])
    else
      var before :- ImportAll(w, roots, imports[..|imports| - 1]);
      var imp := imports[|imports| - 1];
      match Fetch(w, roots, imp.location)
      case None => Err
      case Some(content) => Ok(if imp.copied then before else before[Fname(imp.location) := content])
  }

  // What reaches the filesystem without the cache knowing: imports with a dest, and binds.
  function UnseenImports(w: World, roots: map<Name, Option<Fs>>, imports: seq<Import>): seq<Content> {
    if imports == [] then []
    else
      var before := UnseenImports(w, roots, imports[..|imports| - 1]);
      var imp := imports[|imports| - 1];
      match Fetch(w, roots, imp.location)
      case Some(content) => if imp.copied then before + [content] else before
      case None => before
  }

  function UnseenBinds(w: World, binds: seq<string>): seq<Content> {
    if binds == [] then []
    else
      var before := UnseenBinds(w, binds[..|binds| - 1]);
      var bind := binds[|binds| - 1];
      before + [if bind in w.files then w.files[bind] else DirTree("")]
  }

  function Unseen(w: World, roots: map<Name, Option<Fs>>, l: Layer): seq<Content> {
    UnseenImports(w, roots, l.imports) + UnseenBinds(w, l.binds)
  }

  function OverlayContents(dirs: map<string, string>, ods: seq<OverlayDir>): Result<seq<string>> {
    if ods == [] then Ok([])
    else
      var before :- OverlayContents(dirs, ods[..|ods| - 1]);
      var od := ods[|ods| - 1];
      if od.source in dirs then Ok(before + [dirs[od.source]]) else Err
  }

  // The base filesystem; Some(None) of a broken root.
  function SetupBase(w: World, roots: map<Name, Option<Fs>>, from: From): Result<Option<BaseFs>> {
    match from
    case Scratch => Ok(Some(Empty))
    case Tar(url) => if url in w.tars then Ok(Some(Unpacked(w.tars[url]))) else Err
    case Image(tag) => if tag in w.images then Ok(Some(Pulled(w.images[tag]))) else Err
    case Built(tag) =>
      if tag !in roots then Err
      else match roots[tag]
        case None => Ok(None)
        case Some(fs) => Ok(Some(On(fs)))
  }

  /** Sets the layer up on its base as it is now and runs it. */
  function BuildFs(w: World, roots: map<Name, Option<Fs>>, l: Layer, imported: map<string, Content>): Result<Option<Fs>> {
    var base :- SetupBase(w, roots, l.from);
    var overlayDirs :- OverlayContents(w.dirs, l.overlayDirs);
    match base
    case None => Ok(None)
    case Some(base) => Ok(Some(Fs(base, l, imported, overlayDirs, w.epoch, Unseen(w, roots, l))))
  }

  function OverlayDirSet(ods: seq<OverlayDir>): set<OverlayDir> {
    set od | od in ods
  }

  // The layers that repacking put into the image of a layer in some format.
  type Emitted = (Name, LayerType) -> D.Manifest

  /** The references and descriptors of a freshly built output layer. */
  function NewManifests(n: Name, fs: Option<Fs>, lts: seq<LayerType>, emitted: Emitted): map<LayerType, Blob> {
    map lt | lt in lts :: Blob(lt, fs, emitted(n, lt))
  }

  function SetImages(s: State, n: Name, manifests: map<LayerType, Blob>): State {
    s.(images := s.images + (map ref | ref in RefsOf(n, manifests) :: manifests[ref.layerType]),
       blobs := s.blobs + manifests.Values)
  }

  function RefsOf(n: Name, manifests: map<LayerType, Blob>): (refs: set<Ref>)
    ensures forall ref <- refs :: ref.name == n && ref.layerType in manifests
    ensures forall lt <- manifests :: Ref(n, lt) in refs
  {
    set lt | lt in manifests :: Ref(n, lt)
  }

  // A build-only layer gets a bogus entry under the first layer type.
  function BuildOnlyManifests(lts: seq<LayerType>): map<LayerType, Blob>
    requires |lts| > 0
  {
    map[lts[0] := Blob(lts[0], None, [])]
  }

  function Rebuild(w: World, s: State, n: Name, lts: seq<LayerType>, emitted: Emitted): Result<State>
    requires Ranked(w) && |lts| > 0 && n in w.layers && n in s.imported
  {
    var l := w.layers[n];
    var fs :- BuildFs(w, s.roots - {n}, l, s.imported[n]);
    var built := s.(roots := s.roots[n := fs], overlaid := s.overlaid[n := OverlayDirSet(l.overlayDirs)]);
    if l.buildOnly then Put(w, built, n, BuildOnlyManifests(lts))
    else
      var manifests := NewManifests(n, fs, lts, emitted);
      Put(w, SetImages(built, n, manifests), n, manifests)
  }

  function UseCached(s: State, n: Name, e: CacheEntry, lts: seq<LayerType>): State {
    if e.layer.buildOnly then s
    else SetImages(s, n, map lt | lt in lts && lt in e.manifests :: e.manifests[lt])
  }

  predicate HasAllTypes(e: CacheEntry, lts: seq<LayerType>) {
    e.layer.buildOnly || forall lt <- lts :: lt in e.manifests
  }

  function StartLayer(w: World, s: State, n: Name): Result<State> {
    if n !in w.layers then Err
    else
      var imported :- ImportAll(w, s.roots, w.layers[n].imports);
      Ok(s.(imported := s.imported[n := imported]))
  }

  /** One layer's turn in the build loop. */
  function Process(w: World, s: State, n: Name, lts: seq<LayerType>, emitted: Emitted): Result<State>
    requires Ranked(w) && |lts| > 0
  {
    var s :- StartLayer(w, s, n);
    match LookupEntry(w, s, n)
    case Error => Err
    case Miss => Rebuild(w, s, n, lts, emitted)
    case Hit(e) =>
      if w.layers[n].binds != [] then Rebuild(w, s, n, lts, emitted)
      else
        var used := UseCached(s, n, e, lts);
        if HasAllTypes(e, lts) then Ok(used) else Rebuild(w, used, n, lts, emitted)
  }

  // ----- between files and runs -----

  /** Garbage collection of the output layout at the end of a file's build. */
  function CollectGarbage(s: State): State {
    s.(blobs := s.blobs * s.images.Values)
  }

  predicate Survives(s: State, e: CacheEntry) {
    if e.layer.buildOnly then e.name in s.roots else forall lt <- e.manifests :: e.manifests[lt] in s.blobs
  }

  /** Reopening the cache drops entries whose results are gone. */
  function OpenCache(s: State): State {
    s.(cache := map n | n in s.cache && Survives(s, s.cache[n]) :: s.cache[n])
  }

  /** A build that fails on `n` once its old root filesystem is deleted: the cache is not
      touched, the root is broken, the references may or may not have been updated. */
  function FailOn(s: State, n: Name, left: map<LayerType, Blob>): State {
    SetImages(s.(roots := s.roots[n := None], overlaid := s.overlaid - {n}), n, left)
  }

  // ----- whole runs -----

  function RunLayers(w: World, s: State, order: seq<Name>, lts: seq<LayerType>, emitted: Emitted): Result<State>
    requires Ranked(w) && |lts| > 0
  {
    if order == [] then Ok(s)
    else
      var before :- RunLayers(w, s, order[..|order| - 1], lts, emitted);
      Process(w, before, order[|order| - 1], lts, emitted)
  }

  /** Each file's build reopens the cache and ends with a garbage collection. */
  function RunFiles(w: World, s: State, files: seq<seq<Name>>, lts: seq<LayerType>, emitted: Emitted): Result<State>
    requires Ranked(w) && |lts| > 0
  {
    if files == [] then Ok(s)
    else
      var before :- RunFiles(w, s, files[..|files| - 1], lts, emitted);
      var ran :- RunLayers(w, OpenCache(before), files[|files| - 1], lts, emitted);
      Ok(CollectGarbage(ran))
  }

  function Concat(files: seq<seq<Name>>): seq<Name> {
    if files == [] then [] else Concat(files[..|files| - 1]) + files[|files| - 1]
  }

  /** What building every layer from nothing gives: the reference for a run with a cache. */
  function FreshRun(w: World, order: seq<Name>): Result<map<Name, Option<Fs>>> {
    if order == [] then Ok(map[])
    else
      var roots :- FreshRun(w, order[..|order| - 1]);
      var n := order[|order| - 1];
      if n !in w.layers then Err
      else
        var imported :- ImportAll(w, roots, w.layers[n].imports);
        var fs :- BuildFs(w, roots, w.layers[n], imported);
        Ok(roots[n := fs])
  }

  const NOTHING := State(map[], map[], map[], map[], map[], {})

  datatype Event =
    | LayerTurn(world: World, name: Name, layerTypes: seq<LayerType>, emitted: Emitted)
    | Failure(name: Name, left: map<LayerType, Blob>)
    | Collect
    | Reopen

  function Happen(s: State, e: Event): Result<State> {
    match e
    case LayerTurn(w, n, lts, emitted) =>
      if Ranked(w) && |lts| > 0 then Process(w, s, n, lts, emitted) else Err
    case Failure(n, left) => Ok(FailOn(s, n, left))
    case Collect => Ok(CollectGarbage(s))
    case Reopen => Ok(OpenCache(s))
  }

  /** Everything that may have happened in earlier runs, with any definitions and files. */
  function Past(events: seq<Event>): Result<State> {
    if events == [] then Ok(NOTHING)
    else
      var before :- Past(events[..|events| - 1]);
      Happen(before, events[|events| - 1])
  }
}

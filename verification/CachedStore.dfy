/** The build cache on top of the real layer store.  CacheModel.dfy records what every root was made
    from; here each turn of the build loop also does to the disk what OverlayDisk.dfy says: a rebuilt
    layer is set up on what its base really looks like, runs on that view, is repacked, and thereby
    drains and rewrites other layers; a layer that hits is left as it is.  What a turn does to the cache
    and the disk depends on the cache, the disk and the definitions only; the lineages are bookkeeping. */
module CachedStore {
  import opened Wrappers
  import opened CacheModel
  import D = OverlayDisk
  import R = OverlayRuns
  import G = OverlayGrowth
  import O = OverlayStore

  // ----- what a root's making means -----

  /** Everything but the base's files that reaches a layer's container. */
  datatype Inputs = Inputs(
    tar: Option<string>, layer: Layer, imports: map<string, Content>, overlayDirs: seq<string>,
    epoch: Option<int>, unseen: seq<Content>)

  /** What lies outside the program: what a container leaves in its upper directory when it runs on
      some files with some inputs, which layers a base image has, and what a path in a filesystem
      holds. */
  datatype Meaning = Meaning(
    run: (D.Tree, Inputs) -> D.Diff, source: string -> D.Source, grab: (D.Tree, string) -> Option<Content>)

  function InputsOf(fs: Fs): Inputs {
    Inputs(if fs.base.Unpacked? then Some(fs.base.tarHash) else None, fs.layer, fs.imports, fs.overlayDirs, fs.epoch, fs.unseen)
  }

  /** The stack of changes of a clean build: every container ran on the stack below it. */
  function StackOf(m: Meaning, fs: Fs): seq<D.Diff>
    decreases fs, 1
  {
    BaseStack(m, fs.base) + D.One(Change(m, fs))
  }

  function BaseStack(m: Meaning, base: BaseFs): seq<D.Diff>
    decreases base, 2
  {
    match base
    case Empty => []
    case Unpacked(_) => []
    case Pulled(digest) => D.Diffs(m.source(digest).layers)
    case On(fs) => StackOf(m, fs)
  }

  function Change(m: Meaning, fs: Fs): D.Diff
    decreases fs, 0
  {
    m.run(D.View(BaseStack(m, fs.base)), InputsOf(fs))
  }

  // ----- the state -----

  /** `made` has the lineage of each layer whose last completed build was on a base that stood.  A layer
      stands, in `sys.built`, as long as it and all below it are as that build left them. */
  datatype Store = Store(s: State, sys: R.Sys, made: map<Name, R.Lineage>)

  // What Go's map iteration leaves open, and the encoder's output.
  datatype Choices = Choices(pick: LayerType, seen: LayerType, picks: Name -> LayerType, enc: D.Encoder)

  function ViewOf(d: D.Disk, n: Name, pick: LayerType): Option<D.Tree> {
    if n in d.meta && n in d.upper && (forall x <- d.meta[n].builtLayers :: x in d.upper) && D.Picks(d.meta[n], pick)
    then Some(D.View(D.MountStack(d, n, pick))) else None
  }

  function RealGrab(m: Meaning, d: D.Disk, picks: Name -> LayerType): (Name, Option<Fs>, string) -> Option<Content> {
    (host, root, path) =>
      match ViewOf(d, host, picks(host))
      case None => None
      case Some(tree) => m.grab(tree, path)
  }

  /** The world with imports from other layers taken from what their mounts really show. */
  function Real(m: Meaning, w: World, d: D.Disk, picks: Name -> LayerType): World {
    w.(grab := RealGrab(m, d, picks))
  }

  // ----- one turn -----

  function DefOf(m: Meaning, w: World, l: Layer): Result<D.LayerDef> {
    match l.from
    case Scratch => Ok(D.LayerDef(D.Scratch, l.buildOnly))
    case Tar(_) => Ok(D.LayerDef(D.Tarball, l.buildOnly))
    case Image(tag) => if tag in w.images then Ok(D.LayerDef(D.Image(m.source(w.images[tag])), l.buildOnly)) else Err
    case Built(tag) => Ok(D.LayerDef(D.Built(tag), l.buildOnly))
  }

  function TarOf(w: World, l: Layer): Option<string> {
    if l.from.Tar? && l.from.url in w.tars then Some(w.tars[l.from.url]) else None
  }

  function InputsFor(w: World, s: State, n: Name): Inputs
    requires n in w.layers && n in s.imported
  {
    var l := w.layers[n];
    Inputs(TarOf(w, l), l, s.imported[n], [], w.epoch, Unseen(w, s.roots - {n}, l))
  }

  // A pick is one of the base's manifests.
  predicate CanPick(d: D.Disk, from: D.From, pick: LayerType) {
    from.Built? && from.tag in d.meta ==> D.Picks(d.meta[from.tag], pick)
  }

  /** The overlay's step: the container runs on what the layer is mounted on.  Layers with
      overlay_dirs are not part of this model. */
  function StepFor(m: Meaning, w: World, c: Store, n: Name, ch: Choices): Result<R.Step>
    requires n in w.layers && n in c.s.imported
  {
    if w.layers[n].overlayDirs != [] then Err
    else
      var def :- DefOf(m, w, w.layers[n]);
      if !CanPick(c.sys.disk, def.from, ch.pick) then Err
      else
        var mounted :- D.SetupRootfs(c.sys.disk, n, def.from, ch.pick);
        match ViewOf(mounted, n, ch.seen)
        case None => Err
        case Some(tree) => Ok(R.Step(n, def, m.run(tree, InputsFor(w, c.s, n)), ch.pick, ch.enc))
  }

  function Emits(d: D.Disk): Emitted {
    (n, lt) => if D.Ref(n, lt) in d.images then d.images[D.Ref(n, lt)] else []
  }

  function Definitions(m: Meaning, w: World): map<Name, D.LayerDef> {
    map n | n in w.layers && DefOf(m, w, w.layers[n]).Ok? :: DefOf(m, w, w.layers[n]).value
  }

  lemma DefinitionsRanked(m: Meaning, w: World)
    requires Ranked(w)
    ensures O.Ranked(Definitions(m, w), w.rank)
  {
  }

  /** Where the definitions say that repacking starts. */
  ghost function StartIn(m: Meaning, w: World, n: Name): Result<D.Start>
    requires Ranked(w)
  {
    DefinitionsRanked(m, w);
    O.StartFor(n, O.FirstBase(Definitions(m, w), w.rank, n))
  }

  /** The layers that stand after building one.  If its base stands the new layer does, and those built
      on its old root do not; else also those that the repack may have drained or rewritten do not. */
  function StandingAfter(sys: R.Sys, step: R.Step, lts: seq<LayerType>): map<Name, R.Lineage> {
    match R.LineageOf(sys, step, lts)
    case Ok(l) => R.Forget(sys.built, step.name)[step.name := l]
    case Err => G.Outside(sys.built, G.Touched(sys.disk, step))
  }

  function MadeAfter(c: Store, step: R.Step, lts: seq<LayerType>): map<Name, R.Lineage> {
    match R.LineageOf(c.sys, step, lts)
    case Ok(l) => c.made[step.name := l]
    case Err => c.made - {step.name}
  }

  ghost function Rebuilt(m: Meaning, w: World, c: Store, n: Name, lts: seq<LayerType>, ch: Choices): Result<Store>
    requires Ranked(w) && |lts| > 0 && n in w.layers && n in c.s.imported
  {
    var step :- StepFor(m, w, c, n, ch);
    var start :- StartIn(m, w, n);
    var disk :- R.BuildLayer(c.sys.disk, step, start, lts);
    var s :- Rebuild(w, c.s, n, lts, Emits(disk));
    Ok(Store(s, R.Sys(disk, StandingAfter(c.sys, step, lts)), MadeAfter(c, step, lts)))
  }

  // References moved back to the recorded images.
  function Restore(sys: R.Sys, n: Name, e: CacheEntry, lts: seq<LayerType>): R.Sys {
    if e.layer.buildOnly then sys
    else
      var refs := set lt | lt in lts && lt in e.manifests :: D.Ref(n, lt);
      sys.(disk := sys.disk.(images := sys.disk.images + map ref | ref in refs :: e.manifests[ref.layerType].layers))
  }

  function Referenced(c: Store, n: Name, e: CacheEntry, lts: seq<LayerType>): Store {
    c.(s := UseCached(c.s, n, e, lts), sys := Restore(c.sys, n, e, lts))
  }

  /** A layer that did not stand does so again: its base stands on what it was built on, and its
      metadata, directory and images are as that build calls for. */
  ghost predicate Returns(c: Store, n: Name, lts: seq<LayerType>) {
    && n in c.made && n !in c.sys.built && n in c.s.roots && c.s.roots[n].Some?
    && var l := c.made[n];
       && R.WellFormed(l, lts) && R.LayerOk(c.sys.disk, l, lts)
       && (l.Child? ==> l.base.name in c.sys.built && c.sys.built[l.base.name] == l.base)
  }

  ghost function Use(c: Store, n: Name, e: CacheEntry, lts: seq<LayerType>): Store {
    var used := Referenced(c, n, e, lts);
    if Returns(used, n, lts) then used.(sys := used.sys.(built := used.sys.built[n := used.made[n]])) else used
  }

  ghost function TurnFrom(m: Meaning, w: World, c: Store, n: Name, lts: seq<LayerType>, ch: Choices): Result<Store>
    requires Ranked(w) && |lts| > 0 && n in w.layers && n in c.s.imported
  {
    match LookupEntry(w, c.s, n)
    case Error => Err
    case Miss => Rebuilt(m, w, c, n, lts, ch)
    case Hit(e) =>
      if w.layers[n].binds != [] then Rebuilt(m, w, c, n, lts, ch)
      else if HasAllTypes(e, lts) then Ok(Use(c, n, e, lts))
      else Rebuilt(m, w, Use(c, n, e, lts), n, lts, ch)
  }

  /** One layer's turn in the build loop. */
  ghost function Turn(m: Meaning, w: World, c: Store, n: Name, lts: seq<LayerType>, ch: Choices): Result<Store>
    requires Ranked(w) && |lts| > 0
  {
    var w' := Real(m, w, c.sys.disk, ch.picks);
    var s :- StartLayer(w', c.s, n);
    TurnFrom(m, w', c.(s := s), n, lts, ch)
  }

  /** A turn whose commands fail: the root is set up, `left` is in its upper directory, and neither
      the cache nor any image was touched. */
  function FailedTurn(m: Meaning, w: World, c: Store, n: Name, ch: Choices, left: D.Diff): Result<Store> {
    var w' := Real(m, w, c.sys.disk, ch.picks);
    var s :- StartLayer(w', c.s, n);
    var step :- StepFor(m, w', c.(s := s), n, ch);
    var mounted :- D.SetupRootfs(c.sys.disk, n, step.def.from, ch.pick);
    Ok(c.(s := FailOn(s, n, map[]), sys := R.Sys(R.RunContainer(mounted, n, left), R.Forget(c.sys.built, n))))
  }

  /** The images of a layer that was repacked but whose entry was not put. */
  function Unrecorded(l: Layer, n: Name, lts: seq<LayerType>, emitted: Emitted): map<LayerType, Blob> {
    if l.buildOnly then map[] else NewManifests(n, None, lts, emitted)
  }

  /** A turn that fails after the repack, before the entry is put: everything is done to the disk, and the
      cache is not touched. */
  ghost function UnrecordedTurn(m: Meaning, w: World, c: Store, n: Name, lts: seq<LayerType>, ch: Choices): Result<Store>
    requires Ranked(w) && |lts| > 0
  {
    var w' := Real(m, w, c.sys.disk, ch.picks);
    var s :- StartLayer(w', c.s, n);
    var step :- StepFor(m, w', c.(s := s), n, ch);
    var start :- StartIn(m, w', n);
    var disk :- R.BuildLayer(c.sys.disk, step, start, lts);
    Ok(c.(s := FailOn(s, n, Unrecorded(w.layers[n], n, lts, Emits(disk))),
          sys := R.Sys(disk, G.Outside(c.sys.built, G.Touched(c.sys.disk, step)))))
  }

  // ----- histories -----

  datatype Happening =
    | Turned(world: World, name: Name, choices: Choices)
    | RunFailed(world: World, name: Name, choices: Choices, left: D.Diff)
    | PutFailed(world: World, name: Name, choices: Choices)
    | Collected
    | Reopened

  ghost function Happens(m: Meaning, c: Store, lts: seq<LayerType>, h: Happening): Result<Store>
    requires |lts| > 0
  {
    match h
    case Turned(w, n, ch) => if Ranked(w) then Turn(m, w, c, n, lts, ch) else Err
    case RunFailed(w, n, ch, left) => if Ranked(w) then FailedTurn(m, w, c, n, ch, left) else Err
    case PutFailed(w, n, ch) => if Ranked(w) then UnrecordedTurn(m, w, c, n, lts, ch) else Err
    case Collected => Ok(c.(s := CollectGarbage(c.s)))
    case Reopened => Ok(c.(s := OpenCache(c.s)))
  }

  function Begin(bases: set<D.Digest>): Store {
    Store(NOTHING, R.Initial(bases), map[])
  }

  /** Everything that happened in earlier runs and in this one, with any definitions and files. */
  ghost function History(m: Meaning, bases: set<D.Digest>, lts: seq<LayerType>, hs: seq<Happening>): Result<Store>
    requires |lts| > 0
  {
    if hs == [] then Ok(Begin(bases))
    else
      var c :- History(m, bases, lts, hs[..|hs| - 1]);
      Happens(m, c, lts, hs[|hs| - 1])
  }
}

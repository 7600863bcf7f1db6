/** Runs of the overlay backend: layers are set up, run and repacked in any order that respects
    their bases, and may be rebuilt later.  A lineage records what a layer was built from; it is
    the independent reference the emitted images are compared with. */
module OverlayRuns {
  import opened Wrappers
  import opened OverlayDisk

  /** `inherited` notes whether the base's metadata, copied when this layer was set up, already
      said HasBuiltOCIOutput. */
  datatype Lineage =
    | Root(name: Name, buildOnly: bool, source: Option<Source>, own: Diff)
    | Child(base: Lineage, name: Name, buildOnly: bool, own: Diff, inherited: bool)

  function Names(l: Lineage): set<Name> {
    if l.Root? then {l.name} else Names(l.base) + {l.name}
  }

  function SourceDiffs(source: Option<Source>): seq<Diff> {
    if source.None? then [] else Diffs(source.value.layers)
  }

  /** The stack of changes the layer's image should hold (OCI Image Format Specification v1.1.1,
      manifest.md, `layers`: the base layer first, then the changes in stack order). */
  function Expected(l: Lineage): seq<Diff> {
    (if l.Root? then SourceDiffs(l.source) else Expected(l.base)) + One(l.own)
  }

  /** A layer that changed nothing, on a base whose output was rendered before the copy. */
  predicate Stale(l: Lineage) {
    l.Child? && l.inherited && l.own == map[]
  }

  predicate Clean(l: Lineage) {
    !Stale(l) && (l.Child? ==> Clean(l.base))
  }

  /** Where repacking starts: the nearest base present in the output, else the source image. */
  function StartOf(l: Lineage): Start {
    match l
    case Root(_, _, None, _) => Fresh
    case Root(_, _, Some(source), _) => Convert(source)
    case Child(base, _, _, _, _) => if base.buildOnly then StartOf(base) else CopyOf(base.name)
  }

  datatype Sys = Sys(disk: Disk, built: map<Name, Lineage>)

  /** One layer's turn in a build.  `own` is what the container left in the upper directory. */
  datatype Step = Step(name: Name, def: LayerDef, own: Diff, pick: LayerType, enc: Encoder)

  function SourceOf(from: From): Option<Source> {
    if from.Image? then Some(from.source) else None
  }

  predicate WellFormedSource(source: Source, lts: seq<LayerType>) {
    source.layerType in lts && forall x <- source.layers :: x.layerType == source.layerType
  }

  /** The build loop only reaches a layer whose base has been built, and no layer is its own base. */
  function LineageOf(s: Sys, step: Step, lts: seq<LayerType>): Result<Lineage> {
    match step.def.from
    case Built(tag) =>
      if tag in s.built && tag in s.disk.meta && step.name !in Names(s.built[tag]) &&
         Picks(s.disk.meta[tag], step.pick)
      then Ok(Child(s.built[tag], step.name, step.def.buildOnly, step.own, s.disk.meta[tag].hasBuiltOCIOutput))
      else Err
    case Image(source) =>
      if WellFormedSource(source, lts)
      then Ok(Root(step.name, step.def.buildOnly, Some(source), step.own)) else Err
    case _ => Ok(Root(step.name, step.def.buildOnly, None, step.own))
  }

  function RunContainer(d: Disk, name: Name, own: Diff): Disk {
    d.(upper := d.upper[name := own])
  }

  // Layers built on top of a rebuilt one are claimed again only once they are rebuilt too.
  function Forget(built: map<Name, Lineage>, name: Name): map<Name, Lineage> {
    map k | k in built && name !in Names(built[k]) :: built[k]
  }

  function BuildLayer(d: Disk, step: Step, start: Start, lts: seq<LayerType>): Result<Disk>
    requires |lts| > 0
  {
    var mounted :- SetupRootfs(d, step.name, step.def.from, step.pick);
    var ran := RunContainer(mounted, step.name, step.own);
    if step.def.buildOnly then Ok(ran)
    else Repack(ran, step.name, start, lts, step.enc)
  }

  function Next(s: Sys, step: Step, lts: seq<LayerType>): Result<Sys>
    requires |lts| > 0
  {
    var l :- LineageOf(s, step, lts);
    var d :- BuildLayer(s.disk, step, StartOf(l), lts);
    Ok(Sys(d, Forget(s.built, step.name)[step.name := l]))
  }

  function Run(s: Sys, steps: seq<Step>, lts: seq<LayerType>): Result<Sys>
    requires |lts| > 0
  {
    if steps == [] then Ok(s)
    else
      var s' :- Run(s, steps[..|steps| - 1], lts);
      Next(s', steps[|steps| - 1], lts)
  }

  function Initial(bases: set<Digest>): Sys {
    Sys(Disk(map[], map[], map[], map[], bases), map[])
  }

  // ----- the invariant -----

  ghost predicate StoreOk(d: Disk) {
    forall x <- d.store :: d.store[x] == x.diff
  }

  ghost predicate Stored(d: Disk, xs: Manifest, lt: LayerType) {
    forall x <- xs :: x in d.store && x.layerType == lt
  }

  ghost predicate MutsOk(d: Disk, muts: Mutators, lts: seq<LayerType>) {
    && |muts| == |lts|
    && (forall i :: 0 <= i < |lts| ==> Stored(d, muts[i], lts[i]))
    && (forall i, j :: 0 <= i < |lts| && 0 <= j < |lts| ==> Diffs(muts[i]) == Diffs(muts[j]))
  }

  ghost predicate MetaOk(d: Disk, m: Metadata, lts: seq<LayerType>) {
    && (forall lt <- m.manifests :: lt in lts && Stored(d, m.manifests[lt], lt))
    && (forall a <- m.manifests, b <- m.manifests :: Diffs(m.manifests[a]) == Diffs(m.manifests[b]))
    && (m.hasBuiltOCIOutput ==> forall lt <- lts :: lt in m.manifests && |m.manifests[lt]| > 0)
  }

  ghost predicate Quiet(d: Disk, name: Name) {
    && name in d.upper && d.upper[name] == map[]
    && name in d.meta && !d.meta[name].hasBuiltOCIOutput
  }

  ghost predicate Inherited(l: Lineage) {
    l.Child? && l.inherited
  }

  /** The stack is exactly the expected one unless a stale layer contributed to it. */
  ghost predicate Match(l: Lineage, stack: seq<Diff>) {
    && (Clean(l) ==> stack == Expected(l))
    && (!Clean(l) ==> |stack| > |Expected(l)|)
  }

  /** A build-only layer's change is in its upper directory or, once drained, at the top of its
      recorded manifests. */
  ghost predicate ChangeKept(d: Disk, l: Lineage, lts: seq<LayerType>)
    requires l.name in d.meta && l.name in d.upper
  {
    var m := d.meta[l.name];
    && (d.upper[l.name] == l.own ||
        (d.upper[l.name] == map[] && m.hasBuiltOCIOutput &&
         forall lt <- lts :: lt in m.manifests && |m.manifests[lt]| > 0 &&
                             m.manifests[lt][|m.manifests[lt]| - 1].diff == l.own))
    && (l.own == map[] ==> m.hasBuiltOCIOutput == Inherited(l))
  }

  ghost predicate ImagesOk(d: Disk, l: Lineage, lts: seq<LayerType>) {
    && HasImages(d, l.name, lts)
    && MutsOk(d, Images(d, l.name, lts), lts)
    && (forall lt <- lts :: Match(l, Diffs(d.images[Ref(l.name, lt)])))
  }

  // The layers a snapshot of `name` lists as not yet rendered.
  function Listed(d: Disk, name: Name): seq<Name>
    requires name in d.meta
  {
    d.meta[name].builtLayers + [name]
  }

  ghost predicate LayerOk(d: Disk, l: Lineage, lts: seq<LayerType>) {
    && l.name in d.meta && l.name in d.upper
    && MetaOk(d, d.meta[l.name], lts)
    && (l.Root? ==> d.meta[l.name].builtLayers == [])
    && (l.Root? && l.source.Some? ==> Stored(d, l.source.value.layers, l.source.value.layerType))
    && (l.Child? ==> forall x <- d.meta[l.name].builtLayers :: x in Names(l.base))
    && if l.buildOnly then
         && ChangeKept(d, l, lts)
         && (l.Child? ==> l.base.name in d.meta)
         && (l.Child? ==> d.meta[l.name].builtLayers == Listed(d, l.base.name))
       else
         && Quiet(d, l.name)
         && (forall x <- d.meta[l.name].builtLayers :: Quiet(d, x))
         && ImagesOk(d, l, lts)
  }

  ghost predicate WellFormed(l: Lineage, lts: seq<LayerType>) {
    match l
    case Root(_, _, source, _) => source.Some? ==> WellFormedSource(source.value, lts)
    case Child(base, name, _, _, _) => name !in Names(base) && WellFormed(base, lts)
  }

  ghost predicate Known(built: map<Name, Lineage>, l: Lineage, lts: seq<LayerType>) {
    && l.name in built && built[l.name] == l && WellFormed(l, lts)
    && (l.Child? ==> l.base.name in built && built[l.base.name] == l.base)
  }

  ghost predicate Good(d: Disk, built: map<Name, Lineage>, n: Name, lts: seq<LayerType>)
    requires n in built
  {
    built[n].name == n && Known(built, built[n], lts) && LayerOk(d, built[n], lts)
  }

  ghost predicate BuiltOk(d: Disk, built: map<Name, Lineage>, lts: seq<LayerType>) {
    forall n {:trigger Good(d, built, n, lts)} | n in built :: Good(d, built, n, lts)
  }

  ghost predicate Inv(s: Sys, lts: seq<LayerType>) {
    StoreOk(s.disk) && BuiltOk(s.disk, s.built, lts)
  }
}

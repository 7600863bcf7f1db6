/** The overlay backend's state on disk and, as pure functions on that state, what each of its
    operations does to it (pkg/overlay/overlay.go, pkg/overlay/pack.go, pkg/storage/storage.go).
    The class in OverlayStore.dfy performs the operations step by step and is proved to agree
    with these functions; OverlayTheorems.dfy proves what whole runs of them keep. */
module OverlayDisk {
  import opened Wrappers

  type Name = string

  // What one upper directory holds for a path: content, or the whiteout that hides it.
  datatype Entry = Data(content: string) | Whiteout

  // One layer's change, as found in an upper directory.  `map[]` is the empty directory.
  type Diff = map<string, Entry>

  type Tree = map<string, string>

  datatype LayerType = LayerType(filesystem: string, verity: bool)

  // A content digest, identified with the blob it addresses: an encoding of one change in one
  // format.  Equal digests have equal content; encoding the same change twice may give two
  // digests, because tar generation is not deterministic (the salt).
  datatype Digest = Digest(layerType: LayerType, diff: Diff, salt: nat)

  type Manifest = seq<Digest>

  // The salt used for the blob that becomes layer number i of some image in some format.
  type Encoder = (Name, LayerType, nat) -> nat

  datatype Metadata = Metadata(
    manifests: map<LayerType, Manifest>, builtLayers: seq<Name>, hasBuiltOCIOutput: bool)

  const EMPTY_METADATA := Metadata(map[], [], false)

  // An output image: the reference is the layer's name decorated with the format.
  datatype Ref = Ref(name: Name, layerType: LayerType)

  datatype Disk = Disk(
    meta: map<Name, Metadata>,     // roots/<name>/overlay_metadata.json
    upper: map<Name, Diff>,        // roots/<name>/overlay
    store: map<Digest, Diff>,      // roots/sha256_<digest>/overlay, links followed
    images: map<Ref, Manifest>,    // the output OCI layout
    bases: set<Digest>)            // blobs of the base images, layer-bases/oci

  datatype Source = Source(layerType: LayerType, layers: Manifest)

  datatype From = Scratch | Tarball | Image(source: Source) | Built(tag: Name)

  datatype LayerDef = LayerDef(from: From, buildOnly: bool)

  // ----- merged views -----

  function Apply(below: Tree, diff: Diff): Tree {
    map p | p in below.Keys + diff.Keys && (p in diff ==> diff[p].Data?) ::
      if p in diff then diff[p].content else below[p]
  }

  // The filesystem seen through a stack of changes, lowest first.
  function View(stack: seq<Diff>): Tree {
    if stack == [] then map[] else Apply(View(stack[..|stack| - 1]), stack[|stack| - 1])
  }

  function NonEmpty(stack: seq<Diff>): seq<Diff> {
    if stack == [] then []
    else NonEmpty(stack[..|stack| - 1]) + One(stack[|stack| - 1])
  }

  function One(diff: Diff): seq<Diff> {
    if diff == map[] then [] else [diff]
  }

  function Diffs(manifest: Manifest): seq<Diff> {
    seq(|manifest|, i requires 0 <= i < |manifest| => manifest[i].diff)
  }

  function Uppers(d: Disk, names: seq<Name>): seq<Diff>
    requires forall x <- names :: x in d.upper
  {
    seq(|names|, i requires 0 <= i < |names| => d.upper[names[i]])
  }

  // The changes a manifest resolves to through the store.
  function Resolve(d: Disk, manifest: Manifest): seq<Diff>
    requires forall x <- manifest :: x in d.store
  {
    seq(|manifest|, i requires 0 <= i < |manifest| => d.store[manifest[i]])
  }

  // ----- unpacking and snapshots -----

  /** A populated directory is left alone; otherwise the blob must be among the base images. */
  function UnpackOne(d: Disk, x: Digest): Result<Disk> {
    if x in d.store && d.store[x] != map[] then Ok(d)
    else if x in d.bases then Ok(d.(store := d.store[x := x.diff]))
    else Err
  }

  function UnpackLayers(d: Disk, xs: Manifest): Result<Disk> {
    if xs == [] then Ok(d)
    else
      var d' :- UnpackLayers(d, xs[..|xs| - 1]);
      UnpackOne(d', xs[|xs| - 1])
  }

  // Go's range over the manifests map leaves an arbitrary one of them; `pick` says which.
  predicate Picks(m: Metadata, pick: LayerType) {
    m.manifests == map[] || pick in m.manifests
  }

  function Picked(m: Metadata, pick: LayerType): Manifest {
    if pick in m.manifests then m.manifests[pick] else []
  }

  function Snapshot(d: Disk, source: Name, target: Name, pick: LayerType): Result<Disk> {
    if source !in d.meta then Err
    else
      var m := d.meta[source];
      var created := d.(upper := if target in d.upper then d.upper else d.upper[target := map[]]);
      var unpacked :- UnpackLayers(created, Picked(m, pick));
      Ok(unpacked.(meta := unpacked.meta[target := m.(builtLayers := m.builtLayers + [source])]))
  }

  function Delete(d: Disk, name: Name): Disk {
    d.(meta := d.meta - {name}, upper := d.upper - {name})
  }

  function SetupRootfs(d: Disk, name: Name, from: From, pick: LayerType): Result<Disk> {
    var deleted := Delete(d, name);
    match from
    case Built(tag) => Snapshot(deleted, tag, name, pick)
    case Image(source) =>
      var unpacked :- UnpackLayers(deleted, source.layers);
      Ok(unpacked.(upper := unpacked.upper[name := map[]],
                   meta := unpacked.meta[name :=
                     EMPTY_METADATA.(manifests := map[source.layerType := source.layers])]))
    case _ =>
      Ok(deleted.(upper := deleted.upper[name := map[]], meta := deleted.meta[name := EMPTY_METADATA]))
  }

  // ----- the base image that repacking starts from -----

  datatype Start = Fresh | Convert(source: Source) | CopyOf(tag: Name)

  function AddToStore(d: Disk, x: Digest, content: Diff): Disk {
    if x in d.store then d else d.(store := d.store[x := content])
  }

  /** Re-encodes the first `n` layers of a base image and links each new digest to the old content. */
  function ConvertLayers(d: Disk, name: Name, xs: Manifest, lt: LayerType, enc: Encoder, n: nat)
      : Result<(Disk, Manifest)>
    requires n <= |xs|
  {
    if n == 0 then Ok((d, []))
    else
      var (d', ys) :- ConvertLayers(d, name, xs, lt, enc, n - 1);
      var x := xs[n - 1];
      if x !in d'.store then Err
      else
        var y := Digest(lt, d'.store[x], enc(name, lt, n - 1));
        Ok((AddToStore(d', y, d'.store[x]), ys + [y]))
  }

  function SetImage(d: Disk, name: Name, lt: LayerType, manifest: Manifest): Disk {
    d.(images := d.images[Ref(name, lt) := manifest])
  }

  function InitializeBase(d: Disk, name: Name, start: Start, lt: LayerType, enc: Encoder): Result<Disk> {
    match start
    case Fresh => Ok(SetImage(d, name, lt, []))
    case CopyOf(tag) =>
      if Ref(tag, lt) in d.images then Ok(SetImage(d, name, lt, d.images[Ref(tag, lt)])) else Err
    case Convert(source) =>
      if source.layerType == lt then Ok(SetImage(d, name, lt, source.layers))
      else
        var (d', ys) :- ConvertLayers(d, name, source.layers, lt, enc, |source.layers|);
        Ok(SetImage(d', name, lt, ys))
  }

  function InitializeBases(d: Disk, name: Name, start: Start, lts: seq<LayerType>, enc: Encoder): Result<Disk> {
    if lts == [] then Ok(d)
    else
      var d' :- InitializeBases(d, name, start, lts[..|lts| - 1], enc);
      InitializeBase(d', name, start, lts[|lts| - 1], enc)
  }

  // ----- repacking -----

  // The images being built, one manifest per layer type, in the order of the layer types.
  type Mutators = seq<Manifest>

  datatype Generated = Generated(disk: Disk, mutators: Mutators, mutated: bool)

  // The layers a drained directory stands for: the last of each recorded manifest.
  function AddExisting(m: Metadata, lts: seq<LayerType>, muts: Mutators): (r: Mutators)
    requires |muts| == |lts|
  {
    seq(|lts|, i requires 0 <= i < |lts| =>
      if lts[i] in m.manifests && |m.manifests[lts[i]]| > 0
      then muts[i] + [m.manifests[lts[i]][|m.manifests[lts[i]]| - 1]]
      else muts[i])
  }

  function NewDigest(name: Name, diff: Diff, lt: LayerType, mut: Manifest, enc: Encoder): Digest {
    Digest(lt, diff, enc(name, lt, |mut|))
  }

  function AddNew(name: Name, diff: Diff, lts: seq<LayerType>, muts: Mutators, enc: Encoder): (r: Mutators)
    requires |muts| == |lts|
  {
    seq(|lts|, i requires 0 <= i < |lts| => muts[i] + [NewDigest(name, diff, lts[i], muts[i], enc)])
  }

  // Each further layer type's digest becomes a link to the directory of the first.
  function LinkDigests(d: Disk, target: Digest, descs: seq<Digest>): Disk
    requires target in d.store
    ensures target in LinkDigests(d, target, descs).store
  {
    if descs == [] then d
    else
      var d' := LinkDigests(d, target, descs[..|descs| - 1]);
      AddToStore(d', descs[|descs| - 1], d'.store[target])
  }

  function Lasts(muts: Mutators): seq<Digest>
    requires forall m <- muts :: |m| > 0
  {
    seq(|muts|, i requires 0 <= i < |muts| => muts[i][|muts[i]| - 1])
  }

  function GenerateLayer(d: Disk, name: Name, lts: seq<LayerType>, muts: Mutators, enc: Encoder): Result<Generated>
    requires |muts| == |lts| > 0
  {
    if name !in d.upper then Err
    else if d.upper[name] == map[] then
      if name !in d.meta then Err
      else if d.meta[name].hasBuiltOCIOutput then Ok(Generated(d, AddExisting(d.meta[name], lts, muts), true))
      else Ok(Generated(d, muts, false))
    else
      var diff := d.upper[name];
      var muts' := AddNew(name, diff, lts, muts, enc);
      var descs := Lasts(muts');
      var renamed := AddToStore(d, descs[0], diff);
      var emptied := renamed.(upper := renamed.upper[name := map[]]);
      Ok(Generated(LinkDigests(emptied, descs[0], descs[1..]), muts', true))
  }

  // Records the images as they stand now as the manifests of a layer.
  function Recorded(m: Metadata, lts: seq<LayerType>, muts: Mutators): Metadata
    requires |muts| == |lts|
  {
    if lts == [] then m
    else
      var m' := Recorded(m, lts[..|lts| - 1], muts[..|muts| - 1]);
      m'.(manifests := m'.manifests[lts[|lts| - 1] := muts[|muts| - 1]])
  }

  /** One pass of the loop over the layers not yet rendered: generate, and note it in the
      layer's own metadata. */
  function RenderBuilt(d: Disk, name: Name, lts: seq<LayerType>, muts: Mutators, enc: Encoder): Result<Generated>
    requires |muts| == |lts| > 0
  {
    var g :- GenerateLayer(d, name, lts, muts, enc);
    if !g.mutated then Ok(g)
    else if name !in g.disk.meta then Err
    else
      var m := Recorded(g.disk.meta[name], lts, g.mutators).(hasBuiltOCIOutput := true);
      Ok(g.(disk := g.disk.(meta := g.disk.meta[name := m])))
  }

  function RenderAll(d: Disk, names: seq<Name>, lts: seq<LayerType>, muts: Mutators, enc: Encoder): (r: Result<Generated>)
    requires |muts| == |lts| > 0
    ensures r.Ok? ==> |r.value.mutators| == |lts|
  {
    if names == [] then Ok(Generated(d, muts, false))
    else
      var g :- RenderAll(d, names[..|names| - 1], lts, muts, enc);
      var g' :- RenderBuilt(g.disk, names[|names| - 1], lts, g.mutators, enc);
      Ok(g'.(mutated := g.mutated || g'.mutated))
  }

  predicate HasImages(d: Disk, name: Name, lts: seq<LayerType>) {
    forall lt <- lts :: Ref(name, lt) in d.images
  }

  function Images(d: Disk, name: Name, lts: seq<LayerType>): Mutators
    requires HasImages(d, name, lts)
  {
    seq(|lts|, i requires 0 <= i < |lts| => d.images[Ref(name, lts[i])])
  }

  function Commit(d: Disk, name: Name, lts: seq<LayerType>, muts: Mutators): Disk
    requires |muts| == |lts|
  {
    if lts == [] then d
    else SetImage(Commit(d, name, lts[..|lts| - 1], muts[..|muts| - 1]), name, lts[|lts| - 1], muts[|muts| - 1])
  }

  function RepackOverlay(d: Disk, name: Name, lts: seq<LayerType>, enc: Encoder): Result<Disk>
    requires |lts| > 0
  {
    if name !in d.meta || !HasImages(d, name, lts) then Err
    else
      var m := d.meta[name];
      var g :- RenderAll(d, m.builtLayers, lts, Images(d, name, lts), enc);
      var written := g.disk.(meta := g.disk.meta[name := m]);
      var own :- GenerateLayer(written, name, lts, g.mutators, enc);
      if !own.mutated && !g.mutated then Ok(own.disk)
      else
        var committed := Commit(own.disk, name, lts, own.mutators);
        Ok(committed.(meta := committed.meta[name := Recorded(EMPTY_METADATA, lts, own.mutators)]))
  }

  function Repack(d: Disk, name: Name, start: Start, lts: seq<LayerType>, enc: Encoder): Result<Disk>
    requires |lts| > 0
  {
    var d' :- InitializeBases(d, name, start, lts, enc);
    RepackOverlay(d', name, lts, enc)
  }

  // ----- mounting -----

  /** The stack a container for `name` is mounted on, lowest first, its own upper directory last. */
  function MountStack(d: Disk, name: Name, pick: LayerType): seq<Diff>
    requires name in d.meta && name in d.upper
    requires forall x <- d.meta[name].builtLayers :: x in d.upper
  {
    Diffs(Picked(d.meta[name], pick)) + Uppers(d, d.meta[name].builtLayers) + [d.upper[name]]
  }
}

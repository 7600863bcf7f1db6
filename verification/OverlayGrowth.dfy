/** What building a layer leaves of the disk whatever state its base is in: the store only grows, no
    other layer's image moves, and only the layers its base lists may be drained or rewritten. */
module OverlayGrowth {
  import opened Wrappers
  import opened OverlayDisk
  import opened OverlayRuns
  import opened OverlayProofs
  import opened OverlaySteps
  import opened OverlayMounts

  /** The store stays in order and grows, and the images of other layers stay. */
  ghost predicate Grows(d: Disk, d': Disk, name: Name) {
    && StoreOk(d') && Extends(d, d') && d'.bases == d.bases
    && forall ref <- d.images :: ref.name != name ==> ref in d'.images && d'.images[ref] == d.images[ref]
  }

  lemma GrowsTwice(d: Disk, d': Disk, d'': Disk, name: Name)
    requires Grows(d, d', name) && Grows(d', d'', name)
    ensures Grows(d, d'', name)
  {
  }

  lemma {:induction false} UnpackImages(d: Disk, xs: Manifest)
    requires UnpackLayers(d, xs).Ok?
    ensures UnpackLayers(d, xs).value.images == d.images
  {
    if xs != [] {
      UnpackImages(d, xs[..|xs| - 1]);
    }
  }

  lemma SetupGrows(d: Disk, name: Name, from: From, pick: LayerType)
    requires StoreOk(d) && SetupRootfs(d, name, from, pick).Ok?
    ensures Grows(d, SetupRootfs(d, name, from, pick).value, name)
    ensures SetupRootfs(d, name, from, pick).value.images == d.images
  {
    var deleted := Delete(d, name);
    match from
    case Image(source) =>
      UnpackedOk(deleted, source.layers);
      UnpackImages(deleted, source.layers);
    case Built(tag) =>
      var created := deleted.(upper := if name in deleted.upper then deleted.upper else deleted.upper[name := map[]]);
      UnpackedOk(created, Picked(deleted.meta[tag], pick));
      UnpackImages(created, Picked(deleted.meta[tag], pick));
    case _ =>
  }

  // ----- the images to start from -----

  lemma {:induction false} ConvertGrows(d: Disk, name: Name, xs: Manifest, lt: LayerType, enc: Encoder, n: nat)
    requires StoreOk(d) && n <= |xs| && ConvertLayers(d, name, xs, lt, enc, n).Ok?
    ensures var d' := ConvertLayers(d, name, xs, lt, enc, n).value.0;
      StoreOk(d') && Extends(d, d') && d' == d.(store := d'.store)
  {
    if n > 0 {
      ConvertGrows(d, name, xs, lt, enc, n - 1);
    }
  }

  lemma StartGrows(d: Disk, name: Name, start: Start, lt: LayerType, enc: Encoder)
    requires StoreOk(d) && InitializeBase(d, name, start, lt, enc).Ok?
    ensures var d' := InitializeBase(d, name, start, lt, enc).value;
      && Grows(d, d', name) && Ref(name, lt) in d'.images && d.images.Keys <= d'.images.Keys
      && d'.meta == d.meta && d'.upper == d.upper
  {
    if start.Convert? && start.source.layerType != lt {
      ConvertGrows(d, name, start.source.layers, lt, enc, |start.source.layers|);
    }
  }

  lemma {:induction false} StartsGrow(d: Disk, name: Name, start: Start, lts: seq<LayerType>, enc: Encoder)
    requires StoreOk(d) && InitializeBases(d, name, start, lts, enc).Ok?
    ensures var d' := InitializeBases(d, name, start, lts, enc).value;
      Grows(d, d', name) && HasImages(d', name, lts) && d'.meta == d.meta && d'.upper == d.upper
  {
    if lts != [] {
      var before, lt := lts[..|lts| - 1], lts[|lts| - 1];
      StartsGrow(d, name, start, before, enc);
      var d0 := InitializeBases(d, name, start, before, enc).value;
      StartGrows(d0, name, start, lt, enc);
      GrowsTwice(d, d0, InitializeBases(d, name, start, lts, enc).value, name);
      assert lts == before + [lt];
    }
  }

  // ----- rendering -----

  lemma NewDigestsHold(name: Name, diff: Diff, lts: seq<LayerType>, muts: Mutators, enc: Encoder)
    requires |muts| == |lts| > 0
    ensures var descs := Lasts(AddNew(name, diff, lts, muts, enc)); |descs| == |lts| && forall x <- descs :: x.diff == diff
  {
  }

  lemma LinkedGrows(d: Disk, name: Name, diff: Diff, descs: seq<Digest>, of: Name)
    requires StoreOk(d) && |descs| > 0 && forall x <- descs :: x.diff == diff
    ensures var renamed := AddToStore(d, descs[0], diff);
      var d' := LinkDigests(renamed.(upper := renamed.upper[name := map[]]), descs[0], descs[1..]);
      Grows(d, d', of) && d'.images == d.images
  {
    var renamed := AddToStore(d, descs[0], diff);
    LinkDigestsAt(renamed.(upper := renamed.upper[name := map[]]), descs[0], descs[1..]);
  }

  lemma GenerateGrows(d: Disk, name: Name, lts: seq<LayerType>, muts: Mutators, enc: Encoder, of: Name)
    requires StoreOk(d) && |muts| == |lts| > 0 && GenerateLayer(d, name, lts, muts, enc).Ok?
    ensures var g := GenerateLayer(d, name, lts, muts, enc).value;
      Grows(d, g.disk, of) && g.disk.images == d.images && |g.mutators| == |lts|
  {
    if d.upper[name] != map[] {
      var diff := d.upper[name];
      NewDigestsHold(name, diff, lts, muts, enc);
      LinkedGrows(d, name, diff, Lasts(AddNew(name, diff, lts, muts, enc)), of);
    }
  }

  lemma {:induction false} RenderGrows(d: Disk, names: seq<Name>, lts: seq<LayerType>, muts: Mutators, enc: Encoder, of: Name)
    requires StoreOk(d) && |muts| == |lts| > 0 && RenderAll(d, names, lts, muts, enc).Ok?
    ensures var g := RenderAll(d, names, lts, muts, enc).value;
      Grows(d, g.disk, of) && g.disk.images == d.images
  {
    if names != [] {
      var pre, name := names[..|names| - 1], names[|names| - 1];
      RenderGrows(d, pre, lts, muts, enc, of);
      var g := RenderAll(d, pre, lts, muts, enc).value;
      GenerateGrows(g.disk, name, lts, g.mutators, enc, of);
    }
  }

  lemma {:induction false} CommitGrows(d: Disk, name: Name, lts: seq<LayerType>, muts: Mutators)
    requires |muts| == |lts|
    ensures var r := Commit(d, name, lts, muts);
      && r == d.(images := r.images) && d.images.Keys <= r.images.Keys
      && (forall ref <- d.images :: ref.name != name ==> ref in r.images && r.images[ref] == d.images[ref])
  {
    if lts != [] {
      CommitGrows(d, name, lts[..|lts| - 1], muts[..|muts| - 1]);
    }
  }

  lemma OverlayGrows(d: Disk, name: Name, lts: seq<LayerType>, enc: Encoder)
    requires StoreOk(d) && |lts| > 0 && RepackOverlay(d, name, lts, enc).Ok?
    ensures var d' := RepackOverlay(d, name, lts, enc).value;
      Grows(d, d', name) && HasImages(d', name, lts)
  {
    var m, muts := d.meta[name], Images(d, name, lts);
    RenderGrows(d, m.builtLayers, lts, muts, enc, name);
    var g := RenderAll(d, m.builtLayers, lts, muts, enc).value;
    var written := g.disk.(meta := g.disk.meta[name := m]);
    GenerateGrows(written, name, lts, g.mutators, enc, name);
    var own := GenerateLayer(written, name, lts, g.mutators, enc).value;
    CommitGrows(own.disk, name, lts, own.mutators);
    GrowsTwice(d, written, own.disk, name);
  }

  lemma RepackGrows(d: Disk, name: Name, start: Start, lts: seq<LayerType>, enc: Encoder)
    requires StoreOk(d) && |lts| > 0 && Repack(d, name, start, lts, enc).Ok?
    ensures var d' := Repack(d, name, start, lts, enc).value;
      Grows(d, d', name) && HasImages(d', name, lts)
  {
    StartsGrow(d, name, start, lts, enc);
    var d0 := InitializeBases(d, name, start, lts, enc).value;
    OverlayGrows(d0, name, lts, enc);
    GrowsTwice(d, d0, Repack(d, name, start, lts, enc).value, name);
  }

  // ----- the layers that a build does not touch -----

  /** Metadata and directories of all other layers stay. */
  ghost predicate Apart(d: Disk, d': Disk, names: set<Name>) {
    && (forall n <- d.meta :: n !in names ==> n in d'.meta && d'.meta[n] == d.meta[n])
    && (forall n <- d.upper :: n !in names ==> n in d'.upper && d'.upper[n] == d.upper[n])
  }

  lemma ApartTwice(d: Disk, d': Disk, d'': Disk, names: set<Name>, more: set<Name>)
    requires Apart(d, d', names) && Apart(d', d'', more)
    ensures Apart(d, d'', names + more)
  {
  }

  /** What repacking a layer may change once it is set up: the layer and those its base lists. */
  function Touched(d: Disk, step: Step): set<Name> {
    {step.name} +
    match step.def.from
    case Built(tag) => if tag in d.meta && !step.def.buildOnly then (set x | x in Listed(d, tag)) else {}
    case _ => {}
  }

  lemma SetupApart(d: Disk, name: Name, from: From, pick: LayerType)
    requires StoreOk(d) && SetupRootfs(d, name, from, pick).Ok?
    ensures var d' := SetupRootfs(d, name, from, pick).value;
      && Apart(d, d', {name}) && name in d'.meta && name in d'.upper
      && (from.Built? ==> from.tag in d.meta && from.tag != name)
      && d'.meta[name].builtLayers == if from.Built? then Listed(d, from.tag) else []
  {
    match from
    case Built(tag) => SnapshotShape(d, tag, name, pick);
    case Image(source) => UnpackedOk(Delete(d, name), source.layers);
    case _ =>
  }

  /** A repack renders the layers listed, generates the layer's own and commits. */
  lemma OverlayParts(d: Disk, name: Name, lts: seq<LayerType>, enc: Encoder) returns (g: Generated, own: Generated)
    requires |lts| > 0 && RepackOverlay(d, name, lts, enc).Ok?
    ensures name in d.meta && HasImages(d, name, lts)
    ensures RenderAll(d, d.meta[name].builtLayers, lts, Images(d, name, lts), enc) == Ok(g) && |g.mutators| == |lts|
    ensures GenerateLayer(g.disk.(meta := g.disk.meta[name := d.meta[name]]), name, lts, g.mutators, enc) == Ok(own)
    ensures var d' := RepackOverlay(d, name, lts, enc).value;
      d'.upper == own.disk.upper && forall k <- own.disk.meta :: k != name ==> k in d'.meta && d'.meta[k] == own.disk.meta[k]
  {
    var m := d.meta[name];
    g := RenderAll(d, m.builtLayers, lts, Images(d, name, lts), enc).value;
    var written := g.disk.(meta := g.disk.meta[name := m]);
    own := GenerateLayer(written, name, lts, g.mutators, enc).value;
    CommitGrows(own.disk, name, lts, own.mutators);
  }

  lemma ApartInSteps(d: Disk, g: Disk, written: Disk, own: Disk, d': Disk, name: Name, names: seq<Name>)
    requires Touches(d, g, names) && Touches(written, own, [name])
    requires written.upper == g.upper && forall k <- g.meta :: k != name ==> k in written.meta && written.meta[k] == g.meta[k]
    requires d'.upper == own.upper && forall k <- own.meta :: k != name ==> k in d'.meta && d'.meta[k] == own.meta[k]
    ensures Apart(d, d', {name} + set x | x in names)
  {
  }

  lemma OverlayApart(d: Disk, name: Name, lts: seq<LayerType>, enc: Encoder)
    requires |lts| > 0 && RepackOverlay(d, name, lts, enc).Ok?
    ensures name in d.meta && Apart(d, RepackOverlay(d, name, lts, enc).value, {name} + set x | x in d.meta[name].builtLayers)
  {
    var g, own := OverlayParts(d, name, lts, enc);
    var names, written := d.meta[name].builtLayers, g.disk.(meta := g.disk.meta[name := d.meta[name]]);
    RenderTouches(d, names, lts, Images(d, name, lts), enc);
    GenerateTouches(written, name, lts, g.mutators, enc);
    ApartInSteps(d, g.disk, written, own.disk, RepackOverlay(d, name, lts, enc).value, name, names);
  }

  /** Building a layer on a base in whatever state. */
  lemma BuildApart(d: Disk, step: Step, start: Start, lts: seq<LayerType>)
    requires StoreOk(d) && |lts| > 0 && BuildLayer(d, step, start, lts).Ok?
    ensures var d' := BuildLayer(d, step, start, lts).value;
      && Grows(d, d', step.name) && Apart(d, d', Touched(d, step))
      && if step.def.buildOnly then d'.images == d.images else HasImages(d', step.name, lts)
  {
    SetupGrows(d, step.name, step.def.from, step.pick);
    SetupApart(d, step.name, step.def.from, step.pick);
    var ran := RunContainer(SetupRootfs(d, step.name, step.def.from, step.pick).value, step.name, step.own);
    if !step.def.buildOnly {
      RepackGrows(ran, step.name, start, lts, step.enc);
      StartsGrow(ran, step.name, start, lts, step.enc);
      var ready := InitializeBases(ran, step.name, start, lts, step.enc).value;
      OverlayApart(ready, step.name, lts, step.enc);
      ApartTwice(d, ran, BuildLayer(d, step, start, lts).value, {step.name}, Touched(d, step));
    }
  }

  function Outside(built: map<Name, Lineage>, names: set<Name>): map<Name, Lineage> {
    map k | k in built && names !! Names(built[k]) :: built[k]
  }

  lemma LayerApart(d: Disk, d': Disk, l: Lineage, name: Name, names: set<Name>, lts: seq<LayerType>)
    requires LayerOk(d, l, lts) && Grows(d, d', name) && Apart(d, d', names) && name in names && names !! Names(l)
    ensures LayerOk(d', l, lts)
  {
    NameInNames(l);
    if l.Child? {
      NameInNames(l.base);
    }
    MetaKept(d, d', d.meta[l.name], lts);
    if !l.buildOnly {
      ImagesKept(d, d', l, lts);
    }
  }

  lemma BuiltApart(d: Disk, d': Disk, built: map<Name, Lineage>, name: Name, names: set<Name>, lts: seq<LayerType>)
    requires BuiltOk(d, built, lts) && Grows(d, d', name) && Apart(d, d', names) && name in names
    ensures BuiltOk(d', Outside(built, names), lts)
  {
    var kept := Outside(built, names);
    forall k | k in kept ensures Good(d', kept, k, lts) {
      assert Good(d, built, k, lts);
      if built[k].Child? {
        NameInNames(built[k].base);
      }
      LayerApart(d, d', built[k], name, names, lts);
    }
  }

  lemma MountsApart(d: Disk, d': Disk, built: map<Name, Lineage>, names: set<Name>, lts: seq<LayerType>)
    requires BuiltOk(d, built, lts) && Apart(d, d', names) && MountsSound(d, built)
    ensures MountsSound(d', Outside(built, names))
  {
    var kept := Outside(built, names);
    forall k | k in kept && Clean(kept[k]) ensures Sound(d', kept[k]) {
      assert Good(d, built, k, lts);
      BuiltMountable(d, built, built[k], lts);
      NameInNames(built[k]);
      SameMount(d, d', built[k]);
    }
  }
}

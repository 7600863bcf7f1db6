/** The overlay backend as the program runs it: fields updated in place, loops over layers and
    layer types.  Every method is proved to do what the function of the same name in OverlayDisk
    says whenever it returns without error. */
module OverlayStore {
  import opened Wrappers
  import opened OverlayDisk
  import opened OverlayRuns

  class Overlay {
    var meta: map<Name, Metadata>
    var upper: map<Name, Diff>
    var store: map<Digest, Diff>
    var images: map<Ref, Manifest>
    const bases: set<Digest>

    constructor (bases: set<Digest>)
      ensures Now() == Initial(bases).disk
    {
      this.bases := bases;
      meta, upper, store, images := map[], map[], map[], map[];
    }

    function Now(): Disk
      reads this
    {
      Disk(meta, upper, store, images, bases)
    }

    method UnpackOne(x: Digest) returns (ok: bool)
      modifies this`store
      ensures ok <==> OverlayDisk.UnpackOne(old(Now()), x).Ok?
      ensures Now() == if ok then OverlayDisk.UnpackOne(old(Now()), x).value else old(Now())
    {
      if x in store && store[x] != map[] {
        return true;
      }
      if x !in bases {
        return false;
      }
      store := store[x := x.diff];
      return true;
    }

    /** Repeated digests are unpacked once; the result is as if every layer had been unpacked in turn. */
    method UnpackDistinct(xs: Manifest) returns (ok: bool)
      modifies this`store
      ensures ok <==> UnpackLayers(old(Now()), xs).Ok?
      ensures ok ==> Now() == UnpackLayers(old(Now()), xs).value
    {
      var seen: set<Digest> := {};
      for i := 0 to |xs|
        invariant seen == set x | x in xs[..i]
        invariant UnpackLayers(old(Now()), xs[..i]) == Ok(Now())
        invariant forall x <- seen :: Settled(Now(), x)
      {
        assert xs[..i + 1][..i] == xs[..i] && xs[..i + 1][i] == xs[i];
        if xs[i] !in seen {
          var unpacked := UnpackOne(xs[i]);
          if !unpacked {
            UnpackFails(old(Now()), xs, i + 1);
            return false;
          }
          seen := seen + {xs[i]};
        } else {
          SettledStays(Now(), xs[i]);
        }
      }
      assert xs[..|xs|] == xs;
      return true;
    }

    method Unpack(name: Name, source: Source) returns (ok: bool)
      modifies this
      ensures ok <==> UnpackLayers(old(Now()), source.layers).Ok?
      ensures ok ==>
        var d := UnpackLayers(old(Now()), source.layers).value;
        Now() == d.(upper := if name in d.upper then d.upper else d.upper[name := map[]],
                    meta := d.meta[name := EMPTY_METADATA.(manifests := map[source.layerType := source.layers])])
    {
      ok := UnpackDistinct(source.layers);
      if ok {
        Create(name);
        meta := meta[name := EMPTY_METADATA.(manifests := map[source.layerType := source.layers])];
      }
    }

    method Create(name: Name)
      modifies this`upper
      ensures upper == if name in old(upper) then old(upper) else old(upper)[name := map[]]
    {
      if name !in upper {
        upper := upper[name := map[]];
      }
    }

    method Snapshot(source: Name, target: Name, pick: LayerType) returns (ok: bool)
      modifies this
      ensures ok <==> OverlayDisk.Snapshot(old(Now()), source, target, pick).Ok?
      ensures ok ==> Now() == OverlayDisk.Snapshot(old(Now()), source, target, pick).value
    {
      Create(target);
      if source !in meta {
        return false;
      }
      var m := meta[source];
      var layers := Picked(m, pick);
      ghost var created := Now();
      for i := 0 to |layers|
        invariant UnpackLayers(created, layers[..i]) == Ok(Now())
      {
        assert layers[..i + 1][..i] == layers[..i] && layers[..i + 1][i] == layers[i];
        var unpacked := UnpackOne(layers[i]);
        if !unpacked {
          UnpackFails(created, layers, i + 1);
          return false;
        }
      }
      assert layers[..|layers|] == layers;
      meta := meta[target := m.(builtLayers := m.builtLayers + [source])];
      return true;
    }

    method SetupRootfs(name: Name, from: From, pick: LayerType) returns (ok: bool)
      modifies this
      ensures ok <==> OverlayDisk.SetupRootfs(old(Now()), name, from, pick).Ok?
      ensures ok ==> Now() == OverlayDisk.SetupRootfs(old(Now()), name, from, pick).value
    {
      meta, upper := meta - {name}, upper - {name};
      match from {
        case Built(tag) => ok := Snapshot(tag, name, pick);
        case Image(source) =>
          UnpackKeepsUpper(Now(), source.layers);
          ok := Unpack(name, source);
        case _ =>
          Create(name);
          meta := meta[name := EMPTY_METADATA];
          ok := true;
      }
    }

    // ----- the base image -----

    method ConvertAndOutput(name: Name, source: Source, lt: LayerType, enc: Encoder) returns (ok: bool)
      modifies this
      ensures ok <==> ConvertLayers(old(Now()), name, source.layers, lt, enc, |source.layers|).Ok?
      ensures ok ==>
        var (d, ys) := ConvertLayers(old(Now()), name, source.layers, lt, enc, |source.layers|).value;
        Now() == SetImage(d, name, lt, ys)
    {
      var xs := source.layers;
      var manifest: Manifest := [];
      for i := 0 to |xs|
        invariant ConvertLayers(old(Now()), name, xs, lt, enc, i) == Ok((Now(), manifest))
      {
        if xs[i] !in store {
          ConvertFails(old(Now()), name, xs, lt, enc, i + 1);
          return false;
        }
        var y := Digest(lt, store[xs[i]], enc(name, lt, i));
        if y !in store {
          store := store[y := store[xs[i]]];
        }
        manifest := manifest + [y];
      }
      images := images[Ref(name, lt) := manifest];
      return true;
    }

    method InitializeBases(name: Name, start: Start, lts: seq<LayerType>, enc: Encoder) returns (ok: bool)
      modifies this
      ensures ok <==> OverlayDisk.InitializeBases(old(Now()), name, start, lts, enc).Ok?
      ensures ok ==> Now() == OverlayDisk.InitializeBases(old(Now()), name, start, lts, enc).value
    {
      for i := 0 to |lts|
        invariant OverlayDisk.InitializeBases(old(Now()), name, start, lts[..i], enc) == Ok(Now())
      {
        assert lts[..i + 1][..i] == lts[..i] && lts[..i + 1][i] == lts[i];
        var lt := lts[i];
        ok := true;
        match start {
          case Fresh => images := images[Ref(name, lt) := []];
          case CopyOf(tag) =>
            if Ref(tag, lt) in images {
              images := images[Ref(name, lt) := images[Ref(tag, lt)]];
            } else {
              ok := false;
            }
          case Convert(source) =>
            if source.layerType == lt {
              images := images[Ref(name, lt) := source.layers];
            } else {
              ok := ConvertAndOutput(name, source, lt, enc);
            }
        }
        if !ok {
          BasesFail(old(Now()), name, start, lts, enc, i + 1);
          return;
        }
      }
      assert lts[..|lts|] == lts;
      ok := true;
    }

    // ----- repacking -----

    /** The layer that was generated for a drained directory before is taken from its metadata. */
    method AddAgain(m: Metadata, lts: seq<LayerType>, muts: Mutators) returns (muts': Mutators)
      requires |muts| == |lts|
      ensures muts' == AddExisting(m, lts, muts)
    {
      muts' := muts;
      for i := 0 to |lts|
        invariant |muts'| == |lts|
        invariant forall j :: 0 <= j < i ==> muts'[j] == AddExisting(m, lts, muts)[j]
        invariant forall j :: i <= j < |lts| ==> muts'[j] == muts[j]
      {
        if lts[i] in m.manifests && |m.manifests[lts[i]]| > 0 {
          var manifest := m.manifests[lts[i]];
          muts' := muts'[i := muts'[i] + [manifest[|manifest| - 1]]];
        }
      }
    }

    method Encode(name: Name, diff: Diff, lts: seq<LayerType>, muts: Mutators, enc: Encoder)
      returns (muts': Mutators, descs: seq<Digest>)
      requires |muts| == |lts|
      ensures muts' == AddNew(name, diff, lts, muts, enc) && descs == Lasts(muts')
    {
      muts', descs := muts, [];
      for i := 0 to |lts|
        invariant |muts'| == |lts| && |descs| == i
        invariant forall j :: 0 <= j < i ==> muts'[j] == AddNew(name, diff, lts, muts, enc)[j]
        invariant forall j :: 0 <= j < i ==> descs[j] == NewDigest(name, diff, lts[j], muts[j], enc)
        invariant forall j :: i <= j < |lts| ==> muts'[j] == muts[j]
      {
        var desc := NewDigest(name, diff, lts[i], muts'[i], enc);
        muts' := muts'[i := muts'[i] + [desc]];
        descs := descs + [desc];
      }
    }

    method Link(descs: seq<Digest>)
      requires |descs| > 0 && descs[0] in store
      modifies this`store
      ensures Now() == LinkDigests(old(Now()), descs[0], descs[1..])
    {
      for i := 1 to |descs|
        invariant descs[0] in store
        invariant LinkDigests(old(Now()), descs[0], descs[1..i]) == Now()
      {
        assert descs[1..i + 1][..i - 1] == descs[1..i] && descs[1..i + 1][i - 1] == descs[i];
        if descs[i] !in store {
          store := store[descs[i] := store[descs[0]]];
        }
      }
      assert descs[1..|descs|] == descs[1..];
    }

    method GenerateLayer(name: Name, lts: seq<LayerType>, muts: Mutators, enc: Encoder)
      returns (ok: bool, muts': Mutators, mutated: bool)
      requires |muts| == |lts| > 0
      modifies this
      ensures ok <==> OverlayDisk.GenerateLayer(old(Now()), name, lts, muts, enc).Ok?
      ensures ok ==> OverlayDisk.GenerateLayer(old(Now()), name, lts, muts, enc) == Ok(Generated(Now(), muts', mutated))
    {
      if name !in upper {
        return false, muts, false;
      }
      if upper[name] == map[] {
        if name !in meta {
          return false, muts, false;
        }
        if !meta[name].hasBuiltOCIOutput {
          return true, muts, false;
        }
        muts' := AddAgain(meta[name], lts, muts);
        return true, muts', true;
      }
      var descs;
      muts', descs := Encode(name, upper[name], lts, muts, enc);
      // the rename fails when the target exists, and then the directory is removed instead
      if descs[0] !in store {
        store := store[descs[0] := upper[name]];
      }
      upper := upper[name := map[]];
      Link(descs);
      return true, muts', true;
    }

    method RecordManifests(m: Metadata, lts: seq<LayerType>, muts: Mutators) returns (m': Metadata)
      requires |muts| == |lts|
      ensures m' == Recorded(m, lts, muts)
    {
      m' := m;
      for i := 0 to |lts|
        invariant m' == Recorded(m, lts[..i], muts[..i])
      {
        assert lts[..i + 1][..i] == lts[..i] && muts[..i + 1][..i] == muts[..i];
        m' := m'.(manifests := m'.manifests[lts[i] := muts[i]]);
      }
      assert lts[..|lts|] == lts && muts[..|muts|] == muts;
    }

    method RenderBuilt(name: Name, lts: seq<LayerType>, muts: Mutators, enc: Encoder)
      returns (ok: bool, muts': Mutators, mutated: bool)
      requires |muts| == |lts| > 0
      modifies this
      ensures ok <==> OverlayDisk.RenderBuilt(old(Now()), name, lts, muts, enc).Ok?
      ensures ok ==> OverlayDisk.RenderBuilt(old(Now()), name, lts, muts, enc) == Ok(Generated(Now(), muts', mutated))
    {
      ok, muts', mutated := GenerateLayer(name, lts, muts, enc);
      if ok && mutated {
        if name !in meta {
          return false, muts', mutated;
        }
        var m := RecordManifests(meta[name], lts, muts');
        meta := meta[name := m.(hasBuiltOCIOutput := true)];
      }
    }

    /** Generate blobs for each layer not yet rendered. */
    method RenderAll(built: seq<Name>, lts: seq<LayerType>, first: Mutators, enc: Encoder)
      returns (ok: bool, muts: Mutators, mutated: bool)
      requires |first| == |lts| > 0
      modifies this
      ensures ok <==> OverlayDisk.RenderAll(old(Now()), built, lts, first, enc).Ok?
      ensures ok ==> OverlayDisk.RenderAll(old(Now()), built, lts, first, enc) == Ok(Generated(Now(), muts, mutated))
    {
      muts, mutated := first, false;
      for k := 0 to |built|
        invariant OverlayDisk.RenderAll(old(Now()), built[..k], lts, first, enc) == Ok(Generated(Now(), muts, mutated))
      {
        assert built[..k + 1][..k] == built[..k] && built[..k + 1][k] == built[k];
        var generated, muts', didMutate := RenderBuilt(built[k], lts, muts, enc);
        if !generated {
          RenderFails(old(Now()), built, lts, first, enc, k + 1);
          return false, muts, mutated;
        }
        if didMutate {
          mutated := true;
        }
        muts := muts';
      }
      assert built[..|built|] == built;
      ok := true;
    }

    method OpenImages(name: Name, lts: seq<LayerType>) returns (ok: bool, muts: Mutators)
      ensures ok <==> HasImages(Now(), name, lts)
      ensures ok ==> muts == Images(Now(), name, lts)
    {
      muts := [];
      for i := 0 to |lts|
        invariant |muts| == i
        invariant forall j :: 0 <= j < i ==> Ref(name, lts[j]) in images && muts[j] == images[Ref(name, lts[j])]
      {
        if Ref(name, lts[i]) !in images {
          return false, muts;
        }
        muts := muts + [images[Ref(name, lts[i])]];
      }
      ok := true;
    }

    method CommitAll(name: Name, lts: seq<LayerType>, muts: Mutators)
      requires |muts| == |lts|
      modifies this`images
      ensures Now() == Commit(old(Now()), name, lts, muts)
    {
      for i := 0 to |lts|
        invariant Now() == Commit(old(Now()), name, lts[..i], muts[..i])
      {
        assert lts[..i + 1][..i] == lts[..i] && muts[..i + 1][..i] == muts[..i];
        images := images[Ref(name, lts[i]) := muts[i]];
      }
      assert lts[..|lts|] == lts && muts[..|muts|] == muts;
    }

    method RepackOverlay(name: Name, lts: seq<LayerType>, enc: Encoder) returns (ok: bool)
      requires |lts| > 0
      modifies this
      ensures ok <==> OverlayDisk.RepackOverlay(old(Now()), name, lts, enc).Ok?
      ensures ok ==> Now() == OverlayDisk.RepackOverlay(old(Now()), name, lts, enc).value
    {
      if name !in meta {
        return false;
      }
      var ovl := meta[name];
      var found, muts := OpenImages(name, lts);
      if !found {
        return false;
      }
      var rendered, muts', mutated := RenderAll(ovl.builtLayers, lts, muts, enc);
      if !rendered {
        return false;
      }
      meta := meta[name := ovl];
      var generated, muts'', didMutate := GenerateLayer(name, lts, muts', enc);
      if !generated {
        return false;
      }
      if !didMutate && !mutated {
        return true;
      }
      CommitAll(name, lts, muts'');
      var m := RecordManifests(EMPTY_METADATA, lts, muts'');
      meta := meta[name := m];
      return true;
    }

    method Repack(name: Name, lts: seq<LayerType>, sfm: map<Name, LayerDef>, enc: Encoder, ghost rank: map<Name, nat>)
      returns (ok: bool)
      requires |lts| > 0 && Ranked(sfm, rank)
      modifies this
      ensures ok <==>
        var start := StartFor(name, FirstBase(sfm, rank, name));
        start.Ok? && OverlayDisk.Repack(old(Now()), name, start.value, lts, enc).Ok?
      ensures ok ==>
        var start := StartFor(name, FirstBase(sfm, rank, name)).value;
        Now() == OverlayDisk.Repack(old(Now()), name, start, lts, enc).value
    {
      var first := FindFirstBaseInOutput(name, sfm, rank);
      var start := StartFor(name, first);
      if start.Err? {
        return false;
      }
      ok := InitializeBases(name, start.value, lts, enc);
      if ok {
        ok := RepackOverlay(name, lts, enc);
      }
    }
  }

  /** Unpacking the digest again would change nothing. */
  predicate Settled(d: Disk, x: Digest) {
    x in d.store && (d.store[x] != map[] || (x in d.bases && d.store[x] == x.diff))
  }

  lemma SettledStays(d: Disk, x: Digest)
    requires Settled(d, x)
    ensures OverlayDisk.UnpackOne(d, x) == Ok(d)
  {
    if d.store[x] == map[] {
      assert d.store[x := x.diff] == d.store;
    }
  }

  // ----- an error in a prefix is an error of the whole -----

  lemma UnpackFails(d: Disk, xs: Manifest, n: nat)
    requires n <= |xs| && UnpackLayers(d, xs[..n]).Err?
    ensures UnpackLayers(d, xs).Err?
    decreases |xs| - n
  {
    if n < |xs| {
      assert xs[..n + 1][..n] == xs[..n];
      UnpackFails(d, xs, n + 1);
    } else {
      assert xs[..n] == xs;
    }
  }

  lemma UnpackKeepsUpper(d: Disk, xs: Manifest)
    ensures UnpackLayers(d, xs).Ok? ==> UnpackLayers(d, xs).value == d.(store := UnpackLayers(d, xs).value.store)
  {
  }

  lemma ConvertFails(d: Disk, name: Name, xs: Manifest, lt: LayerType, enc: Encoder, n: nat)
    requires n <= |xs| && ConvertLayers(d, name, xs, lt, enc, n).Err?
    ensures ConvertLayers(d, name, xs, lt, enc, |xs|).Err?
    decreases |xs| - n
  {
    if n < |xs| {
      ConvertFails(d, name, xs, lt, enc, n + 1);
    }
  }

  lemma BasesFail(d: Disk, name: Name, start: Start, lts: seq<LayerType>, enc: Encoder, n: nat)
    requires n <= |lts| && OverlayDisk.InitializeBases(d, name, start, lts[..n], enc).Err?
    ensures OverlayDisk.InitializeBases(d, name, start, lts, enc).Err?
    decreases |lts| - n
  {
    if n < |lts| {
      assert lts[..n + 1][..n] == lts[..n];
      BasesFail(d, name, start, lts, enc, n + 1);
    } else {
      assert lts[..n] == lts;
    }
  }

  lemma RenderFails(d: Disk, names: seq<Name>, lts: seq<LayerType>, muts: Mutators, enc: Encoder, n: nat)
    requires |muts| == |lts| > 0 && n <= |names| && OverlayDisk.RenderAll(d, names[..n], lts, muts, enc).Err?
    ensures OverlayDisk.RenderAll(d, names, lts, muts, enc).Err?
    decreases |names| - n
  {
    if n < |names| {
      assert names[..n + 1][..n] == names[..n];
      RenderFails(d, names, lts, muts, enc, n + 1);
    } else {
      assert names[..n] == names;
    }
  }

  // ----- the nearest base in the output -----

  /** Base chains end: every built-type layer ranks above its base. */
  ghost predicate Ranked(sfm: map<Name, LayerDef>, rank: map<Name, nat>) {
    forall n <- sfm :: n in rank &&
      (sfm[n].from.Built? && sfm[n].from.tag in sfm ==> sfm[n].from.tag in rank && rank[sfm[n].from.tag] < rank[n])
  }

  /** The nearest base below `name` that is in the output, or the source image the chain ends in. */
  ghost function FirstBase(sfm: map<Name, LayerDef>, rank: map<Name, nat>, name: Name): Result<Option<(Name, LayerDef)>>
    requires Ranked(sfm, rank)
    decreases if name in sfm then rank[name] else 0
  {
    if name !in sfm then Err
    else match sfm[name].from
      case Built(tag) =>
        if tag !in sfm then Err
        else if !sfm[tag].buildOnly then Ok(Some((tag, sfm[tag])))
        else FirstBase(sfm, rank, tag)
      case Image(_) => Ok(Some((name, sfm[name])))
      case _ => Ok(None)
  }

  /** What repacking starts from, given the base that was found. */
  function StartFor(name: Name, first: Result<Option<(Name, LayerDef)>>): Result<Start> {
    match first
    case Err => Err
    case Ok(None) => Ok(Fresh)
    case Ok(Some((tag, base))) =>
      if !base.buildOnly && tag != name then Ok(CopyOf(tag))
      else if base.from.Image? then Ok(Convert(base.from.source))
      else Ok(Fresh)
  }

  method FindFirstBaseInOutput(name: Name, sfm: map<Name, LayerDef>, ghost rank: map<Name, nat>)
    returns (r: Result<Option<(Name, LayerDef)>>)
    requires Ranked(sfm, rank)
    ensures r == FirstBase(sfm, rank, name)
  {
    if name !in sfm {
      return Err;
    }
    var base, baseTag := sfm[name], name;
    while base.from.Built?
      invariant baseTag in sfm && base == sfm[baseTag]
      invariant FirstBase(sfm, rank, name) == FirstBase(sfm, rank, baseTag)
      decreases rank[baseTag]
    {
      baseTag := base.from.tag;
      if baseTag !in sfm {
        return Err;
      }
      base := sfm[baseTag];
      if !base.buildOnly {
        return Ok(Some((baseTag, base)));
      }
    }
    if base.from.Image? {
      return Ok(Some((baseTag, base)));
    }
    return Ok(None);
  }

  /** The definitions a lineage was built from. */
  ghost predicate Describes(sfm: map<Name, LayerDef>, l: Lineage) {
    && l.name in sfm && sfm[l.name].buildOnly == l.buildOnly
    && match l
       case Root(_, _, source, _) => !sfm[l.name].from.Built? && SourceOf(sfm[l.name].from) == source
       case Child(base, _, _, _, _) => sfm[l.name].from == Built(base.name) && base.name != l.name && Describes(sfm, base)
  }

  /** Walking the definitions finds the start that the lineage calls for. */
  lemma {:induction false} FirstBaseIsStart(sfm: map<Name, LayerDef>, rank: map<Name, nat>, l: Lineage)
    requires Ranked(sfm, rank) && Describes(sfm, l)
    ensures StartFor(l.name, FirstBase(sfm, rank, l.name)) == Ok(StartOf(l))
  {
    if l.Child? && l.base.buildOnly {
      FirstBaseIsStart(sfm, rank, l.base);
      StartForDeeper(sfm, rank, l.base, l.name);
    }
  }

  /** A build-only layer and a layer directly on it start from the same place. */
  lemma {:induction false} StartForDeeper(sfm: map<Name, LayerDef>, rank: map<Name, nat>, b: Lineage, name: Name)
    requires Ranked(sfm, rank) && Describes(sfm, b) && b.buildOnly
    requires name in sfm && sfm[name].from == Built(b.name)
    ensures StartFor(name, FirstBase(sfm, rank, name)) == StartFor(b.name, FirstBase(sfm, rank, b.name))
  {
    FirstBaseRanks(sfm, rank, b.name);
  }

  lemma {:induction false} FirstBaseRanks(sfm: map<Name, LayerDef>, rank: map<Name, nat>, name: Name)
    requires Ranked(sfm, rank) && name in sfm
    ensures var r := FirstBase(sfm, rank, name);
      r.Ok? && r.value.Some? ==>
        var (tag, base) := r.value.value;
        tag in sfm && rank[tag] <= rank[name] && base == sfm[tag] && (base.buildOnly || tag != name || base.from.Image?)
    decreases rank[name]
  {
    if sfm[name].from.Built? && sfm[name].from.tag in sfm {
      FirstBaseRanks(sfm, rank, sfm[name].from.tag);
    }
  }
}

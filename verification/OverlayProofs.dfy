/** Lemmas behind the theorems of OverlayTheorems.dfy: what each operation changes on disk, and
    that rendering the layers a build lists puts exactly their changes into the images. */
module OverlayProofs {
  import opened Collections
  import opened Wrappers
  import opened OverlayDisk
  import opened OverlayRuns

  // ----- what an operation leaves alone -----

  ghost predicate Extends(d: Disk, d': Disk) {
    forall x <- d.store :: x in d'.store && d'.store[x] == d.store[x]
  }

  /** Everything but the metadata and upper directories of `names` is as before, and even there
      the lists of built layers are, and layers that have nothing to contribute. */
  ghost predicate Frame(d: Disk, d': Disk, names: set<Name>) {
    && Extends(d, d') && d'.images == d.images && d'.bases == d.bases
    && d'.meta.Keys == d.meta.Keys && d'.upper.Keys == d.upper.Keys
    && (forall n <- d.meta :: d'.meta[n].builtLayers == d.meta[n].builtLayers)
    && (forall n <- d.meta :: n !in names || Quiet(d, n) ==> d'.meta[n] == d.meta[n])
    && (forall n <- d.upper :: n !in names || Quiet(d, n) ==> d'.upper[n] == d.upper[n])
  }

  lemma StoredKept(d: Disk, d': Disk, xs: Manifest, lt: LayerType)
    requires Extends(d, d') && Stored(d, xs, lt)
    ensures Stored(d', xs, lt)
  {
  }

  lemma MetaKept(d: Disk, d': Disk, m: Metadata, lts: seq<LayerType>)
    requires Extends(d, d') && MetaOk(d, m, lts)
    ensures MetaOk(d', m, lts)
  {
  }

  lemma MutsKept(d: Disk, d': Disk, muts: Mutators, lts: seq<LayerType>)
    requires Extends(d, d') && MutsOk(d, muts, lts)
    ensures MutsOk(d', muts, lts)
  {
  }

  lemma ImagesKept(d: Disk, d': Disk, l: Lineage, lts: seq<LayerType>)
    requires Extends(d, d') && ImagesOk(d, l, lts)
    requires forall lt <- lts :: Ref(l.name, lt) in d'.images && d'.images[Ref(l.name, lt)] == d.images[Ref(l.name, lt)]
    ensures ImagesOk(d', l, lts)
  {
    assert Images(d', l.name, lts) == Images(d, l.name, lts);
    MutsKept(d, d', Images(d, l.name, lts), lts);
  }

  lemma LayerKept(d: Disk, d': Disk, l: Lineage, lts: seq<LayerType>, names: set<Name>)
    requires Frame(d, d', names) && LayerOk(d, l, lts)
    requires l.name !in names || !l.buildOnly
    ensures LayerOk(d', l, lts)
  {
    assert l.buildOnly || Quiet(d, l.name);
    assert d'.meta[l.name] == d.meta[l.name] && d'.upper[l.name] == d.upper[l.name];
    MetaKept(d, d', d.meta[l.name], lts);
    if !l.buildOnly {
      ImagesKept(d, d', l, lts);
    }
  }

  // ----- manifests -----

  lemma DiffsAppend(xs: Manifest, x: Digest)
    ensures Diffs(xs + [x]) == Diffs(xs) + [x.diff]
  {
  }

  lemma {:induction false} RecordedAt(m: Metadata, lts: seq<LayerType>, muts: Mutators)
    requires |muts| == |lts| && Distinct(lts)
    ensures var r := Recorded(m, lts, muts);
      && r.builtLayers == m.builtLayers && r.hasBuiltOCIOutput == m.hasBuiltOCIOutput
      && (forall i :: 0 <= i < |lts| ==> lts[i] in r.manifests && r.manifests[lts[i]] == muts[i])
      && (forall lt <- r.manifests :: lt in lts || (lt in m.manifests && r.manifests[lt] == m.manifests[lt]))
  {
    if lts != [] {
      RecordedAt(m, lts[..|lts| - 1], muts[..|muts| - 1]);
    }
  }

  lemma RecordedOk(d: Disk, m: Metadata, lts: seq<LayerType>, muts: Mutators)
    requires Distinct(lts) && MutsOk(d, muts, lts)
    requires forall lt <- m.manifests :: lt in lts
    ensures MetaOk(d, Recorded(m, lts, muts).(hasBuiltOCIOutput := false), lts)
    ensures (forall i :: 0 <= i < |lts| ==> |muts[i]| > 0) ==>
      MetaOk(d, Recorded(m, lts, muts).(hasBuiltOCIOutput := true), lts)
  {
    RecordedAt(m, lts, muts);
    var r := Recorded(m, lts, muts);
    forall lt <- r.manifests ensures exists i :: 0 <= i < |lts| && lts[i] == lt && r.manifests[lt] == muts[i] {
      var i :| 0 <= i < |lts| && lts[i] == lt;
    }
  }

  lemma {:induction false} CommitAt(d: Disk, name: Name, lts: seq<LayerType>, muts: Mutators)
    requires |muts| == |lts| && Distinct(lts)
    ensures var r := Commit(d, name, lts, muts);
      && r.meta == d.meta && r.upper == d.upper && r.store == d.store && r.bases == d.bases
      && (forall i :: 0 <= i < |lts| ==> Ref(name, lts[i]) in r.images && r.images[Ref(name, lts[i])] == muts[i])
      && (forall ref <- d.images :: ref.name != name ==> ref in r.images && r.images[ref] == d.images[ref])
  {
    if lts != [] {
      CommitAt(d, name, lts[..|lts| - 1], muts[..|muts| - 1]);
    }
  }

  // ----- generating one layer -----

  lemma {:induction false} LinkDigestsAt(d: Disk, target: Digest, descs: seq<Digest>)
    requires StoreOk(d) && target in d.store
    requires forall x <- descs :: x.diff == target.diff
    ensures var r := LinkDigests(d, target, descs);
      && StoreOk(r) && Extends(d, r) && r == d.(store := r.store)
      && (forall x <- descs :: x in r.store)
  {
    if descs != [] {
      LinkDigestsAt(d, target, descs[..|descs| - 1]);
      assert descs == descs[..|descs| - 1] + [descs[|descs| - 1]];
    }
  }

  /** What `GenerateLayer` appends to every image: the upper directory's change, or again the
      layer that its metadata records last, or nothing. */
  function Contribution(d: Disk, name: Name, lts: seq<LayerType>): seq<Diff>
    requires name in d.upper && name in d.meta && |lts| > 0
    requires d.meta[name].hasBuiltOCIOutput ==>
      lts[0] in d.meta[name].manifests && |d.meta[name].manifests[lts[0]]| > 0
  {
    if d.upper[name] != map[] then [d.upper[name]]
    else if d.meta[name].hasBuiltOCIOutput then
      [d.meta[name].manifests[lts[0]][|d.meta[name].manifests[lts[0]]| - 1].diff]
    else []
  }

  ghost predicate Appended(muts: Mutators, muts': Mutators, more: seq<Diff>) {
    |muts'| == |muts| && forall i :: 0 <= i < |muts| ==> Diffs(muts'[i]) == Diffs(muts[i]) + more
  }

  lemma AppendedOk(d: Disk, muts: Mutators, muts': Mutators, more: seq<Diff>, lts: seq<LayerType>)
    requires MutsOk(d, muts, lts) && Appended(muts, muts', more)
    requires forall i :: 0 <= i < |lts| ==> Stored(d, muts'[i], lts[i])
    ensures MutsOk(d, muts', lts)
  {
  }

  lemma LastDiffs(m: Metadata, d: Disk, lts: seq<LayerType>, i: nat)
    requires MetaOk(d, m, lts) && m.hasBuiltOCIOutput && i < |lts|
    ensures lts[0] in m.manifests && lts[i] in m.manifests
    ensures |m.manifests[lts[0]]| > 0 && |m.manifests[lts[i]]| > 0
    ensures m.manifests[lts[i]][|m.manifests[lts[i]]| - 1].diff == m.manifests[lts[0]][|m.manifests[lts[0]]| - 1].diff
  {
    var a, b := m.manifests[lts[i]], m.manifests[lts[0]];
    assert Diffs(a) == Diffs(b);
    assert |a| == |Diffs(a)| == |b| && Diffs(a)[|a| - 1] == a[|a| - 1].diff && Diffs(b)[|b| - 1] == b[|b| - 1].diff;
  }

  lemma GenerateNew(d: Disk, name: Name, lts: seq<LayerType>, muts: Mutators, enc: Encoder)
    requires StoreOk(d) && MutsOk(d, muts, lts) && |lts| > 0
    requires name in d.upper && d.upper[name] != map[]
    ensures var r := GenerateLayer(d, name, lts, muts, enc);
      && r.Ok? && r.value.mutated && StoreOk(r.value.disk) && Extends(d, r.value.disk)
      && r.value.disk == d.(store := r.value.disk.store, upper := d.upper[name := map[]])
      && MutsOk(r.value.disk, r.value.mutators, lts)
      && Appended(muts, r.value.mutators, [d.upper[name]])
  {
    var diff := d.upper[name];
    var muts' := AddNew(name, diff, lts, muts, enc);
    var descs := Lasts(muts');
    var renamed := AddToStore(d, descs[0], diff);
    var emptied := renamed.(upper := renamed.upper[name := map[]]);
    LinkDigestsAt(emptied, descs[0], descs[1..]);
    var d' := LinkDigests(emptied, descs[0], descs[1..]);
    forall i | 0 <= i < |lts|
      ensures Diffs(muts'[i]) == Diffs(muts[i]) + [diff]
      ensures Stored(d', muts'[i], lts[i])
    {
      DiffsAppend(muts[i], descs[i]);
      assert i > 0 ==> descs[i] == descs[1..][i - 1];
      StoredKept(d, d', muts[i], lts[i]);
    }
    assert MutsOk(d', muts, lts) by { MutsKept(d, d', muts, lts); }
    AppendedOk(d', muts, muts', [diff], lts);
  }

  lemma GenerateOne(d: Disk, name: Name, lts: seq<LayerType>, muts: Mutators, enc: Encoder)
    requires StoreOk(d) && MutsOk(d, muts, lts) && |lts| > 0
    requires name in d.upper && name in d.meta && MetaOk(d, d.meta[name], lts)
    ensures var r := GenerateLayer(d, name, lts, muts, enc);
      && r.Ok? && StoreOk(r.value.disk) && Extends(d, r.value.disk)
      && r.value.disk == d.(store := r.value.disk.store, upper := d.upper[name := map[]])
      && MutsOk(r.value.disk, r.value.mutators, lts)
      && Appended(muts, r.value.mutators, Contribution(d, name, lts))
      && (r.value.mutated <==> !Quiet(d, name))
      && (Quiet(d, name) ==> r.value == Generated(d, muts, false))
  {
    if d.upper[name] != map[] {
      GenerateNew(d, name, lts, muts, enc);
    } else {
      assert d.upper[name := map[]] == d.upper;
      var m := d.meta[name];
      if m.hasBuiltOCIOutput {
        var muts' := AddExisting(m, lts, muts);
        forall i | 0 <= i < |lts|
          ensures Diffs(muts'[i]) == Diffs(muts[i]) + Contribution(d, name, lts)
          ensures Stored(d, muts'[i], lts[i])
        {
          LastDiffs(m, d, lts, i);
          DiffsAppend(muts[i], m.manifests[lts[i]][|m.manifests[lts[i]]| - 1]);
          assert Stored(d, m.manifests[lts[i]], lts[i]);
        }
        AppendedOk(d, muts, muts', Contribution(d, name, lts), lts);
      } else {
        forall i | 0 <= i < |muts| ensures Diffs(muts[i]) == Diffs(muts[i]) + [] {}
      }
    }
  }

  // ----- rendering the layers listed by a build -----

  lemma RenderQuiet(d: Disk, names: seq<Name>, lts: seq<LayerType>, muts: Mutators, enc: Encoder)
    requires |muts| == |lts| > 0
    requires forall x <- names :: Quiet(d, x)
    ensures RenderAll(d, names, lts, muts, enc) == Ok(Generated(d, muts, false))
  {
    if names != [] {
      RenderQuiet(d, names[..|names| - 1], lts, muts, enc);
      assert Quiet(d, names[|names| - 1]);
      assert RenderBuilt(d, names[|names| - 1], lts, muts, enc) == Ok(Generated(d, muts, false));
    }
  }

  /** A pass that reports no change made none, and every layer it visited had nothing to give. */
  lemma RenderUnmutated(d: Disk, names: seq<Name>, lts: seq<LayerType>, muts: Mutators, enc: Encoder)
    requires |muts| == |lts| > 0
    requires var r := RenderAll(d, names, lts, muts, enc); r.Ok? && !r.value.mutated
    ensures RenderAll(d, names, lts, muts, enc).value == Generated(d, muts, false)
    ensures forall x <- names :: Quiet(d, x)
  {
    if names != [] {
      RenderUnmutated(d, names[..|names| - 1], lts, muts, enc);
      assert names == names[..|names| - 1] + [names[|names| - 1]];
    }
  }

  lemma AppendedLast(muts: Mutators, muts': Mutators, x: Diff, i: nat)
    requires Appended(muts, muts', [x]) && i < |muts|
    ensures |muts'[i]| > 0 && muts'[i][|muts'[i]| - 1].diff == x
  {
    var ds := Diffs(muts'[i]);
    assert ds == Diffs(muts[i]) + [x];
    assert |ds| == |muts'[i]| && ds[|ds| - 1] == muts'[i][|ds| - 1].diff;
  }

  /** Noting the images in a layer's metadata puts its change at the top of every manifest. */
  lemma RecordedTops(m: Metadata, lts: seq<LayerType>, muts: Mutators, muts': Mutators, x: Diff)
    requires Distinct(lts) && Appended(muts, muts', [x]) && |lts| == |muts|
    ensures var r := Recorded(m, lts, muts');
      forall lt <- lts :: lt in r.manifests && |r.manifests[lt]| > 0 && r.manifests[lt][|r.manifests[lt]| - 1].diff == x
  {
    RecordedAt(m, lts, muts');
    var r := Recorded(m, lts, muts');
    forall lt <- lts ensures lt in r.manifests && |r.manifests[lt]| > 0 && r.manifests[lt][|r.manifests[lt]| - 1].diff == x {
      var i :| 0 <= i < |lts| && lts[i] == lt;
      AppendedLast(muts, muts', x, i);
    }
  }

  lemma RecordedChange(d: Disk, m: Metadata, lts: seq<LayerType>, muts: Mutators, muts': Mutators, x: Diff)
    requires Distinct(lts) && MutsOk(d, muts', lts) && Appended(muts, muts', [x])
    requires |lts| == |muts|
    requires forall lt <- m.manifests :: lt in lts
    ensures var r := Recorded(m, lts, muts').(hasBuiltOCIOutput := true);
      && MetaOk(d, r, lts) && r.builtLayers == m.builtLayers
      && forall lt <- lts :: lt in r.manifests && |r.manifests[lt]| > 0 && r.manifests[lt][|r.manifests[lt]| - 1].diff == x
  {
    forall i | 0 <= i < |lts| ensures |muts'[i]| > 0 {
      AppendedLast(muts, muts', x, i);
    }
    RecordedOk(d, m, lts, muts');
    RecordedAt(m, lts, muts');
    RecordedTops(m, lts, muts, muts', x);
  }

  // The disk after a drained layer's metadata has been rewritten.
  function Noted(d: Disk, store: map<Digest, Diff>, name: Name, m: Metadata): Disk {
    d.(store := store, upper := d.upper[name := map[]], meta := d.meta[name := m])
  }

  lemma NotedFrame(d: Disk, store: map<Digest, Diff>, name: Name, m: Metadata)
    requires name in d.meta && name in d.upper && !Quiet(d, name)
    requires m.builtLayers == d.meta[name].builtLayers
    requires forall x <- d.store :: x in store && store[x] == d.store[x]
    ensures Frame(d, Noted(d, store, name, m), {name})
  {
    var d' := Noted(d, store, name, m);
    assert d'.meta.Keys == d.meta.Keys && d'.upper.Keys == d.upper.Keys;
  }

  /** What a build-only layer contributes is its own change, unless it is stale. */
  lemma ContributionIsOwn(d: Disk, l: Lineage, lts: seq<LayerType>)
    requires l.name in d.meta && l.name in d.upper && |lts| > 0
    requires ChangeKept(d, l, lts)
    requires d.meta[l.name].hasBuiltOCIOutput ==> forall lt <- lts :: lt in d.meta[l.name].manifests && |d.meta[l.name].manifests[lt]| > 0
    ensures l.own != map[] ==> Contribution(d, l.name, lts) == [l.own]
    ensures l.own == map[] && !Inherited(l) ==> Contribution(d, l.name, lts) == []
    ensures Stale(l) ==> |Contribution(d, l.name, lts)| == 1
    ensures l.own == map[] && Contribution(d, l.name, lts) != [] ==> Inherited(l)
  {
    assert lts[0] in lts;
  }

  lemma NotedLayer(d: Disk, store: map<Digest, Diff>, l: Lineage, m: Metadata, lts: seq<LayerType>, x: Diff)
    requires l.buildOnly && LayerOk(d, l, lts) && !Quiet(d, l.name)
    requires Extends(d, Noted(d, store, l.name, m))
    requires m.builtLayers == d.meta[l.name].builtLayers && m.hasBuiltOCIOutput
    requires MetaOk(Noted(d, store, l.name, m), m, lts)
    requires l.own != map[] ==> x == l.own
    requires l.own == map[] ==> Inherited(l)
    requires forall lt <- lts :: lt in m.manifests && |m.manifests[lt]| > 0 && m.manifests[lt][|m.manifests[lt]| - 1].diff == x
    ensures LayerOk(Noted(d, store, l.name, m), l, lts)
  {
    var d' := Noted(d, store, l.name, m);
    assert d'.meta[l.name] == m && d'.upper[l.name] == map[];
    assert ChangeKept(d', l, lts);
    if l.Child? {
      assert Listed(d', l.base.name) == Listed(d, l.base.name);
    }
  }

  lemma RenderIsNoted(d: Disk, name: Name, lts: seq<LayerType>, muts: Mutators, enc: Encoder, g: Generated)
    requires |muts| == |lts| > 0 && name in d.meta && GenerateLayer(d, name, lts, muts, enc) == Ok(g) && g.mutated
    requires |g.mutators| == |lts| && g.disk == d.(store := g.disk.store, upper := d.upper[name := map[]])
    ensures var m := Recorded(d.meta[name], lts, g.mutators).(hasBuiltOCIOutput := true);
      RenderBuilt(d, name, lts, muts, enc) == Ok(g.(disk := Noted(d, g.disk.store, name, m)))
  {
  }

  /** A build-only layer that contributed something: its metadata is rewritten and still in order. */
  lemma RenderNoted(d: Disk, l: Lineage, lts: seq<LayerType>, muts: Mutators, enc: Encoder, g: Generated)
    requires StoreOk(d) && |muts| == |lts| > 0 && Distinct(lts) && l.buildOnly && LayerOk(d, l, lts)
    requires GenerateLayer(d, l.name, lts, muts, enc) == Ok(g) && g.mutated && !Quiet(d, l.name)
    requires MutsOk(g.disk, g.mutators, lts) && StoreOk(g.disk) && Extends(d, g.disk)
    requires g.disk == d.(store := g.disk.store, upper := d.upper[l.name := map[]])
    requires Appended(muts, g.mutators, Contribution(d, l.name, lts)) && Contribution(d, l.name, lts) != []
    requires l.own != map[] ==> Contribution(d, l.name, lts) == [l.own]
    requires l.own == map[] ==> Inherited(l)
    ensures var r := RenderBuilt(d, l.name, lts, muts, enc);
      && r.Ok? && r.value.mutated && r.value.mutators == g.mutators && r.value.disk.upper[l.name] == map[]
      && StoreOk(r.value.disk) && Frame(d, r.value.disk, {l.name})
      && MutsOk(r.value.disk, g.mutators, lts) && LayerOk(r.value.disk, l, lts)
  {
    var x := Contribution(d, l.name, lts)[0];
    RecordedChange(g.disk, d.meta[l.name], lts, muts, g.mutators, x);
    var m := Recorded(d.meta[l.name], lts, g.mutators).(hasBuiltOCIOutput := true);
    var d' := Noted(d, g.disk.store, l.name, m);
    RenderIsNoted(d, l.name, lts, muts, enc, g);
    MetaKept(g.disk, d', m, lts);
    MutsKept(g.disk, d', g.mutators, lts);
    NotedFrame(d, g.disk.store, l.name, m);
    NotedLayer(d, g.disk.store, l, m, lts, x);
  }

  lemma RenderOne(d: Disk, l: Lineage, lts: seq<LayerType>, muts: Mutators, enc: Encoder)
    requires StoreOk(d) && MutsOk(d, muts, lts) && |lts| > 0 && Distinct(lts)
    requires l.buildOnly && LayerOk(d, l, lts)
    ensures var r := RenderBuilt(d, l.name, lts, muts, enc);
      && r.Ok? && StoreOk(r.value.disk) && Frame(d, r.value.disk, {l.name})
      && MutsOk(r.value.disk, r.value.mutators, lts)
      && Appended(muts, r.value.mutators, Contribution(d, l.name, lts))
      && LayerOk(r.value.disk, l, lts)
      && r.value.disk.upper[l.name] == map[]
      && (r.value.mutated <==> !Quiet(d, l.name))
  {
    GenerateOne(d, l.name, lts, muts, enc);
    var g := GenerateLayer(d, l.name, lts, muts, enc).value;
    if g.mutated {
      ContributionIsOwn(d, l, lts);
      RenderNoted(d, l, lts, muts, enc, g);
    }
  }

  lemma BuiltAfterRender(d: Disk, d': Disk, built: map<Name, Lineage>, l: Lineage, lts: seq<LayerType>)
    requires BuiltOk(d, built, lts) && Known(built, l, lts)
    requires Frame(d, d', {l.name}) && LayerOk(d', l, lts)
    ensures BuiltOk(d', built, lts)
  {
    forall n | n in built ensures Good(d', built, n, lts) {
      assert Good(d, built, n, lts);
      if n != l.name {
        LayerKept(d, d', built[n], lts, {l.name});
      }
    }
  }

  lemma BaseKnown(d: Disk, built: map<Name, Lineage>, l: Lineage, lts: seq<LayerType>)
    requires BuiltOk(d, built, lts) && Known(built, l, lts)
    ensures LayerOk(d, l, lts)
    ensures l.Child? ==> Known(built, l.base, lts) && LayerOk(d, l.base, lts)
  {
    assert Good(d, built, l.name, lts);
    if l.Child? {
      assert Good(d, built, l.base.name, lts);
    }
  }

  /** The images a build starts from hold the nearest output base, or the source image. */
  ghost predicate StartMatch(b: Lineage, stack: seq<Diff>) {
    if !b.buildOnly then Match(b, stack)
    else if b.Root? then stack == SourceDiffs(b.source)
    else StartMatch(b.base, stack)
  }

  lemma MatchStep(b: Lineage, below: seq<Diff>, more: seq<Diff>)
    requires b.Root? ==> below == SourceDiffs(b.source)
    requires b.Child? ==> Match(b.base, below)
    requires b.own != map[] ==> more == [b.own]
    requires b.own == map[] && !Inherited(b) ==> more == []
    requires Stale(b) ==> |more| == 1
    ensures Match(b, below + more)
  {
    if b.own == map[] && !Inherited(b) {
      assert below + more == below;
    }
  }

  lemma QuietList(d: Disk, b: Lineage, lts: seq<LayerType>)
    requires LayerOk(d, b, lts) && !b.buildOnly
    ensures forall x <- Listed(d, b.name) :: Quiet(d, x)
  {
  }

  ghost predicate AllDrained(d: Disk, names: seq<Name>) {
    forall x <- names :: x in d.upper && d.upper[x] == map[]
  }

  lemma RenderFrames(d: Disk, d': Disk, d'': Disk, b: Lineage)
    requires if b.Child? then Frame(d, d', Names(b.base)) else d' == d
    requires Frame(d', d'', {b.name})
    ensures Frame(d, d'', Names(b))
  {
  }

  ghost predicate Rendered(d: Disk, r: Result<Generated>, built: map<Name, Lineage>, names: set<Name>, lts: seq<LayerType>) {
    && r.Ok? && StoreOk(r.value.disk) && Frame(d, r.value.disk, names)
    && BuiltOk(r.value.disk, built, lts)
    && MutsOk(r.value.disk, r.value.mutators, lts)
  }

  lemma ChainStep(d: Disk, g: Generated, built: map<Name, Lineage>, b: Lineage, lts: seq<LayerType>, enc: Encoder)
    requires Known(built, b, lts) && b.buildOnly && |lts| > 0 && Distinct(lts)
    requires Rendered(d, Ok(g), built, if b.Child? then Names(b.base) else {}, lts)
    requires if b.Child? then Match(b.base, Diffs(g.mutators[0])) else g.disk == d && Diffs(g.mutators[0]) == SourceDiffs(b.source)
    ensures var r := RenderBuilt(g.disk, b.name, lts, g.mutators, enc);
      && Rendered(d, r, built, Names(b), lts)
      && Match(b, Diffs(r.value.mutators[0]))
      && r.value.disk.upper[b.name] == map[]
      && Frame(g.disk, r.value.disk, {b.name})
  {
    assert Good(g.disk, built, b.name, lts);
    RenderOne(g.disk, b, lts, g.mutators, enc);
    var g' := RenderBuilt(g.disk, b.name, lts, g.mutators, enc).value;
    BuiltAfterRender(g.disk, g'.disk, built, b, lts);
    ContributionIsOwn(g.disk, b, lts);
    MatchStep(b, Diffs(g.mutators[0]), Contribution(g.disk, b.name, lts));
    RenderFrames(d, g.disk, g'.disk, b);
  }

  lemma RenderLast(d: Disk, names: seq<Name>, lts: seq<LayerType>, muts: Mutators, enc: Encoder)
    requires |muts| == |lts| > 0 && names != []
    requires RenderAll(d, names[..|names| - 1], lts, muts, enc).Ok?
    ensures var g := RenderAll(d, names[..|names| - 1], lts, muts, enc).value;
      var r := RenderBuilt(g.disk, names[|names| - 1], lts, g.mutators, enc);
      RenderAll(d, names, lts, muts, enc) == if r.Ok? then Ok(r.value.(mutated := g.mutated || r.value.mutated)) else Err
  {
  }

  ghost predicate Chained(d: Disk, r: Result<Generated>, built: map<Name, Lineage>, b: Lineage, names: seq<Name>, lts: seq<LayerType>)
    requires |lts| > 0
  {
    && Rendered(d, r, built, Names(b), lts)
    && Match(b, Diffs(r.value.mutators[0]))
    && AllDrained(r.value.disk, names)
  }

  lemma DrainedStep(d: Disk, d': Disk, names: seq<Name>, name: Name)
    requires Frame(d, d', {name}) && AllDrained(d, names) && name in d'.upper && d'.upper[name] == map[]
    ensures AllDrained(d', names + [name])
  {
  }

  lemma ChainExtend(d: Disk, built: map<Name, Lineage>, b: Lineage, pre: seq<Name>, lts: seq<LayerType>, muts: Mutators, enc: Encoder)
    requires Known(built, b, lts) && b.buildOnly && |lts| > 0 && Distinct(lts) && |muts| == |lts|
    requires var r := RenderAll(d, pre, lts, muts, enc);
      && Rendered(d, r, built, if b.Child? then Names(b.base) else {}, lts)
      && AllDrained(r.value.disk, pre)
      && if b.Child? then Match(b.base, Diffs(r.value.mutators[0]))
         else r.value.disk == d && Diffs(r.value.mutators[0]) == SourceDiffs(b.source)
    ensures Chained(d, RenderAll(d, pre + [b.name], lts, muts, enc), built, b, pre + [b.name], lts)
  {
    var names := pre + [b.name];
    assert names[..|names| - 1] == pre;
    var g := RenderAll(d, pre, lts, muts, enc).value;
    ChainStep(d, g, built, b, lts, enc);
    var g' := RenderBuilt(g.disk, b.name, lts, g.mutators, enc).value;
    RenderLast(d, names, lts, muts, enc);
    DrainedStep(g.disk, g'.disk, pre, b.name);
  }

  lemma {:induction false} RenderChain(
      d: Disk, built: map<Name, Lineage>, b: Lineage, lts: seq<LayerType>, muts: Mutators, enc: Encoder)
    requires StoreOk(d) && BuiltOk(d, built, lts) && Known(built, b, lts) && b.name in d.meta
    requires |lts| > 0 && Distinct(lts) && MutsOk(d, muts, lts)
    requires StartMatch(b, Diffs(muts[0]))
    ensures Chained(d, RenderAll(d, Listed(d, b.name), lts, muts, enc), built, b, Listed(d, b.name), lts)
    decreases b
  {
    BaseKnown(d, built, b, lts);
    var names := Listed(d, b.name);
    if !b.buildOnly {
      QuietList(d, b, lts);
      RenderQuiet(d, names, lts, muts, enc);
    } else if b.Child? {
      RenderChain(d, built, b.base, lts, muts, enc);
      ChainExtend(d, built, b, Listed(d, b.base.name), lts, muts, enc);
    } else {
      ChainExtend(d, built, b, [], lts, muts, enc);
    }
  }
}

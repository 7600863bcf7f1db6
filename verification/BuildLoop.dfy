/** The build cache and the build loop as the program runs them: fields updated in place, loops
    with early exits.  Every method is proved to do what the function on states says. */
module BuildLoop {
  import opened Wrappers
  import opened CacheModel

  class Builder {
    var cache: map<Name, CacheEntry>
    var roots: map<Name, Option<Fs>>
    var overlaid: map<Name, set<OverlayDir>>
    var imported: map<Name, map<string, Content>>
    var images: map<Ref, Blob>
    var blobs: set<Blob>

    function Now(): State
      reads this
    {
      State(cache, roots, overlaid, imported, images, blobs)
    }

    /** The loops return at the first import that is new, missing or changed, and only note that
        an overlay dir changed, because another one may still fail to be read. */
    method Lookup(w: World, name: Name) returns (r: CacheModel.Lookup)
      requires Ranked(w)
      ensures r == LookupEntry(w, Now(), name)
      decreases Height(w, name), 1
    {
      if name !in w.layers || name !in cache {
        return Miss;
      }
      var l, result := w.layers[name], cache[name];
      if result.layer != l {
        return Miss;
      }
      var baseHash := BaseHash(w, name);
      if baseHash.Err? {
        return Error;
      }
      if baseHash.value != result.base || w.epoch != result.epoch {
        return Miss;
      }
      for i := 0 to |l.imports|
        invariant ImportsUnchanged(Now(), result, name, l.imports[..i])
      {
        var imp := l.imports[i];
        if !imp.copied {
          if imp.location !in result.imports || name !in imported || Fname(imp.location) !in imported[name] {
            assert !ImportUnchanged(Now(), result, name, imp);
            return Miss;
          }
          if imported[name][Fname(imp.location)] != result.imports[imp.location] {
            assert !ImportUnchanged(Now(), result, name, imp);
            return Miss;
          }
        }
      }
      assert l.imports[..|l.imports|] == l.imports;
      var changed := false;
      var ods := l.overlayDirs;
      for i := 0 to |ods|
        invariant CheckOverlays(w, Now(), result, name, ods[..i]) == if changed then Changed else Same
      {
        assert ods[..i + 1][..i] == ods[..i] && ods[..i + 1][i] == ods[i];
        var od := ods[i];
        if od.source !in result.overlayDirs || name !in overlaid || od !in overlaid[name] {
          CheckEnds(w, Now(), result, name, ods, i + 1);
          return Miss;
        }
        if od.source !in w.dirs {
          CheckEnds(w, Now(), result, name, ods, i + 1);
          return Error;
        }
        if w.dirs[od.source] != result.overlayDirs[od.source] {
          changed := true;
        }
      }
      assert ods[..|ods|] == ods;
      return if changed then Miss else Hit(result);
    }

    method BaseHash(w: World, name: Name) returns (r: Result<CacheModel.BaseHash>)
      requires Ranked(w)
      ensures r == GetBaseHash(w, Now(), name)
      decreases Height(w, name), 0
    {
      if name !in w.layers {
        return Err;
      }
      match w.layers[name].from {
        case Scratch => return Ok(NoBase);
        case Tar(url) => return if url in w.tars then Ok(TarHash(w.tars[url])) else Err;
        case Image(tag) => return if tag in w.images then Ok(ManifestHash(w.images[tag])) else Err;
        case Built(tag) =>
          if tag !in w.layers {
            return Err;
          }
          var base := Lookup(w, tag);
          return if base.Hit? then Ok(EntryHash(base.entry)) else Err;
      }
    }

    /** The hashes of what was fetched for the layer, imports with `dest` left out. */
    method PutImports(name: Name, imps: seq<Import>) returns (r: Result<map<Location, Content>>)
      ensures r == RecordImports(Now(), name, imps)
    {
      var imports: map<Location, Content> := map[];
      for i := 0 to |imps|
        invariant RecordImports(Now(), name, imps[..i]) == Ok(imports)
      {
        assert imps[..i + 1][..i] == imps[..i] && imps[..i + 1][i] == imps[i];
        var imp := imps[i];
        if !imp.copied {
          if name !in imported || Fname(imp.location) !in imported[name] {
            RecordFails(Now(), name, imps, i + 1);
            return Err;
          }
          imports := imports[imp.location := imported[name][Fname(imp.location)]];
        }
      }
      assert imps[..|imps|] == imps;
      return Ok(imports);
    }

    method PutOverlayDirs(w: World, ods: seq<OverlayDir>) returns (r: Result<map<string, string>>)
      ensures r == RecordOverlays(w, ods)
    {
      var overlayDirs: map<string, string> := map[];
      for i := 0 to |ods|
        invariant RecordOverlays(w, ods[..i]) == Ok(overlayDirs)
      {
        assert ods[..i + 1][..i] == ods[..i] && ods[..i + 1][i] == ods[i];
        var od := ods[i];
        if od.source !in w.dirs {
          OverlayRecordFails(w, ods, i + 1);
          return Err;
        }
        overlayDirs := overlayDirs[od.source := w.dirs[od.source]];
      }
      assert ods[..|ods|] == ods;
      return Ok(overlayDirs);
    }

    method Put(w: World, name: Name, manifests: map<LayerType, Blob>) returns (ok: bool)
      requires Ranked(w)
      modifies this`cache
      ensures ok <==> CacheModel.Put(w, old(Now()), name, manifests).Ok?
      ensures Now() == if ok then CacheModel.Put(w, old(Now()), name, manifests).value else old(Now())
    {
      if name !in w.layers {
        return false;
      }
      var l := w.layers[name];
      var base := BaseHash(w, name);
      if base.Err? {
        return false;
      }
      var imports := PutImports(name, l.imports);
      if imports.Err? {
        return false;
      }
      var overlayDirs := PutOverlayDirs(w, l.overlayDirs);
      if overlayDirs.Err? {
        return false;
      }
      cache := cache[name := CacheEntry(manifests, imports.value, overlayDirs.value, name, l, base.value, w.epoch)];
      return true;
    }

    /** Prunes, entry by entry, what can no longer be found. */
    method OpenCache()
      modifies this`cache
      ensures Now() == CacheModel.OpenCache(old(Now()))
    {
      var todo := cache.Keys;
      while todo != {}
        invariant todo <= cache.Keys <= old(cache).Keys
        invariant forall n <- cache :: cache[n] == old(cache)[n]
        invariant forall n <- old(cache) :: n in cache <==> n in todo || Survives(old(Now()), old(cache)[n])
        decreases |todo|
      {
        var n :| n in todo;
        todo := todo - {n};
        var ent := cache[n];
        var found := true;
        if ent.layer.buildOnly {
          found := ent.name in roots;
        } else {
          found := forall lt <- ent.manifests :: ent.manifests[lt] in blobs;
        }
        if !found {
          cache := cache - {n};
        }
      }
    }

    method Import(w: World, name: Name) returns (ok: bool)
      modifies this`imported
      ensures ok <==> StartLayer(w, old(Now()), name).Ok?
      ensures ok ==> Now() == StartLayer(w, old(Now()), name).value
    {
      if name !in w.layers {
        return false;
      }
      var imports := w.layers[name].imports;
      var dir: map<string, Content> := map[];
      for i := 0 to |imports|
        invariant ImportAll(w, roots, imports[..i]) == Ok(dir)
        invariant Now() == old(Now())
      {
        assert imports[..i + 1][..i] == imports[..i] && imports[..i + 1][i] == imports[i];
        var imp := imports[i];
        var content := Fetch(w, roots, imp.location);
        if content.None? {
          ImportFails(w, roots, imports, i + 1);
          return false;
        }
        if !imp.copied {
          dir := dir[Fname(imp.location) := content.value];
        }
      }
      assert imports[..|imports|] == imports;
      imported := imported[name := dir];
      return true;
    }

    method UpdateReferences(name: Name, manifests: map<LayerType, Blob>)
      modifies this`images, this`blobs
      ensures Now() == SetImages(old(Now()), name, manifests)
    {
      images := images + map ref | ref in RefsOf(name, manifests) :: manifests[ref.layerType];
      blobs := blobs + manifests.Values;
    }

    method Rebuild(w: World, name: Name, lts: seq<LayerType>, emitted: Emitted) returns (ok: bool)
      requires Ranked(w) && |lts| > 0 && name in w.layers && name in imported
      modifies this
      ensures ok <==> CacheModel.Rebuild(w, old(Now()), name, lts, emitted).Ok?
      ensures ok ==> Now() == CacheModel.Rebuild(w, old(Now()), name, lts, emitted).value
    {
      var l := w.layers[name];
      var fs := BuildFs(w, roots - {name}, l, imported[name]);
      if fs.Err? {
        return false;
      }
      roots := roots[name := fs.value];
      overlaid := overlaid[name := OverlayDirSet(l.overlayDirs)];
      if l.buildOnly {
        ok := Put(w, name, BuildOnlyManifests(lts));
      } else {
        var manifests := NewManifests(name, fs.value, lts, emitted);
        UpdateReferences(name, manifests);
        ok := Put(w, name, manifests);
      }
    }

    /** One pass of the build loop. */
    method BuildLayer(w: World, name: Name, lts: seq<LayerType>, emitted: Emitted) returns (ok: bool)
      requires Ranked(w) && |lts| > 0
      modifies this
      ensures ok <==> Process(w, old(Now()), name, lts, emitted).Ok?
      ensures ok ==> Now() == Process(w, old(Now()), name, lts, emitted).value
    {
      ok := Import(w, name);
      if !ok {
        return;
      }
      ghost var started := Now();
      var l := w.layers[name];
      var hit := Lookup(w, name);
      if hit.Error? {
        return false;
      }
      if hit.Hit? && |l.binds| == 0 {
        var e := hit.entry;
        if l.buildOnly {
          HitLayer(w, started, name);
          return true;
        }
        var found := map lt | lt in lts && lt in e.manifests :: e.manifests[lt];
        HitLayer(w, started, name);
        UpdateReferences(name, found);
        if forall lt <- lts :: lt in found {
          return true;
        }
      }
      ok := Rebuild(w, name, lts, emitted);
    }

    method Build(w: World, order: seq<Name>, lts: seq<LayerType>, emitted: Emitted) returns (ok: bool)
      requires Ranked(w) && |lts| > 0
      modifies this
      ensures var r := RunLayers(w, CacheModel.OpenCache(old(Now())), order, lts, emitted);
        (ok <==> r.Ok?) && (ok ==> Now() == CollectGarbage(r.value))
    {
      OpenCache();
      ghost var reopened := Now();
      for i := 0 to |order|
        invariant RunLayers(w, reopened, order[..i], lts, emitted) == Ok(Now())
      {
        assert order[..i + 1][..i] == order[..i] && order[..i + 1][i] == order[i];
        ok := BuildLayer(w, order[i], lts, emitted);
        if !ok {
          LayersFail(w, reopened, order, lts, emitted, i + 1);
          return;
        }
      }
      assert order[..|order|] == order;
      blobs := blobs * images.Values;
      return true;
    }

    method BuildMultiple(w: World, files: seq<seq<Name>>, lts: seq<LayerType>, emitted: Emitted) returns (ok: bool)
      requires Ranked(w) && |lts| > 0
      modifies this
      ensures ok <==> RunFiles(w, old(Now()), files, lts, emitted).Ok?
      ensures ok ==> Now() == RunFiles(w, old(Now()), files, lts, emitted).value
    {
      for i := 0 to |files|
        invariant RunFiles(w, old(Now()), files[..i], lts, emitted) == Ok(Now())
      {
        assert files[..i + 1][..i] == files[..i] && files[..i + 1][i] == files[i];
        ok := Build(w, files[i], lts, emitted);
        if !ok {
          FilesFail(w, old(Now()), files, lts, emitted, i + 1);
          return;
        }
      }
      assert files[..|files|] == files;
      return true;
    }
  }

  // ----- an early end of a loop decides its result -----

  lemma HitLayer(w: World, s: State, n: Name)
    requires Ranked(w) && LookupEntry(w, s, n).Hit?
    ensures n in w.layers && LookupEntry(w, s, n).entry.layer == w.layers[n]
  {
  }

  lemma CheckEnds(w: World, s: State, e: CacheEntry, n: Name, ods: seq<OverlayDir>, i: nat)
    requires i <= |ods|
    requires var c := CheckOverlays(w, s, e, n, ods[..i]); c.Stopped? || c.Failed?
    ensures CheckOverlays(w, s, e, n, ods) == CheckOverlays(w, s, e, n, ods[..i])
    decreases |ods| - i
  {
    if i < |ods| {
      assert ods[..i + 1][..i] == ods[..i];
      CheckEnds(w, s, e, n, ods, i + 1);
    } else {
      assert ods[..i] == ods;
    }
  }

  lemma RecordFails(s: State, n: Name, imports: seq<CacheModel.Import>, i: nat)
    requires i <= |imports| && RecordImports(s, n, imports[..i]).Err?
    ensures RecordImports(s, n, imports).Err?
    decreases |imports| - i
  {
    if i < |imports| {
      assert imports[..i + 1][..i] == imports[..i];
      RecordFails(s, n, imports, i + 1);
    } else {
      assert imports[..i] == imports;
    }
  }

  lemma OverlayRecordFails(w: World, ods: seq<OverlayDir>, i: nat)
    requires i <= |ods| && RecordOverlays(w, ods[..i]).Err?
    ensures RecordOverlays(w, ods).Err?
    decreases |ods| - i
  {
    if i < |ods| {
      assert ods[..i + 1][..i] == ods[..i];
      OverlayRecordFails(w, ods, i + 1);
    } else {
      assert ods[..i] == ods;
    }
  }

  lemma ImportFails(w: World, roots: map<Name, Option<Fs>>, imports: seq<CacheModel.Import>, i: nat)
    requires i <= |imports| && ImportAll(w, roots, imports[..i]).Err?
    ensures ImportAll(w, roots, imports).Err?
    decreases |imports| - i
  {
    if i < |imports| {
      assert imports[..i + 1][..i] == imports[..i];
      ImportFails(w, roots, imports, i + 1);
    } else {
      assert imports[..i] == imports;
    }
  }

  lemma LayersFail(w: World, s: State, order: seq<Name>, lts: seq<LayerType>, emitted: Emitted, i: nat)
    requires Ranked(w) && |lts| > 0 && i <= |order| && RunLayers(w, s, order[..i], lts, emitted).Err?
    ensures RunLayers(w, s, order, lts, emitted).Err?
    decreases |order|
  {
    if i < |order| {
      var before := order[..|order| - 1];
      assert before[..i] == order[..i];
      LayersFail(w, s, before, lts, emitted, i);
    } else {
      assert order[..i] == order;
    }
  }

  lemma FilesFail(w: World, s: State, files: seq<seq<Name>>, lts: seq<LayerType>, emitted: Emitted, i: nat)
    requires Ranked(w) && |lts| > 0 && i <= |files| && RunFiles(w, s, files[..i], lts, emitted).Err?
    ensures RunFiles(w, s, files, lts, emitted).Err?
    decreases |files| - i
  {
    if i < |files| {
      assert files[..i + 1][..i] == files[..i];
      FilesFail(w, s, files, lts, emitted, i + 1);
    } else {
      assert files[..i] == files;
    }
  }
}

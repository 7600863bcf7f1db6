# stacker: verified models of the layer store, the build cache and the build order

Stacker builds OCI images from YAML files.  This project models its core in Dafny and proves what
the emitted images, the cache and the build order are.  `dafny verify dfyconfig.toml` checks it all.

Code that changes state is a class or a method, proved against functions on states; the theorems
are about those functions and about whole runs of them.

| files | component |
|---|---|
| OverlayDisk, OverlayStore | what the overlay backend does to its disk: functions, and the class that does it step by step |
| OverlayRuns, OverlayProofs, OverlaySteps, OverlayTheorems | runs over any tree of layers, their invariant, and what the emitted images hold |
| OverlayGrowth | what building a layer leaves of the disk on a base in whatever state |
| OverlayMounts, OverlayReturns, RootfsString, MountArgument | what a layer's container is mounted on, also after something below it was built again, and how the mount is printed |
| OverlayFindings, OverlayEmptyLayer | three runs in which stacker does not do what is expected |
| CacheModel, BuildLoop | the cache and the build loop: functions, and the class that runs them |
| CacheProofs, CacheTheorems, CacheSuccess, CacheChains | what a hit means, incremental against clean builds, failed builds: what every root is made from |
| CachedStore, CachedStoreProofs, CachedStoreTheorems, CachedStoreMounts | the cache on top of the real layer store: what images and mounts then hold |
| CachedStoreSuccess | when a turn on the real store succeeds |
| CachedStoreFindings, CachedStoreRefilled, CachedStoreExample | two cached builds that ship something else than a clean one, and that the theorem covers the first |
| Graphs, Dag, BuildOrder, MultiFile, WholeBuild | the dependency graph, one file's layer order, several files, the whole run |
| Substitute | template substitution |
| ThreadPool, ParallelUnpack | the worker pool and parallel extraction, over every interleaving |
| ImportSync, ImportProofs, ImportTheorems, ImportCopy | bringing a cached copy of an imported directory up to date: functions, proofs, and the class that does it |
| ImportFindings | imports that lose files |
| SubordinateIds, Text | allocation of subordinate id ranges; splitting text and decimal numbers |
| Wrappers, Collections | result and option types; facts about sequences and sets |

## The main results

* Images.  A `Lineage` records what a layer was built from and is independent of the store.
  `OverlayTheorems.ImagesAreExact`: in every state that a run can reach, the image of every output
  layer in every format resolves through the store to the source image's layers followed by the
  non-empty changes of the lineage in order, if and only if no layer of the lineage is stale.  A layer
  is stale if it changed nothing and its base had already been rendered for another child when it was
  set up.  `ChangedLayersAreExact` is the special case in which every layer changed something.
* Mounts.  `OverlayMounts.RepackKeepsMount` gives the exact condition under which repacking one layer
  keeps the mount of another; `MountsAreSound` and `MountedIsShipped` carry it over whole runs.
  `OverlayReturns.SoundIffDrained` gives the exact condition for a layer below which something was built
  again: no directory that it lists is filled although its manifests record that directory's change.
* Cache, records.  `CacheChains.HitIffChainUnchanged` says when a lookup hits.
  `CacheTheorems.IncrementalEqualsClean` says that after any past a run over several files leaves every
  root and image *made from the same* as in a clean build (definitions, sources, imports, and so on down
  the bases), unless a hit falls on a root that a failed build left broken; `HitIsCleanIffNotBroken`
  shows from the history that this exception is exact, and `CacheSuccess.RunSucceedsIffClean` that the
  cache's records of the run succeed if and only if those of a clean one do.  Being made from the same is
  not holding the same: that is the next result.
* Cache, contents.  `CachedStore.Turn` does to the disk what a turn of the build loop does, on a base in
  whatever state: set up, run on what is really mounted, repack from the start that the definitions name,
  and so drain and rewrite other layers.  `CachedStoreMounts.CachedRunIsCleanIffNotStale`: if no repack of
  the history hollowed another layer's mount and no layer came back to a mount that is no longer what its
  build left, then a run that builds on bases that stand leaves every output layer on a clean base an image
  that is the stack of a clean build if and only if the layer is not stale, and a clean layer is mounted
  on what a clean build shows.  Both conditions on mounts are exact (`RepackKeepsMount`,
  `ReturnIsSoundIff`), and each has a history that fails it.
* Success on the disk.  `CachedStoreSuccess.TurnSucceedsIff`: on a base that stands a turn on the real store
  succeeds if and only if the cache's own turn does and, if it comes to a rebuild, no layer it is set up
  on is an empty one without a blob; `NextTurnSucceedsIffClean` puts a clean build in the cache's place.
* Order.  `BuildOrder.DependencyOrder`, `MultiFile.NewStackerFiles`, `NewStackerFilesDAG` and
  `BuildMultiple` succeed exactly when an order exists, and what they return is one;
  `WholeBuild.BuildMultiple` composes them from the paths given to the order of every layer.
* Import.  `ImportTheorems.RightIffLinksAreSafe` and `OnPathIffNoConflicts` say exactly when every order
  of the differences brings the copy up to date.
* Substitution.  `Substitute.SubstituteIsEvaluate`: the many passes give what one reading gives.
* The pool, the mount string and the id ranges are each proved over all interleavings, names or calls,
  with the exact condition where the property does not always hold.

Hypotheses that the theorems state, because the code needs them: one list of distinct layer types for
the whole run that contains the source image's type (pkg/overlay/pack.go:377-381 passes over a type
without a recorded manifest, and pkg/overlay/metadata.go:105-109 mounts any one manifest); no
`overlay_dirs` in the image theorems (the mount puts them above built layers,
pkg/overlay/metadata.go:134-148, and repacking below, pkg/overlay/pack.go:561-592); equal digests have
equal content, while encoding the same change twice may give two digests; hashes are injective; the
chain of bases is not cyclic; for the cache, no binds and no imports with `dest`, which it does not track,
in a layer or in anything it is made from, and files do not change during a run.

The theorems about contents under a cache (`CachedImagesAreExact`, `CachedRunIsCleanIffNotStale`,
`CachedImageEqualsScratchImage`) speak of layers that stand.  A layer stands while it and all below it are
as their builds left them.  Building something below it again ends that, and so does a repack on a base
that does not stand if it may have drained or rewritten the layer.  It stands again when it hits in a later
turn, on a base that stands and is what it was built on, with metadata, directory and images as its build
calls for (`CachedStore.Returns`).  What is asked of a history is, turn by turn and from the state before it:

* `SafeHistory`: a rebuild on a base that stands hollows no other layer (`SafeStep`), and a clean layer that
  stands again is `Intact`, that is, each change of its lineage is recorded in its manifests or in its
  layer's directory, and not in both.
* `RunClean`, for the turns of the run: a hit is on a root that no failed build left broken; what is built is
  built on a base that stands, and what is used was (`OnStanding`; without it `CachedImagesAreExact` speaks
  of the layers of which this is true); the layers imported from stand and are clean.
* One list of layer types throughout; builds fail in a layer's commands, or after the repack and before the
  entry is put, but not in the middle of a repack.

That these hypotheses can be met together is shown by `OverlayFindings.HypothesesHold`,
`CacheChains.HypothesesHold`, `CachedStoreExample.HypothesesHold` and `ThreadPool.SomeRunReturns`, each with
a concrete run.

## Where the code falls short

Each has an input that shows it and, where one exists, the exact condition under which it does not happen.

* `OverlayFindings.UnchangedChildRestoresOldFile`: the snapshot copies HasBuiltOCIOutput
  (pkg/overlay/overlay.go:177-179), so an empty build-only layer on a rendered base adds its base's
  layer again, above later changes: an older version of a file comes back.  Exact: `ImagesAreExact`.
* `OverlayFindings.DrainingHollowsSibling`: repacking one child of a build-only layer empties the upper
  directory that another child, set up earlier, is mounted on.  Exact: `RepackKeepsMount`.
* `CachedStoreFindings.EditedBaseIsOverwritten`: A and B, which only builds on A, are built and C, which
  changes nothing, is output on B; B is edited and all is built again.  A hits and stays drained, B is set
  up with A's metadata, and C's image lists A's layer again on top of the edited B, where a clean build
  lists it once.  Exact: `CachedRunIsCleanIffNotStale`.
* `CacheChains.FailedBuildSpoilsLaterHit`: a rebuild that fails leaves a broken root, and when the inputs
  are put back the old entry hits and a child is built on that root.  Exact: `HitIsCleanIffNotBroken`.
* `CachedStoreRefilled.ReturningBaseIsMountedTwice`: A, B, which only builds on A, and C, output on B, are
  built, which drains A and B; A is edited and built, and put back and built.  A's entry is what it was, so
  B hits and stays drained, but A's directory is filled again, and B is mounted on A's change twice, the
  second time above its own.  D on B sees an older version of a file, without a failure, a hollowed mount
  or a stale layer.  Exact: `CachedStoreMounts.ReturnIsSoundIff`.
* `OverlayEmptyLayer.EmptyLayerBlocksSnapshot`: an empty layer of a base image is stored as an empty directory
  once it is re-encoded, under a digest that no base image has, and then a snapshot that picks that type
  fails, while one that picks the image's own type succeeds.  Exact: `OverlayTheorems.StepSucceedsIff`.
* `WholeBuild.CyclicIsDeep`: stacker files that require each other are read without end, so that the
  graph's own refusal of cycles is never reached (`ReadIsAcyclic`).
* `ThreadPool.AddingFirstNeedsRoom`: all jobs are added before any worker starts, so more than a thousand
  distinct layers block forever.
* `ImportTheorems.UnsafeLinkLoses`: where a link to a directory is replaced by a directory, what lies in
  the directory can be copied through the link and lost.  `LingeringPathLoses`: where a directory is
  replaced by a link, a file that went with the directory can be removed behind the link, which takes
  another file, in the copy (`ImportFindings.VanishedFileIsRemovedBehindLink`) or outside it.
  Exact: `RightIffLinksAreSafe`, where the links in conflict lead out of the copy or, without passing
  another link on the way of a path that is removed, to a place in it; `LinkBehindLinkLoses` shows that
  with such a link behind the link more can be lost.  Without any such conflict the import is right wherever links lead (`NoConflictsIsRight`).
* `SubordinateIds.AppendNeedsTerminatedFile`: a file whose last line is not ended no longer parses.

## Model

| member | source | states |
|---|---|---|
| OverlayStore.Overlay.UnpackOne | pkg/overlay/pack.go:674-725 | a populated directory is kept, else the blob's content fills it, else an error and no change |
| OverlayStore.Overlay.Unpack | pkg/overlay/pack.go:50-98 | unpacking each distinct digest once leaves what unpacking every layer in turn leaves, and the source image recorded as the layer's only manifest; fails exactly when some layer cannot be unpacked |
| OverlayStore.Overlay.Create | pkg/overlay/overlay.go:126-138 | an upper directory is there; one that was there keeps its content |
| OverlayStore.Overlay.Snapshot | pkg/overlay/overlay.go:153-180 | the target's metadata is the source's with the source added as a built layer; fails exactly when a layer cannot be unpacked or the source has no metadata |
| OverlayStore.Overlay.SetupRootfs | pkg/stacker/base.go:60-98 | the old root is deleted, then set up from nothing, a source image or a built layer |
| OverlayStore.Overlay.ConvertAndOutput | pkg/overlay/pack.go:100-166 | every layer of the source image is encoded in the given type, in order, and becomes the output image |
| OverlayStore.Overlay.InitializeBases | pkg/overlay/pack.go:178-257 | an image per layer type to start from: the nearest base in the output, the converted source image, or an empty one |
| OverlayStore.Overlay.GenerateLayer | pkg/overlay/pack.go:362-530 | a drained layer's recorded layer is added again, an empty one is passed over, and a change is encoded in every type, stored, linked and its upper directory emptied |
| OverlayStore.Overlay.RenderBuilt | pkg/overlay/pack.go:590-617 | one build-only ancestor is rendered and, if it added a layer, its own metadata rewritten and marked as rendered |
| OverlayStore.Overlay.RenderAll | pkg/overlay/pack.go:587-618 | the ancestors are rendered from the lowest up, each on what the ones below gave |
| OverlayStore.Overlay.RepackOverlay | pkg/overlay/pack.go:532-667 | ancestors rendered, own change added, images committed, metadata rewritten with no built layer left; nothing is committed when nothing changed |
| OverlayStore.Overlay.Repack | pkg/overlay/pack.go:259-266 | starts from the base that the definitions name and fails exactly when a base, an image or a directory is missing |
| OverlayStore.FindFirstBaseInOutput | pkg/storage/storage.go:11-51 | the walk over the definitions ends at the nearest base that is in the output, the source, or an unknown base |
| OverlayStore.FirstBaseIsStart | pkg/storage/storage.go:11-51 | that base is the one the layer's lineage calls for, however many build-only layers lie between |
| OverlaySteps.RepackOk | pkg/overlay/pack.go:532-667 | repacking never fails on a prepared layer and keeps the invariant of every other built layer |
| OverlayTheorems.StepKeepsInv | pkg/overlay/pack.go:178-257 | every step of a run keeps the invariant, and once the root is set up nothing that repacking reads is missing |
| OverlayTheorems.StepSucceedsIff | pkg/overlay/overlay.go:153-180 | in every reachable state a layer on a built base can be set up and built if and only if no layer of the picked manifest is empty without being a base image's own blob |
| OverlayTheorems.SetupSucceedsIff | pkg/stacker/base.go:60-98 | setting up succeeds if and only if the base has metadata and each layer needed is populated or among the base images |
| OverlayTheorems.RunKeepsInv | pkg/overlay/pack.go:532-667 | the invariant holds after every run |
| OverlayTheorems.ImagesAreExact | pkg/overlay/pack.go:362-530 | after every run each output image in each format resolves to exactly the stack its lineage calls for, if and only if no layer of the lineage is stale |
| OverlayTheorems.ChangedLayersAreExact | pkg/overlay/pack.go:446-480 | if every layer left a non-empty upper directory the images are exact, however bases are shared and drained |
| OverlayMounts.SnapshotKeepsView | pkg/overlay/overlay.go:153-180 | right after a snapshot the target's merged view equals the source's |
| OverlayMounts.RewrittenSound | pkg/overlay/pack.go:587-618 | a rendered build-only ancestor, now mounted from the store, still shows its lineage's changes |
| OverlayMounts.RepackedIsSound | pkg/overlay/pack.go:620-666 | the repacked layer itself stays mounted on its lineage's changes |
| OverlayMounts.RepackKeepsMount | pkg/overlay/pack.go:587-666 | another layer's mount stays sound if and only if that layer is not left listing an ancestor that this repack drains |
| OverlayMounts.MountsAreSound | pkg/overlay/metadata.go:97-148 | after every run without a hollowing repack each clean layer is mounted on exactly its lineage's changes |
| OverlayMounts.MountedIsShipped | pkg/overlay/metadata.go:97-148 | what an output layer is mounted on and what its image holds are the same filesystem |
| OverlayGrowth.BuildApart | pkg/overlay/pack.go:532-667 | building a layer on a base in whatever state takes nothing from the store, moves no other layer's image, and changes metadata and directories only of the layer and of those its base lists |
| OverlayReturns.SoundIffDrained | pkg/overlay/metadata.go:97-148 | where a layer's manifests record its lineage up to some layer and the changes above are in their directories, it is mounted on exactly its lineage's changes if and only if no directory that it lists is filled although its change is recorded |
| OverlayReturns.RefilledMount | pkg/overlay/metadata.go:117-148 | building a listed layer again keeps a sound mount if and only if that layer's directory ends up holding what it held |
| OverlayFindings.UnchangedChildRestoresOldFile | pkg/overlay/overlay.go:177-179 | a run in which the image shows an older version of a file than the layer's own lineage |
| OverlayFindings.DrainingHollowsSibling | pkg/overlay/pack.go:446-480 | a run after which a build-only layer is mounted without its base's change |
| OverlayEmptyLayer.EmptyLayerBlocksSnapshot | pkg/overlay/pack.go:674-725 | a run after which a layer can be set up on a built base with one manifest picked and not with the other |
| RootfsString.SafeNamesAreDistinct | pkg/overlay/pack.go:37-41 | digests whose encoding has no underscore get distinct directory names |
| RootfsString.UnderscoresCollide | pkg/overlay/pack.go:37-41 | two digests of the general grammar that share a directory name |
| RootfsString.CollectLowerdirs | pkg/overlay/metadata.go:117-163 | lower directories bottom first; missing source layers are passed over, missing built layers and overlay directories are errors; never none |
| RootfsString.ArgumentSplits | pkg/overlay/metadata.go:150-184 | split at colons the printed argument gives back its parts, top directory first, if and only if no verbatim name has a colon |
| RootfsString.LxcRootfsString | pkg/overlay/metadata.go:97-184 | succeeds exactly when the directories exist, and prints that argument |
| MountArgument.PrintedIsMounted | pkg/overlay/metadata.go:117-184 | the printed directories, read from right to left, hold exactly the stack of changes that the mount theorems speak of |
| BuildLoop.Builder.Lookup | pkg/stacker/cache.go:182-319 | the loop with its early exits finds a hit, a miss or an error exactly when the lookup function does |
| BuildLoop.Builder.BaseHash | pkg/stacker/cache.go:400-459 | the hash of the base: nothing, the archive, the manifest, or the base's own entry if that still hits |
| BuildLoop.Builder.Put | pkg/stacker/cache.go:461-525 | the new entry records definition, base, imports, overlay directories and epoch; other entries stay |
| BuildLoop.Builder.OpenCache | pkg/stacker/cache.go:101-173 | exactly the entries whose layer still has its output or its root stay |
| BuildLoop.Builder.Import | pkg/stacker/import.go:348-427 | all imports are fetched, or the first that cannot be is an error |
| BuildLoop.Builder.Rebuild | pkg/stacker/build.go:477-577 | sets up, runs, outputs every type and puts the entry |
| BuildLoop.Builder.BuildLayer | pkg/stacker/build.go:382-579 | one turn: hit, partial hit, binds and miss, each with its effect on the output |
| BuildLoop.Builder.Build | pkg/stacker/build.go:320-582 | a file's layers in order on a reopened cache, then garbage collection |
| BuildLoop.Builder.BuildMultiple | pkg/stacker/build.go:585-634 | all files in order, failing exactly when a layer fails |
| CacheProofs.HitDescribesBuild | pkg/stacker/cache.go:182-319 | building a layer that hits would give the filesystem its entry describes |
| CacheProofs.PutDescribes | pkg/stacker/cache.go:461-525 | the entry that is put describes the filesystem just built |
| CacheTheorems.ProcessKeeps | pkg/stacker/build.go:382-579 | each turn keeps every entry true of what the root and the images it stands for are recorded as made from |
| CacheTheorems.PastIsCoherent | pkg/stacker/build.go:320-582 | those records stay true after any runs, failures, collections and reopenings |
| CacheTheorems.PutThenHit | pkg/stacker/cache.go:461-525 | right after an entry is put its own lookup hits |
| CacheTheorems.LookupLocal | pkg/stacker/cache.go:182-319 | a lookup depends on the layers of the base chain only |
| CacheTheorems.CollectRun | pkg/stacker/build.go:581 | garbage collection loses no layer of the run |
| CacheTheorems.ReopenRun | pkg/stacker/cache.go:101-173 | reopening the cache loses no layer of the run |
| CacheTheorems.IncrementalEqualsClean | pkg/stacker/build.go:382-579 | after any past, a run over several files leaves every tracked layer's root and images made from the same definitions, sources, imports and bases as a clean build makes them from, if no hit falls on a broken root |
| CacheTheorems.BuiltLayersHit | pkg/stacker/cache.go:406-415 | every layer already built in the run still hits, across files and reopenings |
| CacheChains.HitIffChainUnchanged | pkg/stacker/cache.go:182-319 | a lookup hits if and only if nothing changed for the layer and for every layer below it |
| CacheChains.HitRecordsChain | pkg/stacker/cache.go:400-459 | the entry's chain of hashes holds the current entry of every layer below |
| CacheChains.IncrementalEqualsCleanAfterCompletedRuns | pkg/stacker/build.go:320-582 | without failed builds in the past no hit is broken, and every tracked layer is made from the same as in a clean build |
| CacheChains.CachedRunEqualsScratchRun | pkg/stacker/build.go:320-582 | the cached run and a run of the same builder from nothing make each layer from the same |
| CacheChains.BrokenIsNone | pkg/stacker/build.go:439-477 | a root is broken if and only if, in the history, the layer's last build failed or was made on a base then broken |
| CacheChains.HitIsCleanIffNotBroken | pkg/stacker/build.go:439-475 | a hit leaves a root made as in a clean build if and only if the history has not broken it |
| CacheSuccess.RunSucceedsIffClean | pkg/stacker/build.go:320-582 | as far as the cache's records go, the cached run succeeds if and only if the clean run does |
| CacheChains.FailedBuildSpoilsLaterHit | pkg/stacker/build.go:439-477 | a history after which an image is made from a broken root |
| CachedStoreProofs.TurnIsProcess | pkg/stacker/build.go:382-579 | on the real store a turn does to the cache what the cache's own model says, with the imports really mounted and the layers really emitted |
| CachedStoreProofs.StartAgrees | pkg/storage/storage.go:11-51 | on a base that stands and hits, the definitions name the start that the base's lineage calls for |
| CachedStoreProofs.LineagesAreBookkeeping | pkg/stacker/build.go:382-579 | what a turn or a failure does to the cache and the disk depends on them and the definitions alone, whatever the model notes about lineages |
| CachedStoreProofs.HistoryInv | pkg/stacker/build.go:382-579 | after any history, on whatever bases layers were built and however builds failed, the references are the disk's images, every standing layer is as its build left it, and an entry's images have the lineage of its layer's last build if that was on a base that stood |
| CachedStoreTheorems.RunKeeps | pkg/stacker/build.go:382-579 | at every point of a run on the real store, on whatever bases, what was built so far is made from the same as in a clean build |
| CachedStoreTheorems.CachedImagesAreExact | pkg/stacker/build.go:439-475 | every tracked output layer has an image in every format; if its last build was on a base that stood and each layer of the lineage left the change a clean build leaves, the image, rebuilt or from the cache, is the stack of a clean build if and only if no layer of the lineage is stale |
| CachedStoreMounts.ReturnIsSoundIff | pkg/stacker/build.go:450-475 | a layer that hits and stands again after something below it was built again is mounted on its lineage's changes if and only if no directory that it lists is filled although its change is recorded |
| CachedStoreMounts.HistorySafe | pkg/overlay/pack.go:587-666 | in a history in which no repack hollowed a mount and layers that came back are intact, each layer built on a standing base left the change that a clean build leaves, as far as nothing below it is stale, and clean standing layers are soundly mounted |
| CachedStoreMounts.CachedRunIsCleanIffNotStale | pkg/stacker/build.go:382-579 | then, after a run that builds on bases that stand, the image of an output layer on a clean base is the stack of a clean build if and only if the layer is not stale, and a standing clean layer's mount shows what a clean build shows |
| CachedStoreMounts.CachedImageEqualsScratchImage | pkg/stacker/build.go:382-579 | under the same conditions a cached run and a run from nothing ship the same stack for each layer that is clean in both |
| CachedStoreSuccess.TurnSucceedsIff | pkg/stacker/build.go:382-579 | on a base that stands a turn on the real store succeeds if and only if the cache's own turn does and, if the layer is rebuilt, the layers it is set up on can be unpacked: none picked is empty without being a base image's own blob |
| CachedStoreSuccess.NextTurnSucceedsIffClean | pkg/stacker/build.go:382-579 | at any point of a run the next turn succeeds if and only if a clean build of one more layer does and, if it is rebuilt, those layers can be unpacked |
| CachedStoreFindings.EditedBaseIsOverwritten | pkg/overlay/overlay.go:177-179 | a second build after an edit ships the base's layer again on top of the edited one, where a clean build does not |
| CachedStoreRefilled.ReturningBaseIsMountedTwice | pkg/stacker/cache.go:400-459 | a history of completed turns after which a layer hits, its base's change is mounted twice, and an image built on it has an older version of a file than a clean build's |
| CachedStoreExample.HypothesesHold | pkg/stacker/build.go:382-579 | that run meets every hypothesis of the main theorem, which says that the image is not a clean build's |
| Graphs.AcyclicIffSmallComponents | pkg/lib/dag.go:163-174 | without self-loops, no cycle if and only if no strongly connected component has two vertices |
| DagModel.Dag.AddVertex | pkg/lib/dag.go:72-80 | fails exactly on a key that is there; edges stay and no cycle appears |
| DagModel.Dag.RemoveVertex | pkg/lib/dag.go:82-90 | the vertex goes with all its edges and nothing else |
| DagModel.Dag.Component | pkg/lib/dag.go:163-174 | exactly the vertices that reach the given one and are reached from it |
| DagModel.Dag.IsAcyclic | pkg/lib/dag.go:163-174 | true if and only if there is no cycle |
| DagModel.Dag.AddDep | pkg/lib/dag.go:107-127 | an edge stays if and only if both ends exist, differ and no cycle arises; else the graph is as before |
| DagModel.Dag.AddDependencies | pkg/lib/dag.go:92-104 | the dependencies before the first refused one are kept, and it is refused for a reason |
| DagModel.Dag.Sort | pkg/lib/dag.go:151-160 | every vertex once, dependencies first |
| BuildOrder.UnprocessedStackerImports | pkg/types/stackerfile.go:333-369 | none are listed if and only if every other layer that is imported from is processed |
| BuildOrder.Scan | pkg/types/stackerfile.go:373-399 | one pass over the file, failing exactly on a layer without a base |
| BuildOrder.DependencyOrder | pkg/types/stackerfile.go:324-427 | succeeds if and only if each layer has a base, no name clashes with a prerequisite and some valid order exists, and then returns one, complete and without repetition |
| BuildOrder.SweepsComplete | pkg/types/stackerfile.go:372-426 | as many passes as there are layers always suffice |
| BuildOrder.StuckMeansNoOrder | pkg/types/stackerfile.go:402-424 | layers that wait for each other or for a missing name are in no valid order |
| BuildOrder.NoOrderMeansStuck | pkg/types/stackerfile.go:402-424 | if no order exists such layers can be named |
| MultiFile.NamesAreUnique | pkg/types/stackerfiles.go:53-65 | decides, in any order of the files, whether two files share a layer name |
| MultiFile.NewStackerFiles | pkg/types/stackerfiles.go:15-65 | succeeds if and only if all files reached exist, share no layer name and the stack suffices for the nesting, and returns exactly the files reached |
| MultiFile.AddPrerequisites | pkg/types/stackerfile.go:293-320 | succeeds if and only if every file reached is known, and marks exactly their layers |
| MultiFile.NewStackerFilesDAG | pkg/stacker/deps.go:15-57 | succeeds if and only if every prerequisite is known and none is cyclic; the edges are then exactly the prerequisites |
| MultiFile.SortedDagIsSorted | pkg/stacker/deps.go:65-75 | in a sorted traversal each file comes after its prerequisites |
| MultiFile.PrerequisitesAreBuilt | pkg/stacker/build.go:606-631 | among the files built before one exactly its prerequisites are found, however deep |
| MultiFile.OrderFile | pkg/stacker/build.go:327-343 | one file's layers follow all they need, in the order of everything built; fails if and only if the file itself has no order or a name with a colon |
| MultiFile.BuildMultiple | pkg/stacker/build.go:585-634 | the whole order puts every base and every imported layer first; fails if and only if some file has no order or a layer name with a colon |
| MultiFile.BuildOrderIsOrdered | pkg/stacker/build.go:606-631 | that order is one to which the incremental theorem applies |
| WholeBuild.RankedIsShallow | pkg/types/stackerfiles.go:15-51 | prerequisites that do not lead back need no more nested calls than their ranks |
| WholeBuild.CyclicIsDeep | pkg/types/stackerfiles.go:15-51 | reading a file that leads back to itself needs more nested calls than any stack allows |
| WholeBuild.ReadIsAcyclic | pkg/stacker/deps.go:15-57 | files whose reading came back have no cycle, so the graph of files refuses none |
| WholeBuild.BuildMultiple | pkg/stacker/build.go:585-634 | from the given paths to the order of all layers: succeeds if and only if all files reached can be read, have unique names without colons and can be ordered, and the stack suffices; then every layer of every file reached is built once, after all it needs |
| Substitute.RunSubstitute | pkg/types/stackerfile.go:64-168 | no result has a placeholder left |
| Substitute.FillDefaults | pkg/types/stackerfile.go:135-168 | terminates on every text, and no result has a placeholder left, even one that an expansion made |
| Substitute.ReplaceGiven | pkg/types/stackerfile.go:64-133 | one rewriting pass per given substitution, failing on a malformed one |
| Substitute.PassFills | pkg/types/stackerfile.go:104-112 | on a template one pass fills exactly the placeholders with that key |
| Substitute.PassesFill | pkg/types/stackerfile.go:64-133 | all passes fill the placeholders in turn and report none as unsupported |
| Substitute.DefaultsEvaluate | pkg/types/stackerfile.go:135-168 | the default loop gives what reading the template once gives |
| Substitute.SubstituteIsEvaluate | pkg/types/stackerfile.go:64-168 | on templates substitution is evaluation: the first given value, else the default |
| Substitute.EvaluateSucceeds | pkg/types/stackerfile.go:64-168 | evaluation succeeds if and only if every placeholder has a value or a default |
| ThreadPool.NoJobRunsTwice | pkg/overlay/pool.go:33-61 | in every interleaving a job begins at most once, and one that began is running in one worker or has returned |
| ThreadPool.RunReportsFailure | pkg/overlay/pool.go:33-61 | nil if and only if no job failed, and then every job ran; otherwise an error that some job returned |
| ThreadPool.ExecutionsAreBounded | pkg/overlay/pool.go:33-61 | no interleaving has more than three steps a job, two a worker and two more |
| ThreadPool.NeverStuck | pkg/overlay/pool.go:33-61 | once the jobs are added every worker that is not done can step |
| ThreadPool.AddingFirstNeedsRoom | pkg/overlay/pool.go:20-31 | adding all jobs first works if and only if they are at most a thousand |
| ParallelUnpack.QueueJobs | pkg/overlay/pack.go:65-78 | one job for each digest of the manifest |
| ParallelUnpack.DirectoriesAreExclusive | pkg/overlay/pack.go:63-81 | no two workers are ever at work on one directory |
| ParallelUnpack.ParallelEqualsSequential | pkg/overlay/pack.go:50-98 | in every interleaving without an error the store ends as extracting the layers one by one leaves it |
| ImportProofs.SafeLinksConverge | pkg/stacker/import.go:136-236 | with safe links no call acts outside the copy, and any order of the differences that reports no error makes the copy equal to the source |
| ImportTheorems.UnsafeLinkLoses | pkg/stacker/import.go:193-230 | with a link to a directory, in the copy or outside, in place of a directory with content: an order that reports no error and loses files |
| ImportTheorems.LingeringPathLoses | pkg/stacker/import.go:166-172 | with a path that goes and that names something through a link of the source, wherever links lead: an order in which the copy was equal to the source and then loses a file, or a call acts outside |
| ImportTheorems.RightIffLinksAreSafe | pkg/stacker/import.go:136-236 | every order is right if and only if there is neither |
| ImportTheorems.LingersIsWrong | pkg/stacker/import.go:166-172 | such a path always makes some order wrong |
| ImportTheorems.NoConflictsIsRight | pkg/stacker/import.go:136-236 | wherever links lead, without a link in place of a non-empty directory or the reverse every order is right |
| ImportTheorems.OnPathIffNoConflicts | pkg/stacker/import.go:136-236 | in every order no call has a link on its way if and only if there is no such conflict |
| ImportFindings.VanishedFileIsRemovedBehindLink | pkg/stacker/import.go:166-172 | a directory that became a link to another: removing its old file removes the other directory's |
| ImportFindings.LinkBehindLinkLoses | pkg/stacker/import.go:166-172 | with a link behind that link a file is lost although the source shows no path that lingers |
| ImportCopy.Copy.RemoveAll | pkg/stacker/import.go:168-172 | what the path names, links followed on the way, goes with all below it; nothing there is no error, a file on the way is |
| ImportCopy.Copy.MkdirAll | pkg/stacker/import.go:222-225 | missing parents are made where the path leads, anything but a directory on the way is an error |
| ImportCopy.Copy.FileCopy | pkg/lib/file.go:15-74 | what the path names is removed and the file or link put there |
| ImportCopy.Copy.ImportDirectory | pkg/stacker/import.go:193-220 | a file or link gives way to the directory, a directory stays |
| ImportCopy.Copy.ImportFile | pkg/stacker/import.go:136-236 | the loop over the differences, ending with the copy equal to the source if the links are safe |
| SubordinateIds.AddEntries | pkg/storage/unpriv-setup.go:26-76 | the scan with its early exits computes the new file |
| SubordinateIds.NewRangeIsDisjoint | pkg/storage/unpriv-setup.go:26-76 | a new name gets a range apart from all others and from the current id, and the file still parses |
| SubordinateIds.SecondCallChangesNothing | pkg/storage/unpriv-setup.go:40-42 | a name that has a range leaves the file as it is |
| SubordinateIds.CallsKeepRangesDisjoint | pkg/storage/unpriv-setup.go:26-76 | any sequence of calls succeeds and keeps the ranges disjoint |
| SubordinateIds.AppendNeedsTerminatedFile | pkg/storage/unpriv-setup.go:73-75 | the extended file parses if and only if the old one ended its last line |

## Left out

- ImagesAreExact: `overlay_dirs` are not modelled, because the mount and the repack order them differently; image configs, histories and diff ids are not either.
- MountsAreSound: opaque directories and extended attributes are not part of the merged view; whiteouts of single paths are.
- IncrementalEqualsClean: speaks of what roots and images are made from, not of what they hold, for which see CachedRunIsCleanIffNotStale; imports with `dest`, binds, `--no-cache` and setup-only mode are excluded by hypothesis, and so are archives at `stacker://` addresses as bases, two base archives with one file name, and two base images of different addresses with one cache tag, which the model identifies.
- IncrementalEqualsCleanAfterCompletedRuns: speaks of what roots and images are made from, as IncrementalEqualsClean does.
- CachedRunEqualsScratchRun: speaks of what roots and images are made from, as IncrementalEqualsClean does.
- ProcessKeeps: speaks of records; that a repack also changes other layers' directories is in CachedStore.Turn and HistoryInv.
- PastIsCoherent: speaks of records, as ProcessKeeps does.
- RunSucceedsIffClean: speaks of records; on the disk a turn can fail where TurnSucceedsIff says so.
- HistoryInv: a build that fails in the middle of a repack, layer types that change between builds and `overlay_dirs` are not modelled; failures in a layer's commands and between the repack and the entry are.
- CachedRunIsCleanIffNotStale: as HistoryInv, and a container's change is a function of what it is mounted on and of its inputs.  Layers built on a base that does not stand are in the histories, but what their images hold is not said.
- HistorySafe: its condition on the history, SafeHistory, is sufficient and not necessary: a mount that a repack hollowed or that came back filled does no harm if nothing is built on it or imported from it later.
- TurnSucceedsIff: is stated on bases that stand; on others a turn is whatever Turn makes of the disk.
- BuildLoop.Builder.OpenCache: the version check (pkg/stacker/cache.go:122-133) is not modelled; a cache of another version is dropped as a whole, and the model starts from an empty cache only at the beginning.
- BuildLoop.Builder.Import: stale files that are deleted before a fresh copy, and a `dest` that becomes an overlay directory, are not modelled.
- BuildLoop.Builder.Rebuild: the builder keeps the cache's records; what a repack does to the disk and to other layers is added by CachedStore.Rebuilt.
- BuildLoop.Builder.BuildLayer: keeps the cache's records, as Rebuild does.
- BuildLoop.Builder.Build: keeps the cache's records and takes the order as given; the order and the check of names are in OrderFile.
- BuildLoop.Builder.BuildMultiple: takes the files and their orders as given; WholeBuild.BuildMultiple makes them.
- SubstituteIsEvaluate: templates have `$` only in placeholders, values have no `$`, as a `$` in a value is expanded by the regular expression library, and given keys have no metacharacter of regular expressions; termination and the absence of placeholders are proved for every text.
- ReplaceGiven: a given key is matched as it is written; the code puts it into a regular expression unquoted, which is the same for keys without metacharacters.
- RunSubstitute: matches keys as ReplaceGiven does.
- NewStackerFiles: prerequisites are identifiers of files, already resolved; one given as a URL, which the code reads under one name and looks up under another and so fails on, is not modelled.  What the program does when its stack is exhausted is not modelled further than that it ends there.
- RightIffLinksAreSafe: is stated where ConflictsSettled holds; where a link in conflict, or the way behind it to a path that is removed, leads on through another link, what it leads to depends on how far the run has come, and only LingersIsWrong and NoConflictsIsRight apply.
- ImportFile: the path has no trailing slash and no `dest`; a link leads to a path of the copy with its dots resolved by name, or outside, where operations succeed and their effect is not modelled; sockets and devices are not modelled.
- ParallelEqualsSequential: extraction is modelled by its contract (it finds entries, fills the directory, or fails), and directories start empty or complete.
- NewRangeIsDisjoint: negative ranges and sums beyond 64 bits are excluded by hypothesis.
- OverlayStore.Overlay.SetupRootfs: extraction of an archive into the root and the fallback for an image without layers (pkg/stacker/base.go:81-93) are folded into an empty root.
- OverlayStore.Overlay.RepackOverlay: `overlay_dirs` layers (pkg/overlay/pack.go:559-585) are not modelled.
- RootfsString.CollectLowerdirs: an error of stat other than absence is not modelled.
- RootfsString.LxcRootfsString: such errors and a failing mkdir of the workaround directory are not modelled.
- OverlayStore.Overlay.Repack: an I/O error in the middle, which would leave a half-repacked disk, is not modelled.
- Two references that differ only in how a layer type decorates a layer's name are taken as different.
- The links under a layer's store directory are followed silently: a store entry is the content it leads to.
- The graph library is a set of edges with its own verified components and traversal; the order among independent files is arbitrary.
- `CleanImportsDir`, which only deletes directories before a fresh copy.
- LXC containers, user namespaces, registries, downloads, credentials, publishing, conversion of Dockerfiles, command line, logging, YAML and JSON.
- Tar, squashfs, erofs and verity encoders, mtree and regular expressions: modelled by what they return.

/** Extracting a manifest's layers on the worker pool (pkg/overlay/pack.go, Unpack and unpackOne):
    the jobs of ThreadPool.dfy now look at, fill and clear directories of the shared store, step by
    step and interleaved in any way.  What comes out is what extracting one after the other gives. */
module ParallelUnpack {
  import opened Wrappers
  import opened OverlayDisk
  import opened ThreadPool

  ghost predicate NoRepeats(jobs: seq<Digest>) {
    forall i, j :: 0 <= i < |jobs| && 0 <= j < |jobs| && jobs[i] == jobs[j] ==> i == j
  }

  /** One job for each digest, in the order in which digests first occur. */
  method QueueJobs(layers: Manifest) returns (jobs: seq<Digest>)
    ensures NoRepeats(jobs)
    ensures forall x :: x in jobs <==> x in layers
  {
    jobs := [];
    var seen: set<Digest> := {};
    for i := 0 to |layers|
      invariant forall x :: x in seen <==> x in layers[..i]
      invariant forall x :: x in seen <==> x in jobs
      invariant NoRepeats(jobs)
    {
      if layers[i] !in seen {
        seen := seen + {layers[i]};
        jobs := jobs + [layers[i]];
      }
    }
  }

  // `looked` says for each job that has looked at its directory whether it found entries there.
  datatype Unpacking = Unpacking(pool: Pool, store: map<Digest, Diff>, looked: map<nat, bool>)

  datatype Action =
    | PoolStep(e: Event)
    | Look(w: nat)
    | Write(w: nat, content: Diff)   // some of the layer's entries are there now
    | Clear(w: nat)                  // the directory is removed after a failed extraction

  predicate HasDirEntries(store: map<Digest, Diff>, x: Digest) {
    x in store && store[x] != map[]
  }

  predicate Extracting(u: Unpacking, jobs: seq<Digest>, w: nat) {
    && IsWorker(u.pool, w) && u.pool.workers[w].Working?
    && u.pool.workers[w].job in u.looked && !u.looked[u.pool.workers[w].job]
    && u.pool.workers[w].job < |jobs|
  }

  /** What a job may return: nil when it found entries, nil when its layer is completely there, and an
      error only if it found none. */
  predicate MayReturn(u: Unpacking, jobs: seq<Digest>, bases: set<Digest>, w: nat, outcome: Outcome)
    requires Enabled(u.pool, Return(w, outcome))
  {
    var job := u.pool.workers[w].job;
    && job in u.looked && job < |jobs|
    && match outcome
       case Fine => u.looked[job] || (jobs[job] in bases && jobs[job] in u.store && u.store[jobs[job]] == jobs[job].diff)
       case Cancelled => false
       case Failed(_) => !u.looked[job]
  }

  predicate CanHappen(u: Unpacking, jobs: seq<Digest>, bases: set<Digest>, a: Action) {
    match a
    case PoolStep(e) =>
      && Enabled(u.pool, e)
      && (e.Add? ==> u.pool.queued < |jobs|)
      && (e.Start? ==> u.pool.closed)
      && (e.DoneAddingJobs? ==> u.pool.queued == |jobs|)
      && (e.Return? ==> MayReturn(u, jobs, bases, e.w, e.outcome))
    case Look(w) =>
      && IsWorker(u.pool, w) && u.pool.workers[w].Working?
      && u.pool.workers[w].job !in u.looked && u.pool.workers[w].job < |jobs|
    case Write(w, _) => Extracting(u, jobs, w) && jobs[u.pool.workers[w].job] in bases
    case Clear(w) => Extracting(u, jobs, w)
  }

  function Act(u: Unpacking, jobs: seq<Digest>, bases: set<Digest>, a: Action): Unpacking
    requires CanHappen(u, jobs, bases, a)
  {
    match a
    case PoolStep(e) => u.(pool := Step(u.pool, e))
    case Look(w) =>
      var job := u.pool.workers[w].job;
      u.(looked := u.looked[job := HasDirEntries(u.store, jobs[job])])
    case Write(w, content) => u.(store := u.store[jobs[u.pool.workers[w].job] := content])
    case Clear(w) => u.(store := u.store - {jobs[u.pool.workers[w].job]})
  }

  /** The state after some interleaved actions on n workers, starting from disk d. */
  function Extraction(d: Disk, jobs: seq<Digest>, n: nat, actions: seq<Action>): Result<Unpacking> {
    if actions == [] then Ok(Unpacking(NewThreadPool(n), d.store, map[]))
    else
      var u :- Extraction(d, jobs, n, actions[..|actions| - 1]);
      var a := actions[|actions| - 1];
      if CanHappen(u, jobs, d.bases, a) then Ok(Act(u, jobs, d.bases, a)) else Err
  }

  // ----- an extraction is an execution of the pool -----

  function PoolSteps(actions: seq<Action>): seq<Event> {
    if actions == [] then []
    else
      var before, a := PoolSteps(actions[..|actions| - 1]), actions[|actions| - 1];
      if a.PoolStep? then before + [a.e] else before
  }

  lemma {:induction false} ExtractionIsExecution(d: Disk, jobs: seq<Digest>, n: nat, actions: seq<Action>)
    requires Extraction(d, jobs, n, actions).Ok?
    ensures Execution(n, PoolSteps(actions)) == Ok(Extraction(d, jobs, n, actions).value.pool)
  {
    if actions != [] {
      var before, a := actions[..|actions| - 1], actions[|actions| - 1];
      ExtractionIsExecution(d, jobs, n, before);
      if a.PoolStep? {
        assert (PoolSteps(before) + [a.e])[..|PoolSteps(before)|] == PoolSteps(before);
      }
    }
  }

  // ----- what every interleaving keeps -----

  predicate SameAt(a: map<Digest, Diff>, b: map<Digest, Diff>, x: Digest) {
    if x in b then x in a && a[x] == b[x] else x !in a
  }

  /** One job's directory: as it was found, until the job itself fills it. */
  predicate JobOk(d: Disk, u: Unpacking, x: Digest, job: nat) {
    if job !in u.looked then
      SameAt(u.store, d.store, x) && job !in u.pool.outcomes
    else if u.looked[job] then
      SameAt(u.store, d.store, x) && HasDirEntries(d.store, x)
    else
      && !HasDirEntries(d.store, x)
      && (job in u.pool.outcomes && u.pool.outcomes[job].Fine? ==>
            x in d.bases && x in u.store && u.store[x] == x.diff)
  }

  ghost predicate UnpackInv(d: Disk, jobs: seq<Digest>, u: Unpacking) {
    && JobsOk(u.pool) && u.pool.queued <= |jobs|
    && (u.pool.closed ==> u.pool.queued == |jobs|)
    && (forall job <- u.pool.outcomes :: !u.pool.outcomes[job].Cancelled?)
    && (forall x :: x !in jobs ==> SameAt(u.store, d.store, x))
    && (forall job: nat :: job < |jobs| ==> JobOk(d, u, jobs[job], job))
  }

  lemma ActKeepsInv(d: Disk, jobs: seq<Digest>, u: Unpacking, a: Action)
    requires NoRepeats(jobs) && UnpackInv(d, jobs, u) && CanHappen(u, jobs, d.bases, a)
    ensures UnpackInv(d, jobs, Act(u, jobs, d.bases, a))
  {
    var v := Act(u, jobs, d.bases, a);
    if a.PoolStep? {
      JobsKept(u.pool, a.e);
    } else {
      var now := u.pool.workers[a.w].job;
      assert InFlight(u.pool, a.w, now);
      forall x | x !in jobs ensures SameAt(v.store, d.store, x) {
        assert x != jobs[now];
      }
      forall job: nat | job < |jobs| ensures JobOk(d, v, jobs[job], job) {
        assert JobOk(d, u, jobs[job], job);
        assert job != now ==> jobs[job] != jobs[now];
      }
    }
  }

  lemma {:induction false} ExtractionKeepsInv(d: Disk, jobs: seq<Digest>, n: nat, actions: seq<Action>)
    requires NoRepeats(jobs) && Extraction(d, jobs, n, actions).Ok?
    ensures UnpackInv(d, jobs, Extraction(d, jobs, n, actions).value)
  {
    if actions == [] {
      ExecutionKeepsInv(n, []);
    } else {
      var before := actions[..|actions| - 1];
      ExtractionKeepsInv(d, jobs, n, before);
      ActKeepsInv(d, jobs, Extraction(d, jobs, n, before).value, actions[|actions| - 1]);
    }
  }

  /** At no time do two workers work on the same directory. */
  lemma DirectoriesAreExclusive(d: Disk, jobs: seq<Digest>, n: nat, actions: seq<Action>, v: nat, w: nat, i: nat, j: nat)
    requires NoRepeats(jobs) && Extraction(d, jobs, n, actions).Ok?
    requires var p := Extraction(d, jobs, n, actions).value.pool; InFlight(p, v, i) && InFlight(p, w, j)
    ensures i < |jobs| && j < |jobs| && (jobs[i] == jobs[j] ==> v == w)
  {
    ExtractionKeepsInv(d, jobs, n, actions);
  }

  // ----- one layer after the other -----

  predicate Unpackable(d: Disk, x: Digest) {
    HasDirEntries(d.store, x) || x in d.bases
  }

  predicate UnpackedAt(d: Disk, store: map<Digest, Diff>, x: Digest) {
    if HasDirEntries(d.store, x) then SameAt(store, d.store, x) else x in store && store[x] == x.diff
  }

  predicate LayerAt(d: Disk, layers: Manifest, store: map<Digest, Diff>, x: Digest) {
    if x in layers then UnpackedAt(d, store, x) else SameAt(store, d.store, x)
  }

  lemma {:induction false} UnpackLayersAt(d: Disk, xs: Manifest)
    requires forall x <- xs :: Unpackable(d, x)
    ensures UnpackLayers(d, xs).Ok?
    ensures var r := UnpackLayers(d, xs).value;
      && r == d.(store := r.store)
      && forall x :: LayerAt(d, xs, r.store, x)
  {
    if xs != [] {
      var before, x := xs[..|xs| - 1], xs[|xs| - 1];
      UnpackLayersAt(d, before);
      assert Unpackable(d, x);
      var r := UnpackLayers(d, before).value;
      assert LayerAt(d, before, r.store, x);
      var r' := UnpackOne(r, x).value;
      forall y ensures LayerAt(d, xs, r'.store, y) {
        assert LayerAt(d, before, r.store, y);
        assert xs == before + [x];
      }
    }
  }

  /** If the pool reports no error, every layer of the manifest, repeated or not, has its directory
      and the store is exactly what extracting the layers one by one leaves. */
  lemma ParallelEqualsSequential(d: Disk, layers: Manifest, jobs: seq<Digest>, n: nat, actions: seq<Action>)
    requires n >= 1 && NoRepeats(jobs) && forall x :: x in jobs <==> x in layers
    requires Extraction(d, jobs, n, actions).Ok?
    requires var u := Extraction(d, jobs, n, actions).value; HasReturned(u.pool) && u.pool.err.None?
    ensures UnpackLayers(d, layers) == Ok(d.(store := Extraction(d, jobs, n, actions).value.store))
  {
    var u := Extraction(d, jobs, n, actions).value;
    ExtractionKeepsInv(d, jobs, n, actions);
    ExtractionIsExecution(d, jobs, n, actions);
    RunReportsFailure(n, PoolSteps(actions));
    forall x | x in layers ensures Unpackable(d, x) && UnpackedAt(d, u.store, x) {
      JobDone(d, jobs, u, x);
    }
    UnpackLayersAt(d, layers);
    forall x ensures LayerAt(d, layers, u.store, x) {
    }
    SameStores(d, layers, UnpackLayers(d, layers).value.store, u.store);
  }

  lemma JobDone(d: Disk, jobs: seq<Digest>, u: Unpacking, x: Digest)
    requires UnpackInv(d, jobs, u) && x in jobs && u.pool.closed
    requires forall job: nat :: job < u.pool.queued ==> job in u.pool.outcomes
    requires forall job <- u.pool.outcomes :: !u.pool.outcomes[job].Failed?
    ensures Unpackable(d, x) && UnpackedAt(d, u.store, x)
  {
    var job :| 0 <= job < |jobs| && jobs[job] == x;
    assert job in u.pool.outcomes && JobOk(d, u, jobs[job], job);
  }

  lemma SameStores(d: Disk, layers: Manifest, a: map<Digest, Diff>, b: map<Digest, Diff>)
    requires forall x :: LayerAt(d, layers, a, x) && LayerAt(d, layers, b, x)
    ensures a == b
  {
    forall x ensures SameAt(a, b, x) {
      assert LayerAt(d, layers, a, x) && LayerAt(d, layers, b, x);
    }
    forall x ensures x in a <==> x in b {
      assert SameAt(a, b, x);
    }
    forall x | x in a ensures a[x] == b[x] {
      assert SameAt(a, b, x);
    }
  }
}

/** The worker pool that extracts layers in parallel (pkg/overlay/pool.go), as a step system: a
    buffered channel of jobs, n workers, a cancel flag and one shared error field.  An execution is
    any interleaving of the steps below.  A job is known by its position in the order of adding. */
module ThreadPool {
  import opened Collections
  import opened Wrappers

  const CAPACITY: nat := 1000

  type Error = string

  datatype Outcome = Fine | Cancelled | Failed(error: Error)

  // Between a failed job and its worker's end lie two writes: the error field, then the cancel flag.
  datatype Worker = Ready | Working(job: nat) | Storing(job: nat, error: Error) | Cancelling | Gone

  datatype Pool = Pool(
    workers: seq<Worker>,
    running: bool,                 // Run was called
    queued: nat,                   // jobs added so far
    closed: bool,                  // DoneAddingJobs was called
    begun: seq<nat>,               // the jobs received from the channel, in order
    cancelled: bool,
    err: Option<Error>,
    outcomes: map<nat, Outcome>)   // what each finished job returned

  datatype Event =
    | Add
    | DoneAddingJobs
    | Start
    | Receive(w: nat)
    | SeeCancel(w: nat)
    | SeeEnd(w: nat)
    | Return(w: nat, outcome: Outcome)
    | Store(w: nat)
    | Cancel(w: nat)

  function NewThreadPool(n: nat): Pool {
    Pool(seq(n, _ => Ready), false, 0, false, [], false, None, map[])
  }

  predicate IsWorker(p: Pool, w: nat) {
    p.running && w < |p.workers|
  }

  /** When a step can happen.  Adding blocks while the channel's buffer is full.  A worker that waits
      may take either ready branch of its select, whether or not the pool was cancelled. */
  predicate Enabled(p: Pool, e: Event) {
    match e
    case Add => !p.closed && p.queued - |p.begun| < CAPACITY
    case DoneAddingJobs => !p.closed
    case Start => !p.running
    case Receive(w) => IsWorker(p, w) && p.workers[w].Ready? && |p.begun| < p.queued
    case SeeCancel(w) => IsWorker(p, w) && p.workers[w].Ready? && p.cancelled
    case SeeEnd(w) => IsWorker(p, w) && p.workers[w].Ready? && p.closed && |p.begun| >= p.queued
    case Return(w, _) => IsWorker(p, w) && p.workers[w].Working?
    case Store(w) => IsWorker(p, w) && p.workers[w].Storing?
    case Cancel(w) => IsWorker(p, w) && p.workers[w].Cancelling?
  }

  function Step(p: Pool, e: Event): Pool
    requires Enabled(p, e)
  {
    match e
    case Add => p.(queued := p.queued + 1)
    case DoneAddingJobs => p.(closed := true)
    case Start => p.(running := true)
    case Receive(w) => p.(begun := p.begun + [|p.begun|], workers := p.workers[w := Working(|p.begun|)])
    case SeeCancel(w) => p.(workers := p.workers[w := Gone])
    case SeeEnd(w) => p.(workers := p.workers[w := Gone])
    case Return(w, outcome) =>
      var job := p.workers[w].job;
      p.(outcomes := p.outcomes[job := outcome],
         workers := p.workers[w := if outcome.Failed? then Storing(job, outcome.error) else Ready])
    case Store(w) => p.(err := Some(p.workers[w].error), workers := p.workers[w := Cancelling])
    case Cancel(w) => p.(cancelled := true, workers := p.workers[w := Gone])
  }

  /** The pool after the given steps, if each could happen when its turn came. */
  function Execution(n: nat, es: seq<Event>): Result<Pool> {
    if es == [] then Ok(NewThreadPool(n))
    else
      var p :- Execution(n, es[..|es| - 1]);
      if Enabled(p, es[|es| - 1]) then Ok(Step(p, es[|es| - 1])) else Err
  }

  /** The wait for all workers is over: Run returns the error field. */
  predicate HasReturned(p: Pool) {
    p.running && forall i :: 0 <= i < |p.workers| ==> p.workers[i].Gone?
  }

  // ----- what every interleaving keeps -----

  predicate InFlight(p: Pool, w: nat, job: nat) {
    w < |p.workers| && p.workers[w] == Working(job)
  }

  ghost predicate SomeInFlight(p: Pool, job: nat) {
    exists w: nat :: InFlight(p, w, job)
  }

  /** A received job is in one worker's hands or has returned, never both. */
  ghost predicate JobsOk(p: Pool) {
    && |p.begun| <= p.queued
    && (forall i :: 0 <= i < |p.begun| ==> p.begun[i] == i)
    && (forall job <- p.outcomes :: job < |p.begun|)
    && (forall w: nat, job: nat :: InFlight(p, w, job) ==> job < |p.begun| && job !in p.outcomes)
    && (forall v: nat, w: nat, job: nat :: InFlight(p, v, job) && InFlight(p, w, job) ==> v == w)
    && (forall job: nat :: job < |p.begun| && job !in p.outcomes ==> SomeInFlight(p, job))
  }

  ghost predicate SomeFailed(p: Pool, error: Error) {
    exists job :: job in p.outcomes && p.outcomes[job] == Failed(error)
  }

  ghost predicate SomeStoring(p: Pool) {
    exists w :: 0 <= w < |p.workers| && p.workers[w].Storing?
  }

  /** The error field holds a returned error, and stays empty only while no error was returned or its
      worker has not yet stored it.  Workers leave only when an error is stored or no job is left. */
  ghost predicate ErrorsOk(p: Pool) {
    && (p.err.Some? ==> SomeFailed(p, p.err.value))
    && (forall w :: 0 <= w < |p.workers| && p.workers[w].Storing? ==> SomeFailed(p, p.workers[w].error))
    && (forall w :: 0 <= w < |p.workers| && p.workers[w].Cancelling? ==> p.err.Some?)
    && (forall job <- p.outcomes :: p.outcomes[job].Failed? ==> p.err.Some? || SomeStoring(p))
    && (p.cancelled ==> p.err.Some?)
    && (forall w :: 0 <= w < |p.workers| && p.workers[w].Gone? ==> p.err.Some? || (p.closed && |p.begun| == p.queued))
  }

  lemma JobsKeptByReceive(p: Pool, w: nat)
    requires JobsOk(p) && Enabled(p, Receive(w))
    ensures JobsOk(Step(p, Receive(w)))
  {
    var q, now := Step(p, Receive(w)), |p.begun|;
    forall v: nat, job: nat | InFlight(q, v, job) ensures if v == w then job == now else InFlight(p, v, job) {
    }
    assert InFlight(q, w, now);
    forall job: nat | job < |q.begun| && job !in q.outcomes ensures SomeInFlight(q, job) {
      if job < now {
        var v: nat :| InFlight(p, v, job);
        assert InFlight(q, v, job);
      }
    }
  }

  lemma JobsKeptByReturn(p: Pool, w: nat, outcome: Outcome)
    requires JobsOk(p) && Enabled(p, Return(w, outcome))
    ensures JobsOk(Step(p, Return(w, outcome)))
  {
    var q, done := Step(p, Return(w, outcome)), p.workers[w].job;
    assert InFlight(p, w, done);
    forall v: nat, job: nat | InFlight(q, v, job) ensures v != w && InFlight(p, v, job) && job != done {
      assert v != w && InFlight(p, v, job);
    }
    forall job: nat | job < |q.begun| && job !in q.outcomes ensures SomeInFlight(q, job) {
      var v: nat :| InFlight(p, v, job);
      assert InFlight(q, v, job);
    }
  }

  lemma JobsKept(p: Pool, e: Event)
    requires JobsOk(p) && Enabled(p, e)
    ensures JobsOk(Step(p, e))
  {
    if e.Receive? {
      JobsKeptByReceive(p, e.w);
    } else if e.Return? {
      JobsKeptByReturn(p, e.w, e.outcome);
    } else {
      var q := Step(p, e);
      forall v: nat, job: nat ensures InFlight(q, v, job) <==> InFlight(p, v, job) {
      }
      forall job: nat | job < |q.begun| && job !in q.outcomes ensures SomeInFlight(q, job) {
        var v: nat :| InFlight(p, v, job);
        assert InFlight(q, v, job);
      }
    }
  }

  lemma FailuresStay(p: Pool, e: Event, error: Error)
    requires JobsOk(p) && Enabled(p, e) && SomeFailed(p, error)
    ensures SomeFailed(Step(p, e), error)
  {
    var job :| job in p.outcomes && p.outcomes[job] == Failed(error);
    if e.Return? {
      assert InFlight(p, e.w, p.workers[e.w].job);
    }
    assert job in Step(p, e).outcomes && Step(p, e).outcomes[job] == Failed(error);
  }

  lemma FailureNoted(p: Pool, w: nat, outcome: Outcome)
    requires Enabled(p, Return(w, outcome)) && outcome.Failed?
    ensures SomeFailed(Step(p, Return(w, outcome)), outcome.error)
  {
    var q := Step(p, Return(w, outcome));
    assert p.workers[w].job in q.outcomes && q.outcomes[p.workers[w].job] == Failed(outcome.error);
  }

  lemma StoringStays(p: Pool, e: Event)
    requires Enabled(p, e) && SomeStoring(p)
    ensures Step(p, e).err.Some? || SomeStoring(Step(p, e))
  {
    if !e.Store? {
      var w :| 0 <= w < |p.workers| && p.workers[w].Storing?;
      assert Step(p, e).workers[w].Storing?;
    }
  }

  lemma ErrorsKept(p: Pool, e: Event)
    requires JobsOk(p) && ErrorsOk(p) && Enabled(p, e)
    ensures ErrorsOk(Step(p, e))
  {
    var q := Step(p, e);
    forall error | SomeFailed(p, error) ensures SomeFailed(q, error) {
      FailuresStay(p, e, error);
    }
    if e.Return? && e.outcome.Failed? {
      FailureNoted(p, e.w, e.outcome);
      assert q.workers[e.w].Storing?;
    }
    if SomeStoring(p) {
      StoringStays(p, e);
    }
  }

  ghost predicate Inv(p: Pool) {
    JobsOk(p) && ErrorsOk(p)
  }

  lemma {:induction false} ExecutionKeepsInv(n: nat, es: seq<Event>)
    requires Execution(n, es).Ok?
    ensures Inv(Execution(n, es).value)
  {
    if es == [] {
      var p := NewThreadPool(n);
      assert forall w :: 0 <= w < |p.workers| ==> p.workers[w] == Ready;
    } else {
      var before, e := es[..|es| - 1], es[|es| - 1];
      ExecutionKeepsInv(n, before);
      JobsKept(Execution(n, before).value, e);
      ErrorsKept(Execution(n, before).value, e);
    }
  }

  /** How often a job was handed to a worker. */
  function TimesBegun(begun: seq<nat>, job: nat): nat {
    if begun == [] then 0
    else TimesBegun(begun[..|begun| - 1], job) + if begun[|begun| - 1] == job then 1 else 0
  }

  lemma {:induction false} BegunOnce(begun: seq<nat>, job: nat)
    requires forall i :: 0 <= i < |begun| ==> begun[i] == i
    ensures TimesBegun(begun, job) == if job < |begun| then 1 else 0
  {
    if begun != [] {
      BegunOnce(begun[..|begun| - 1], job);
    }
  }

  /** No job runs twice, and no two workers ever hold the same job. */
  lemma NoJobRunsTwice(n: nat, es: seq<Event>, job: nat)
    requires Execution(n, es).Ok?
    ensures var p := Execution(n, es).value;
      && TimesBegun(p.begun, job) <= 1
      && (TimesBegun(p.begun, job) == 1 <==> job in p.outcomes || SomeInFlight(p, job))
      && !(job in p.outcomes && SomeInFlight(p, job))
      && forall v: nat, w: nat :: InFlight(p, v, job) && InFlight(p, w, job) ==> v == w
  {
    ExecutionKeepsInv(n, es);
    BegunOnce(Execution(n, es).value.begun, job);
  }

  /** With at least one worker, Run returns nil if and only if no job returned a real error, and then
      every added job ran to its end; otherwise it returns an error that some job returned. */
  lemma RunReportsFailure(n: nat, es: seq<Event>)
    requires n >= 1 && Execution(n, es).Ok? && HasReturned(Execution(n, es).value)
    ensures var p := Execution(n, es).value;
      && (p.err.None? <==> forall job <- p.outcomes :: !p.outcomes[job].Failed?)
      && (p.err.None? ==> p.closed && forall job: nat :: job < p.queued ==> job in p.outcomes)
      && (p.err.Some? ==> SomeFailed(p, p.err.value))
  {
    ExecutionKeepsInv(n, es);
    WorkersStay(n, es);
    var p := Execution(n, es).value;
    assert p.workers[0].Gone?;
    assert !SomeStoring(p);
    if p.err.None? {
      forall job: nat | job < p.queued ensures job in p.outcomes {
        HoldsNothing(p, job);
      }
    }
  }

  lemma HoldsNothing(p: Pool, job: nat)
    requires HasReturned(p)
    ensures !SomeInFlight(p, job)
  {
    forall w: nat ensures !InFlight(p, w, job) {
      if w < |p.workers| {
        assert p.workers[w].Gone?;
      }
    }
  }

  lemma {:induction false} WorkersStay(n: nat, es: seq<Event>)
    requires Execution(n, es).Ok?
    ensures |Execution(n, es).value.workers| == n
  {
    if es != [] {
      WorkersStay(n, es[..|es| - 1]);
    }
  }

  // ----- termination -----

  function Rank(worker: Worker): nat {
    match worker
    case Ready => 0
    case Working(_) => 0
    case Storing(_, _) => 0
    case Cancelling => 1
    case Gone => 2
  }

  function Ranks(workers: seq<Worker>): (r: nat)
    ensures r <= 2 * |workers|
  {
    if workers == [] then 0 else Ranks(workers[..|workers| - 1]) + Rank(workers[|workers| - 1])
  }

  lemma {:induction false} RanksUpdate(workers: seq<Worker>, w: nat, worker: Worker)
    requires w < |workers|
    ensures Ranks(workers[w := worker]) == Ranks(workers) - Rank(workers[w]) + Rank(worker)
  {
    var last := |workers| - 1;
    if w < last {
      assert workers[w := worker][..last] == workers[..last][w := worker];
      RanksUpdate(workers[..last], w, worker);
    } else {
      assert workers[w := worker][..last] == workers[..last];
    }
  }

  function Progress(p: Pool): nat {
    p.queued + (if p.closed then 1 else 0) + (if p.running then 1 else 0)
      + |p.begun| + |p.outcomes| + Ranks(p.workers)
  }

  lemma StepIsProgress(p: Pool, e: Event)
    requires JobsOk(p) && Enabled(p, e)
    ensures Progress(Step(p, e)) >= Progress(p) + 1
  {
    match e
    case Receive(w) => RanksUpdate(p.workers, w, Step(p, e).workers[w]);
    case SeeCancel(w) => RanksUpdate(p.workers, w, Gone);
    case SeeEnd(w) => RanksUpdate(p.workers, w, Gone);
    case Return(w, _) =>
      assert InFlight(p, w, p.workers[w].job);
      RanksUpdate(p.workers, w, Step(p, e).workers[w]);
    case Store(w) => RanksUpdate(p.workers, w, Cancelling);
    case Cancel(w) => RanksUpdate(p.workers, w, Gone);
    case _ =>
  }

  lemma {:induction false} ExecutionProgress(n: nat, es: seq<Event>)
    requires Execution(n, es).Ok?
    ensures |es| <= Progress(Execution(n, es).value)
  {
    if es == [] {
    } else {
      var before := es[..|es| - 1];
      ExecutionProgress(n, before);
      ExecutionKeepsInv(n, before);
      StepIsProgress(Execution(n, before).value, es[|es| - 1]);
    }
  }

  lemma {:induction false} FewBelow(jobs: set<nat>, k: nat)
    requires forall job <- jobs :: job < k
    ensures |jobs| <= k
  {
    if k == 0 {
      assert jobs == {};
    } else {
      FewBelow(jobs - {k - 1}, k - 1);
      SizeOfUnion(jobs, jobs - {k - 1}, k - 1);
    }
  }

  lemma SizeOfUnion(a: set<nat>, b: set<nat>, x: nat)
    requires a <= b + {x}
    ensures |a| <= |b| + 1
  {
    var c := a - {x};
    assert c <= b && a <= c + {x};
    SubsetSize(c, b);
    assert if x in a then a == c + {x} else a == c;
  }

  /** Every interleaving is finite if jobs are: no execution has more steps than this. */
  lemma ExecutionsAreBounded(n: nat, es: seq<Event>)
    requires Execution(n, es).Ok?
    ensures |es| <= 3 * Execution(n, es).value.queued + 2 * n + 2
  {
    ExecutionProgress(n, es);
    ExecutionKeepsInv(n, es);
    WorkersStay(n, es);
    var p := Execution(n, es).value;
    FewBelow(p.outcomes.Keys, |p.begun|);
    assert |p.outcomes| == |p.outcomes.Keys|;
  }

  /** What worker w can do next.  A job that is working is taken to return in the end. */
  function NextStep(p: Pool, w: nat, outcome: Outcome): Event
    requires w < |p.workers|
  {
    match p.workers[w]
    case Ready => if |p.begun| < p.queued then Receive(w) else SeeEnd(w)
    case Working(_) => Return(w, outcome)
    case Storing(_, _) => Store(w)
    case _ => Cancel(w)
  }

  /** No worker waits forever: once all jobs are added, each worker that is not gone can step.  With
      the bound above, Run returns however the steps are interleaved. */
  lemma NeverStuck(n: nat, es: seq<Event>, w: nat, outcome: Outcome)
    requires Execution(n, es).Ok?
    requires var p := Execution(n, es).value; IsWorker(p, w) && !p.workers[w].Gone? && p.closed
    ensures Execution(n, es + [NextStep(Execution(n, es).value, w, outcome)]).Ok?
  {
    var p := Execution(n, es).value;
    var more := es + [NextStep(p, w, outcome)];
    assert more[..|es|] == es;
  }

  /** A run that returns: one worker, one job. */
  lemma SomeRunReturns()
    ensures var es := [Add, DoneAddingJobs, Start, Receive(0), Return(0, Fine), SeeEnd(0)];
      Execution(1, es).Ok? && HasReturned(Execution(1, es).value) && 0 in Execution(1, es).value.outcomes
  {
    var es := [Add, DoneAddingJobs, Start, Receive(0), Return(0, Fine), SeeEnd(0)];
    assert es[..5][..4][..3][..2][..1][..0] == [];
    assert es[..5] == [Add, DoneAddingJobs, Start, Receive(0), Return(0, Fine)];
    assert es[..5][..4] == [Add, DoneAddingJobs, Start, Receive(0)];
    assert es[..5][..4][..3] == [Add, DoneAddingJobs, Start];
    assert es[..5][..4][..3][..2] == [Add, DoneAddingJobs];
    assert Execution(1, [Add]) == Ok(NewThreadPool(1).(queued := 1));
    assert Execution(1, [Add, DoneAddingJobs]).Ok?;
    assert Execution(1, [Add, DoneAddingJobs, Start]).Ok?;
    assert Execution(1, [Add, DoneAddingJobs, Start, Receive(0)]).Ok?;
  }

  // ----- adding everything before running -----

  /** What the caller in pack.go does: every job is added before the workers start. */
  function AddAll(k: nat): seq<Event> {
    seq(k, _ => Add)
  }

  lemma {:induction false} AddsOnly(n: nat, k: nat)
    ensures k <= CAPACITY ==> Execution(n, AddAll(k)) == Ok(NewThreadPool(n).(queued := k))
    ensures k > CAPACITY ==> Execution(n, AddAll(k)).Err?
  {
    if k > 0 {
      AddsOnly(n, k - 1);
      assert AddAll(k)[..k - 1] == AddAll(k - 1);
    }
  }

  /** Adding every job first works only while the jobs fit the channel's buffer: with more, the caller
      waits in Add for a worker that it has not started. */
  lemma AddingFirstNeedsRoom(n: nat, k: nat)
    ensures Execution(n, AddAll(k) + [DoneAddingJobs, Start]).Ok? <==> k <= CAPACITY
  {
    AddsOnly(n, k);
    var es := AddAll(k);
    var closed := es + [DoneAddingJobs];
    var all := es + [DoneAddingJobs, Start];
    assert closed[..|es|] == es;
    assert all[..|es| + 1] == closed;
  }
}

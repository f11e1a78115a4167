// The whole service as a transition system: webhook deliveries, handlers that may read a stale lock,
// the single worker, GitHub, crashes, restarts and recovery.
module Protocol {
  import opened Common
  import opened Storage
  import opened Outcome
  import opened Worker

  /** Where the handler of one delivery stands. */
  datatype Handler =
    | Dispatched(request: ReviewRequest)
    | SawFree(request: ReviewRequest)

  /**
   * The worker has read which job to claim, and then runs it. `response` is the review id `create_review` has returned
   * in this run, if it has.
   */
  datatype WorkerPhase =
    | Idle
    | Selected(job: nat)
    | Reviewing(job: nat, request: ReviewRequest, response: Option<int>)

  /** A review GitHub accepted. */
  datatype Post = Post(pr: PrKey, reviewId: int, job: nat)

  /**
   * `tables` is the committed database; `up` is false between a crash and the next start. The last three
   * fields are history: the reviews GitHub accepted, the job behind each ledger row, the delivery behind each job.
   */
  datatype System = System(
    up: bool, tables: Tables, worker: WorkerPhase, handlers: map<string, Handler>,
    posts: set<Post>, rowJobs: seq<nat>, origins: seq<string>)

  datatype Step =
    /** A signed delivery arrives; `intent` is the review its handler's guards ask for, if any. */
    | Deliver(delivery: string, intent: Option<ReviewRequest>)
    /** The handler's `fetch_lock`. */
    | Precheck(delivery: string)
    /** The handler's insert-to-commit span. */
    | Enqueue(delivery: string, now: int)
    /** The handler dies on an exception before it writes. */
    | HandlerFails(delivery: string)
    /** The worker's SELECT of the oldest pending job; others may commit before the claim does. */
    | Select
    /** The UPDATE of the selected job, whatever its status, and the commit. */
    | Claim
    /** GitHub accepts a review of this run; the reply may get lost on the way back. */
    | Accept(reviewId: int, delivered: bool)
    /** The run ends and its finalising transaction commits. */
    | Finalise(outcome: RunOutcome)
    | Crash
    /** The service starts again, with or without `recover_on_startup`. */
    | Start(recover: bool)

  const INITIAL := System(true, Tables([], map[], [], {}), Idle, map[], {}, [], [])

  predicate Enabled(s: System, step: Step) {
    match step
    case Deliver(_, _) => s.up
    case Precheck(d) => s.up && d in s.handlers && s.handlers[d].Dispatched?
    case Enqueue(d, _) => s.up && d in s.handlers && s.handlers[d].SawFree?
    case HandlerFails(d) => s.up && d in s.handlers
    case Select => s.up && s.worker.Idle? && OldestPending(s.tables.jobs).Some?
    case Claim => s.up && s.worker.Selected? && s.worker.job < |s.tables.jobs|
    case Accept(_, _) => s.up && s.worker.Reviewing? && s.worker.response == None
    case Finalise(outcome) =>
      s.up && s.worker.Reviewing? && (outcome.Returned? ==> WellFormedResult(outcome.result, s.worker.response))
    case Crash => s.up
    case Start(_) => !s.up
  }

  function Next(s: System, step: Step): System
    requires Enabled(s, step)
  {
    match step
    case Deliver(d, intent) =>
      if d in s.tables.deliveries then s
      else s.(tables := s.tables.(deliveries := s.tables.deliveries + {d}),
              handlers := if intent.Some? then s.handlers[d := Dispatched(intent.value)] else s.handlers)
    case Precheck(d) =>
      var request := s.handlers[d].request;
      s.(handlers := if request.pr in s.tables.locks then s.handlers - {d} else s.handlers[d := SawFree(request)])
    case Enqueue(d, now) =>
      var request := s.handlers[d].request;
      s.(tables := Enqueued(s.tables, request, now),
         handlers := s.handlers - {d},
         origins := if request.pr in s.tables.locks then s.origins else s.origins + [d])
    case HandlerFails(d) => s.(handlers := s.handlers - {d})
    case Select => s.(worker := Selected(OldestPending(s.tables.jobs).value))
    case Claim =>
      var j := s.worker.job;
      s.(tables := Started(s.tables, j), worker := Reviewing(j, s.tables.jobs[j].request, None))
    case Accept(id, delivered) =>
      s.(posts := s.posts + {Post(s.worker.request.pr, id, s.worker.job)},
         worker := if delivered then s.worker.(response := Some(id)) else s.worker)
    case Finalise(outcome) =>
      s.(tables := Finalised(s.tables, s.worker.job, s.worker.request, outcome),
         rowJobs := s.rowJobs + (if OutcomeRows(s.worker.request, outcome) == [] then [] else [s.worker.job]),
         worker := Idle)
    case Crash => s.(up := false, worker := Idle, handlers := map[])
    case Start(recover) => s.(up := true, tables := if recover then Recovered(s.tables) else s.tables)
  }

  // ---------- runs ----------

  predicate IsRun(s: System, steps: seq<Step>)
    decreases |steps|
  {
    steps == [] || (Enabled(s, steps[0]) && IsRun(Next(s, steps[0]), steps[1..]))
  }

  function After(s: System, steps: seq<Step>): System
    requires IsRun(s, steps)
    decreases |steps|
  {
    if steps == [] then s else After(Next(s, steps[0]), steps[1..])
  }

  // ---------- the invariant ----------

  /** `pr_locks` maps a pull request to job `j` exactly when `j` is a pending or running job of it. */
  ghost predicate LocksAreLiveJobs(t: Tables) {
    && (forall pr :: pr in t.locks ==> Live(t, t.locks[pr]) && t.jobs[t.locks[pr]].request.pr == pr)
    && (forall j: nat :: Live(t, j) ==> t.jobs[j].request.pr in t.locks && t.locks[t.jobs[j].request.pr] == j)
  }

  /** A selected job is still pending: only the worker and recovery take jobs out of that status. */
  ghost predicate SelectionIsPending(s: System) {
    s.worker.Selected? ==> s.worker.job < |s.tables.jobs| && s.tables.jobs[s.worker.job].status.Pending?
  }

  ghost predicate WorkerHoldsRunningJob(s: System) {
    s.worker.Reviewing? ==>
      && s.worker.job < |s.tables.jobs|
      && s.tables.jobs[s.worker.job].status.Running?
      && s.tables.jobs[s.worker.job].request == s.worker.request
      && (s.worker.response.Some? ==> Post(s.worker.request.pr, s.worker.response.value, s.worker.job) in s.posts)
  }

  /** Row `i` of the ledger was written for job `rowJobs[i]`, and for no job twice. */
  ghost predicate LedgerIsBacked(s: System) {
    && |s.rowJobs| == |s.tables.reviews|
    && (forall i, k :: 0 <= i < k < |s.rowJobs| ==> s.rowJobs[i] != s.rowJobs[k])
    && forall i :: 0 <= i < |s.rowJobs| ==> RowIsBacked(s.tables, s.posts, s.rowJobs[i], s.tables.reviews[i])
  }

  ghost predicate RowIsBacked(t: Tables, posts: set<Post>, j: nat, row: ReviewRow) {
    && j < |t.jobs| && t.jobs[j].status.Done?
    && row.pr == t.jobs[j].request.pr && row.headSha == t.jobs[j].request.headSha
    && Post(row.pr, row.reviewId, j) in posts
  }

  /** Every job came from a delivery of its own, whose handler is gone. */
  ghost predicate JobsHaveOrigins(s: System) {
    && |s.origins| == |s.tables.jobs|
    && (forall i, k :: 0 <= i < k < |s.origins| ==> s.origins[i] != s.origins[k])
    && (forall i :: 0 <= i < |s.origins| ==> s.origins[i] in s.tables.deliveries && s.origins[i] !in s.handlers)
    && s.handlers.Keys <= s.tables.deliveries
  }

  ghost predicate Inv(s: System) {
    && LocksAreLiveJobs(s.tables)
    && SelectionIsPending(s)
    && WorkerHoldsRunningJob(s)
    && LedgerIsBacked(s)
    && JobsHaveOrigins(s)
    && (!s.up ==> s.worker.Idle? && s.handlers == map[])
  }

  // ---------- each transaction keeps the lock invariant ----------

  lemma EnqueueKeepsLocks(t: Tables, request: ReviewRequest, now: int)
    requires LocksAreLiveJobs(t)
    ensures LocksAreLiveJobs(Enqueued(t, request, now))
  {
  }

  /** The claim's update is unconditional too; it is harmless because the selected job is live. */
  lemma ClaimKeepsLocks(t: Tables, j: nat)
    requires LocksAreLiveJobs(t) && Live(t, j)
    ensures LocksAreLiveJobs(Started(t, j))
  {
  }

  /**
   * The delete is keyed by pull request and the status update is unconditional, so all that protects the other
   * jobs is that `j` is live. Then the invariant is kept exactly when the new status is terminal.
   */
  lemma FinaliseKeepsLocksIffTerminal(t: Tables, j: nat, request: ReviewRequest, outcome: RunOutcome)
    requires LocksAreLiveJobs(t) && Live(t, j) && request == t.jobs[j].request
    ensures LocksAreLiveJobs(Finalised(t, j, request, outcome)) <==> EndsTerminal(outcome)
  {
    var after := Finalised(t, j, request, outcome);
    if EndsTerminal(outcome) {
      forall pr | pr in after.locks
        ensures Live(after, after.locks[pr]) && after.jobs[after.locks[pr]].request.pr == pr
      {
        assert t.locks[pr] != j;
      }
      forall k: nat | Live(after, k)
        ensures after.jobs[k].request.pr in after.locks && after.locks[after.jobs[k].request.pr] == k
      {
        assert Live(t, k) && k != j;
      }
    } else {
      assert Live(after, j) && after.jobs[j].request.pr !in after.locks;
    }
  }

  lemma RecoveryKeepsLocks(t: Tables)
    requires LocksAreLiveJobs(t)
    ensures LocksAreLiveJobs(Recovered(t))
  {
    var after := Recovered(t);
    forall pr | pr in after.locks
      ensures Live(after, after.locks[pr]) && after.jobs[after.locks[pr]].request.pr == pr
    {
      assert Live(t, t.locks[pr]);
    }
    forall j: nat | Live(after, j)
      ensures after.jobs[j].request.pr in after.locks && after.locks[after.jobs[j].request.pr] == j
    {
      assert Live(t, j);
    }
  }

  // ---------- every step keeps the invariant ----------

  /** Jobs keep what they are for, and only live jobs change status. */
  ghost predicate JobsAdvance(t: Tables, after: Tables) {
    && |t.jobs| <= |after.jobs|
    && forall j :: 0 <= j < |t.jobs| ==>
         && after.jobs[j].request == t.jobs[j].request && after.jobs[j].createdAt == t.jobs[j].createdAt
         && (after.jobs[j] == t.jobs[j] || !Terminal(t.jobs[j].status))
  }

  lemma RowsStayBacked(s: System, after: System)
    requires LedgerIsBacked(s) && JobsAdvance(s.tables, after.tables) && s.posts <= after.posts
    requires after.tables.reviews == s.tables.reviews && after.rowJobs == s.rowJobs
    ensures LedgerIsBacked(after)
  {
    forall i | 0 <= i < |s.rowJobs|
      ensures RowIsBacked(after.tables, after.posts, after.rowJobs[i], after.tables.reviews[i])
    {
      assert RowIsBacked(s.tables, s.posts, s.rowJobs[i], s.tables.reviews[i]);
    }
  }

  lemma FinaliseKeepsLedger(s: System, outcome: RunOutcome)
    requires Inv(s) && Enabled(s, Finalise(outcome))
    ensures LedgerIsBacked(Next(s, Finalise(outcome)))
  {
    var after, j := Next(s, Finalise(outcome)), s.worker.job;
    forall i | 0 <= i < |s.rowJobs|
      ensures s.rowJobs[i] != j && RowIsBacked(after.tables, after.posts, s.rowJobs[i], s.tables.reviews[i])
    {
      assert RowIsBacked(s.tables, s.posts, s.rowJobs[i], s.tables.reviews[i]);
    }
    if OutcomeRows(s.worker.request, outcome) != [] {
      assert RowIsBacked(after.tables, after.posts, j, OutcomeRows(s.worker.request, outcome)[0]);
    }
  }

  lemma FinaliseKeepsInv(s: System, outcome: RunOutcome)
    requires Inv(s) && Enabled(s, Finalise(outcome))
    ensures Inv(Next(s, Finalise(outcome)))
  {
    FinaliseKeepsLocksIffTerminal(s.tables, s.worker.job, s.worker.request, outcome);
    FinaliseKeepsLedger(s, outcome);
  }

  lemma EnqueueKeepsInv(s: System, d: string, now: int)
    requires Inv(s) && Enabled(s, Enqueue(d, now))
    ensures Inv(Next(s, Enqueue(d, now)))
  {
    var after := Next(s, Enqueue(d, now));
    EnqueueKeepsLocks(s.tables, s.handlers[d].request, now);
    RowsStayBacked(s, after);
    assert d in s.handlers.Keys;
  }

  lemma ClaimKeepsInv(s: System)
    requires Inv(s) && Enabled(s, Claim)
    ensures Inv(Next(s, Claim))
  {
    ClaimKeepsLocks(s.tables, s.worker.job);
    RowsStayBacked(s, Next(s, Claim));
  }

  lemma StepKeepsInv(s: System, step: Step)
    requires Inv(s) && Enabled(s, step)
    ensures Inv(Next(s, step))
  {
    var after := Next(s, step);
    match step
    case Deliver(d, intent) => RowsStayBacked(s, after);
    case Precheck(d) => RowsStayBacked(s, after);
    case Enqueue(d, now) => EnqueueKeepsInv(s, d, now);
    case HandlerFails(d) => RowsStayBacked(s, after);
    case Select => RowsStayBacked(s, after);
    case Claim => ClaimKeepsInv(s);
    case Accept(id, delivered) => RowsStayBacked(s, after);
    case Finalise(outcome) => FinaliseKeepsInv(s, outcome);
    case Crash => RowsStayBacked(s, after);
    case Start(recover) =>
      RecoveryKeepsLocks(s.tables);
      RowsStayBacked(s, after);
  }

  lemma {:induction false} RunKeepsInv(s: System, steps: seq<Step>)
    requires Inv(s) && IsRun(s, steps)
    ensures Inv(After(s, steps))
    decreases |steps|
  {
    if steps != [] {
      StepKeepsInv(s, steps[0]);
      RunKeepsInv(Next(s, steps[0]), steps[1..]);
    }
  }

  /** In every reachable state, under any interleaving, the invariant holds. */
  lemma ReachableStatesAreSafe(steps: seq<Step>)
    requires IsRun(INITIAL, steps)
    ensures Inv(After(INITIAL, steps))
  {
    RunKeepsInv(INITIAL, steps);
  }
}

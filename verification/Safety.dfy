// What the protocol guarantees over whole runs: locks, recovery, job histories, the ledger and deliveries.
module Safety {
  import opened Common
  import opened Storage
  import opened Outcome
  import opened Worker
  import opened Protocol

  // ---------- locks ----------

  ghost predicate HasLiveJob(t: Tables, pr: PrKey) {
    exists j: nat :: Live(t, j) && t.jobs[j].request.pr == pr
  }

  /** After any run: a pull request is locked exactly while it has a live job, and it never has two. */
  lemma LockedIffLive(steps: seq<Step>, pr: PrKey, i: nat, k: nat)
    requires IsRun(INITIAL, steps)
    ensures var t := After(INITIAL, steps).tables;
            && (pr in t.locks <==> HasLiveJob(t, pr))
            && (Live(t, i) && Live(t, k) && t.jobs[i].request.pr == t.jobs[k].request.pr ==> i == k)
  {
    ReachableStatesAreSafe(steps);
    var t := After(INITIAL, steps).tables;
    if pr in t.locks {
      assert Live(t, t.locks[pr]);
    }
  }

  /**
   * The enqueue transaction is decided by what holds when it writes, however stale the handler's earlier read:
   * it adds one pending job if the pull request has no live job, and changes no table otherwise.
   */
  lemma EnqueueIsDecidedAtTheWrite(steps: seq<Step>, d: string, now: int)
    requires IsRun(INITIAL, steps) && Enabled(After(INITIAL, steps), Enqueue(d, now))
    ensures var s := After(INITIAL, steps);
            var after, request := Next(s, Enqueue(d, now)), s.handlers[d].request;
            if HasLiveJob(s.tables, request.pr) then after.tables == s.tables
            else after.tables == s.tables.(jobs := s.tables.jobs + [NewJob(request, now)],
                                           locks := s.tables.locks[request.pr := |s.tables.jobs|])
  {
    ReachableStatesAreSafe(steps);
    var s := After(INITIAL, steps);
    var pr := s.handlers[d].request.pr;
    if pr in s.tables.locks {
      assert Live(s.tables, s.tables.locks[pr]);
    }
  }

  /** A lock goes exactly in the step that makes its owner terminal, and never changes hands. */
  lemma LockLeavesWithItsOwner(steps: seq<Step>, step: Step, pr: PrKey)
    requires IsRun(INITIAL, steps) && Enabled(After(INITIAL, steps), step) && pr in After(INITIAL, steps).tables.locks
    ensures var s := After(INITIAL, steps);
            var t, after := s.tables, Next(s, step).tables;
            && Live(t, t.locks[pr])
            && (pr in after.locks <==> Live(after, t.locks[pr]))
            && (pr in after.locks ==> after.locks[pr] == t.locks[pr])
  {
    ReachableStatesAreSafe(steps);
    var s := After(INITIAL, steps);
    var j := s.tables.locks[pr];
    assert Live(s.tables, j);
    if step.Finalise? && j != s.worker.job {
      assert s.worker.request.pr != pr;
    }
  }

  /** Finalising deletes a lock by key alone, and still it is always the finalised job's own. */
  lemma FinaliseReleasesOnlyItsOwnLock(steps: seq<Step>, outcome: RunOutcome)
    requires IsRun(INITIAL, steps) && Enabled(After(INITIAL, steps), Finalise(outcome))
    ensures var s := After(INITIAL, steps);
            var t, after := s.tables, Next(s, Finalise(outcome)).tables;
            && s.worker.request.pr in t.locks && t.locks[s.worker.request.pr] == s.worker.job
            && after.locks == t.locks - {s.worker.request.pr}
            && |after.jobs| == |t.jobs| && s.worker.job < |t.jobs| && Terminal(after.jobs[s.worker.job].status)
            && forall k :: 0 <= k < |t.jobs| && k != s.worker.job ==> after.jobs[k] == t.jobs[k]
  {
    ReachableStatesAreSafe(steps);
    var s := After(INITIAL, steps);
    assert Live(s.tables, s.worker.job);
  }

  // ---------- recovery ----------

  ghost predicate NoneRunning(t: Tables) {
    forall j :: 0 <= j < |t.jobs| ==> !t.jobs[j].status.Running?
  }

  /** Crash anywhere, then start with recovery: exactly the running jobs and their locks are affected. */
  lemma RecoveryAfterAnyCrash(steps: seq<Step>)
    requires IsRun(INITIAL, steps) && After(INITIAL, steps).up
    ensures var s := After(INITIAL, steps);
            var t, after := s.tables, Next(Next(s, Crash), Start(true));
            && Inv(after) && NoneRunning(after.tables)
            && |after.tables.jobs| == |t.jobs|
            && (forall j :: 0 <= j < |t.jobs| && !t.jobs[j].status.Running? ==> after.tables.jobs[j] == t.jobs[j])
            && (forall j :: 0 <= j < |t.jobs| && t.jobs[j].status.Running? ==>
                  && after.tables.jobs[j].status.Failed?
                  && after.tables.jobs[j].detail == Some(InterruptedByRestart)
                  && after.tables.jobs[j].error ==
                     (if t.jobs[j].error.Some? then t.jobs[j].error else Some("interrupted by service restart")))
            && (forall pr :: pr in after.tables.locks <==>
                  pr in t.locks && t.locks[pr] < |t.jobs| && t.jobs[t.locks[pr]].status.Pending?)
            && (forall pr :: pr in after.tables.locks ==> after.tables.locks[pr] == t.locks[pr])
            && after.tables.reviews == t.reviews && after.tables.deliveries == t.deliveries
  {
    var s := After(INITIAL, steps);
    ReachableStatesAreSafe(steps);
    StepKeepsInv(s, Crash);
    StepKeepsInv(Next(s, Crash), Start(true));
    forall pr | pr in s.tables.locks ensures Live(s.tables, s.tables.locks[pr]) {}
  }

  /** A second recovery finds nothing to do. */
  lemma RecoveryIsIdempotent(t: Tables)
    ensures Recovered(Recovered(t)) == Recovered(t)
    ensures CountStatus(Recovered(t).jobs, Running) == 0
  {
    var once := Recovered(t);
    NoneCounted(once.jobs, Running);
    assert Interrupted(once.jobs) == once.jobs;
    assert WithoutStale(once.jobs, once.locks) == once.locks;
  }

  ghost predicate OnlyTheWorkersJobRuns(s: System) {
    s.up ==> forall j :: 0 <= j < |s.tables.jobs| && s.tables.jobs[j].status.Running? ==>
               s.worker.Reviewing? && s.worker.job == j
  }

  lemma {:induction false} RecoveredRun(s: System, steps: seq<Step>)
    requires Inv(s) && OnlyTheWorkersJobRuns(s) && IsRun(s, steps) && Start(false) !in steps
    ensures OnlyTheWorkersJobRuns(After(s, steps))
    decreases |steps|
  {
    if steps != [] {
      assert steps == [steps[0]] + steps[1..];
      StepKeepsInv(s, steps[0]);
      assert forall job: Job :: !Interrupt(job).status.Running?;
      RecoveredRun(Next(s, steps[0]), steps[1..]);
    }
  }

  /** If every start recovers, at most one job is running, and it is the one the worker holds. */
  lemma AtMostOneJobRuns(steps: seq<Step>)
    requires IsRun(INITIAL, steps) && Start(false) !in steps
    ensures OnlyTheWorkersJobRuns(After(INITIAL, steps))
  {
    RecoveredRun(INITIAL, steps);
  }

  /** A running job that no worker holds, as a crash leaves it. */
  ghost predicate Orphan(s: System, j: nat) {
    && j < |s.tables.jobs| && s.tables.jobs[j].status.Running?
    && !(s.worker.Reviewing? && s.worker.job == j)
  }

  /** The job that was under review is marked as interrupted and stays so. */
  ghost predicate Buried(s: System, j: nat) {
    && j < |s.tables.jobs| && s.tables.jobs[j].status.Failed?
    && s.tables.jobs[j].detail == Some(InterruptedByRestart)
  }

  ghost predicate NoNewJobFor(s: System, since: nat, pr: PrKey) {
    forall k :: since <= k < |s.tables.jobs| ==> s.tables.jobs[k].request.pr != pr
  }

  lemma OrphanStep(s: System, step: Step, j: nat, since: nat)
    requires Inv(s) && Enabled(s, step) && Orphan(s, j)
    requires since <= |s.tables.jobs| && NoNewJobFor(s, since, s.tables.jobs[j].request.pr)
    ensures step == Start(true) ==> Buried(Next(s, step), j)
    ensures step != Start(true) ==>
              && Orphan(Next(s, step), j)
              && Next(s, step).tables.jobs[j].request == s.tables.jobs[j].request
              && NoNewJobFor(Next(s, step), since, s.tables.jobs[j].request.pr)
  {
    assert Live(s.tables, j);
  }

  lemma {:induction false} BuriedStays(s: System, steps: seq<Step>, j: nat)
    requires Inv(s) && IsRun(s, steps) && Buried(s, j)
    ensures Buried(After(s, steps), j)
    decreases |steps|
  {
    if steps != [] {
      StepKeepsInv(s, steps[0]);
      BuriedStays(Next(s, steps[0]), steps[1..], j);
    }
  }

  lemma {:induction false} OrphanRun(s: System, steps: seq<Step>, j: nat, since: nat)
    requires Inv(s) && IsRun(s, steps) && Orphan(s, j)
    requires since <= |s.tables.jobs| && NoNewJobFor(s, since, s.tables.jobs[j].request.pr)
    ensures Start(true) in steps ==> Buried(After(s, steps), j)
    ensures Start(true) !in steps ==>
              && Orphan(After(s, steps), j)
              && After(s, steps).tables.jobs[j].request == s.tables.jobs[j].request
              && NoNewJobFor(After(s, steps), since, s.tables.jobs[j].request.pr)
    decreases |steps|
  {
    if steps != [] {
      var next, rest := Next(s, steps[0]), steps[1..];
      assert steps == [steps[0]] + rest;
      StepKeepsInv(s, steps[0]);
      OrphanStep(s, steps[0], j, since);
      if steps[0] == Start(true) {
        BuriedStays(next, rest, j);
      } else {
        OrphanRun(next, rest, j, since);
      }
    }
  }

  /**
   * Starting again after a crash during a review: the interrupted job stays running, its pull request stays locked
   * and gets no further job, exactly as long as no start runs the recovery.
   */
  lemma InterruptedReviewBlocksItsPrUntilRecovery(before: seq<Step>, recover: bool, steps: seq<Step>)
    requires IsRun(INITIAL, before)
    requires After(INITIAL, before).up && After(INITIAL, before).worker.Reviewing?
    requires IsRun(After(INITIAL, before), [Crash, Start(recover)] + steps)
    ensures var s := After(INITIAL, before);
            var all, j, pr := [Crash, Start(recover)] + steps, s.worker.job, s.worker.request.pr;
            var end := After(s, all);
            && j < |end.tables.jobs|
            && (end.tables.jobs[j].status.Running? <==> Start(true) !in all)
            && (Start(true) !in all ==>
                  && pr in end.tables.locks && end.tables.locks[pr] == j
                  && NoNewJobFor(end, |s.tables.jobs|, pr))
            && (Start(true) in all ==> Buried(end, j))
  {
    ReachableStatesAreSafe(before);
    var s := After(INITIAL, before);
    var all, j := [Crash, Start(recover)] + steps, s.worker.job;
    var crashed := Next(s, Crash);
    assert all[0] == Crash && all[1..] == [Start(recover)] + steps;
    StepKeepsInv(s, Crash);
    OrphanRun(crashed, all[1..], j, |s.tables.jobs|);
    RunKeepsInv(s, all);
    assert all == [Crash] + all[1..];
    if Start(true) !in all { assert Live(After(s, all).tables, j); }
  }

  // ---------- status histories ----------

  function StatusOf(s: System, j: nat): seq<JobStatus> {
    if j < |s.tables.jobs| then [s.tables.jobs[j].status] else []
  }

  /** The statuses job `j` goes through, each written down when it first differs from the one before. */
  function History(s: System, steps: seq<Step>, j: nat): seq<JobStatus>
    requires IsRun(s, steps)
    decreases |steps|
  {
    if steps == [] then StatusOf(s, j)
    else
      var later := History(Next(s, steps[0]), steps[1..], j);
      if StatusOf(s, j) <= later then later else StatusOf(s, j) + later
  }

  predicate Follows(from: JobStatus, to: JobStatus) {
    (from.Pending? && to.Running?) || (from.Running? && Terminal(to))
  }

  ghost predicate IsChain(history: seq<JobStatus>) {
    forall i :: 0 <= i < |history| - 1 ==> Follows(history[i], history[i + 1])
  }

  lemma StepMovesStatus(s: System, step: Step, j: nat)
    requires Inv(s) && Enabled(s, step)
    ensures var after := Next(s, step);
            && (StatusOf(s, j) == [] ==> StatusOf(after, j) == [] || StatusOf(after, j) == [Pending])
            && (StatusOf(s, j) != [] ==>
                  && StatusOf(after, j) != []
                  && (StatusOf(after, j) == StatusOf(s, j) || Follows(StatusOf(s, j)[0], StatusOf(after, j)[0])))
  {
  }

  lemma {:induction false} HistoryIsChain(s: System, steps: seq<Step>, j: nat)
    requires Inv(s) && IsRun(s, steps)
    ensures IsChain(History(s, steps, j))
    ensures StatusOf(s, j) != [] ==> StatusOf(s, j) <= History(s, steps, j)
    ensures StatusOf(s, j) == [] && History(s, steps, j) != [] ==> History(s, steps, j)[0].Pending?
    decreases |steps|
  {
    if steps != [] {
      var next := Next(s, steps[0]);
      var later := History(next, steps[1..], j);
      StepKeepsInv(s, steps[0]);
      StepMovesStatus(s, steps[0], j);
      HistoryIsChain(next, steps[1..], j);
      if StatusOf(s, j) != [] && !(StatusOf(s, j) <= later) {
        assert StatusOf(next, j)[0] == later[0];
      }
    }
  }

  lemma {:induction false} HistoryEnds(s: System, steps: seq<Step>, j: nat)
    requires IsRun(s, steps)
    ensures StatusOf(After(s, steps), j) != [] ==>
              && History(s, steps, j) != []
              && [History(s, steps, j)[|History(s, steps, j)| - 1]] == StatusOf(After(s, steps), j)
    decreases |steps|
  {
    if steps != [] { HistoryEnds(Next(s, steps[0]), steps[1..], j); }
  }

  /** Over every run, a job's history is a prefix of pending, running and one terminal status. */
  lemma EveryHistoryIsPendingRunningTerminal(steps: seq<Step>, j: nat)
    requires IsRun(INITIAL, steps)
    ensures var h := History(INITIAL, steps, j);
            || h <= [Pending, Running, Done]
            || h <= [Pending, Running, Failed]
    ensures j < |After(INITIAL, steps).tables.jobs| ==>
              && History(INITIAL, steps, j) != []
              && [History(INITIAL, steps, j)[|History(INITIAL, steps, j)| - 1]] == StatusOf(After(INITIAL, steps), j)
  {
    HistoryIsChain(INITIAL, steps, j);
    HistoryEnds(INITIAL, steps, j);
    var h := History(INITIAL, steps, j);
    if |h| >= 2 { assert Follows(h[0], h[1]); }
    if |h| >= 3 { assert Follows(h[1], h[2]); }
    assert |h| < 4 || !Follows(h[2], h[3]);
  }

  // ---------- the ledger ----------

  /** Every ledger row belongs to a done job of its pull request, no two rows to one job, and GitHub accepted that very
      review for it. */
  lemma LedgerRowsAreRealReviews(steps: seq<Step>)
    requires IsRun(INITIAL, steps)
    ensures var s := After(INITIAL, steps);
            && |s.rowJobs| == |s.tables.reviews|
            && (forall i :: 0 <= i < |s.rowJobs| ==>
                  RowIsBacked(s.tables, s.posts, s.rowJobs[i], s.tables.reviews[i]))
            && (forall i, k :: 0 <= i < k < |s.rowJobs| ==> s.rowJobs[i] != s.rowJobs[k])
  {
    ReachableStatesAreSafe(steps);
  }

  /** In every reachable state, what the end of a run leaves in its job's row, and that no other row changes. */
  lemma FinaliseStoresTheOutcome(steps: seq<Step>, outcome: RunOutcome)
    requires IsRun(INITIAL, steps) && Enabled(After(INITIAL, steps), Finalise(outcome))
    ensures var s := After(INITIAL, steps);
            var before, after, j := s.tables.jobs, Next(s, Finalise(outcome)).tables.jobs, s.worker.job;
            && j < |before| == |after|
            && after[j].request == before[j].request && after[j].createdAt == before[j].createdAt
            && (match outcome
                case TimedOut =>
                  && after[j].status == Failed && after[j].detail == Some(Timeout)
                  && after[j].error == Some("job timed out")
                case Raised(message) =>
                  after[j].status == Failed && after[j].detail == Some(LlmFailure) && after[j].error == Some(message)
                case Returned(r) =>
                  after[j].status == r.status && after[j].detail == r.detail && after[j].error == r.error)
            && forall k :: 0 <= k < |before| && k != j ==> after[k] == before[k]
  {
    ReachableStatesAreSafe(steps);
  }

  /** A run that posted a review and was not cut short leaves exactly one new row, with the accepted id. */
  lemma FinaliseRecordsTheAcceptedReview(steps: seq<Step>, outcome: RunOutcome)
    requires IsRun(INITIAL, steps) && Enabled(After(INITIAL, steps), Finalise(outcome))
    ensures var s := After(INITIAL, steps);
            var t, after := s.tables, Next(s, Finalise(outcome)).tables;
            && s.worker.job < |t.jobs| == |after.jobs|
            && if outcome.Returned? && s.worker.response.Some? then
              && after.reviews == t.reviews + [after.reviews[|t.reviews|]]
              && after.reviews[|t.reviews|].reviewId == s.worker.response.value
              && after.reviews[|t.reviews|].pr == t.jobs[s.worker.job].request.pr
              && after.reviews[|t.reviews|].headSha == t.jobs[s.worker.job].request.headSha
              && after.reviews[|t.reviews|].chunkCount == outcome.result.chunkCount
              && after.jobs[s.worker.job].status.Done?
            else after.reviews == t.reviews
  {
    ReachableStatesAreSafe(steps);
  }

  // ---------- which accepted reviews are recorded ----------

  ghost predicate HasRow(s: System, reviewId: int) {
    exists i :: 0 <= i < |s.tables.reviews| && s.tables.reviews[i].reviewId == reviewId
  }

  /** GitHub never gives the id out again. */
  ghost predicate NotGivenAgain(steps: seq<Step>, reviewId: int) {
    forall i :: 0 <= i < |steps| && steps[i].Accept? ==> steps[i].reviewId != reviewId
  }

  /** The run in hand comes back with a result: neither a crash, a timeout nor an exception ends it. */
  predicate ComesBack(steps: seq<Step>) {
    if steps == [] || steps[0] == Crash then false
    else if steps[0].Finalise? then steps[0].outcome.Returned?
    else ComesBack(steps[1..])
  }

  lemma RowsOfStep(s: System, step: Step, reviewId: int)
    requires Inv(s) && Enabled(s, step)
    ensures HasRow(Next(s, step), reviewId) <==>
            || HasRow(s, reviewId)
            || (step.Finalise? && step.outcome.Returned? && s.worker.response == Some(reviewId))
  {
    var t, after := s.tables.reviews, Next(s, step).tables.reviews;
    assert t <= after;
    if HasRow(s, reviewId) {
      var i :| 0 <= i < |t| && t[i].reviewId == reviewId;
      assert after[i] == t[i];
    } else if step.Finalise? && step.outcome.Returned? && s.worker.response == Some(reviewId) {
      assert after[|t|].reviewId == reviewId;
    }
  }

  /** Once no run in hand holds an id, no row with it appears. */
  lemma {:induction false} NoRowLater(s: System, steps: seq<Step>, reviewId: int)
    requires Inv(s) && IsRun(s, steps) && NotGivenAgain(steps, reviewId)
    requires s.worker.Reviewing? ==> s.worker.response != Some(reviewId)
    ensures HasRow(After(s, steps), reviewId) <==> HasRow(s, reviewId)
    decreases |steps|
  {
    hide Inv, HasRow;
    if steps != [] {
      StepKeepsInv(s, steps[0]);
      RowsOfStep(s, steps[0], reviewId);
      assert forall i :: 0 <= i < |steps[1..]| ==> steps[1..][i] == steps[i + 1];
      NoRowLater(Next(s, steps[0]), steps[1..], reviewId);
    }
  }

  /** While a run holds an id, the row comes exactly if the run comes back. */
  lemma {:induction false} RowIffComesBack(s: System, steps: seq<Step>, reviewId: int)
    requires Inv(s) && IsRun(s, steps) && NotGivenAgain(steps, reviewId)
    requires s.worker.Reviewing? && s.worker.response == Some(reviewId) && !HasRow(s, reviewId)
    ensures HasRow(After(s, steps), reviewId) <==> ComesBack(steps)
    decreases |steps|
  {
    hide Inv, HasRow;
    if steps != [] {
      var next, rest := Next(s, steps[0]), steps[1..];
      StepKeepsInv(s, steps[0]);
      RowsOfStep(s, steps[0], reviewId);
      assert forall i :: 0 <= i < |rest| ==> rest[i] == steps[i + 1];
      if steps[0].Finalise? || steps[0] == Crash {
        NoRowLater(next, rest, reviewId);
      } else {
        RowIffComesBack(next, rest, reviewId);
      }
    }
  }

  /**
   * A review that GitHub accepts gets a ledger row exactly when its id reaches the run and the run then comes back:
   * a lost reply, a timeout, an exception or a crash loses it.
   */
  lemma RecordedIffDeliveredAndReturned(before: seq<Step>, reviewId: int, delivered: bool, steps: seq<Step>)
    requires IsRun(INITIAL, before) && Enabled(After(INITIAL, before), Accept(reviewId, delivered))
    requires !HasRow(After(INITIAL, before), reviewId) && NotGivenAgain(steps, reviewId)
    requires IsRun(Next(After(INITIAL, before), Accept(reviewId, delivered)), steps)
    ensures var s := After(INITIAL, before);
            var end := After(Next(s, Accept(reviewId, delivered)), steps);
            && Post(s.worker.request.pr, reviewId, s.worker.job) in Next(s, Accept(reviewId, delivered)).posts
            && (HasRow(end, reviewId) <==> delivered && ComesBack(steps))
  {
    var s := After(INITIAL, before);
    var accepted := Next(s, Accept(reviewId, delivered));
    ReachableStatesAreSafe(before);
    StepKeepsInv(s, Accept(reviewId, delivered));
    RowsOfStep(s, Accept(reviewId, delivered), reviewId);
    hide Inv, HasRow;
    if delivered { RowIffComesBack(accepted, steps, reviewId); } else { NoRowLater(accepted, steps, reviewId); }
  }

  lemma FirstStep(s: System, step: Step, rest: seq<Step>) returns (steps: seq<Step>)
    requires Enabled(s, step) && IsRun(Next(s, step), rest)
    ensures steps == [step] + rest && IsRun(s, steps) && After(s, steps) == After(Next(s, step), rest)
  {
    hide Next;
    steps := [step] + rest;
    assert steps[1..] == rest;
  }

  /** "Posted" does not imply "recorded": a run in which GitHub accepts a review and the job then times out. */
  lemma AcceptedReviewMayGoUnrecorded(delivery: string, request: ReviewRequest, now: int, reviewId: int)
    returns (steps: seq<Step>)
    ensures IsRun(INITIAL, steps)
    ensures var end := After(INITIAL, steps);
            && Post(request.pr, reviewId, 0) in end.posts
            && |end.tables.jobs| == 1 && end.tables.jobs[0].status.Failed?
            && end.tables.reviews == [] && end.tables.locks == map[]
  {
    var all := [Deliver(delivery, Some(request)), Precheck(delivery), Enqueue(delivery, now), Select, Claim,
                Accept(reviewId, true), Finalise(TimedOut)];
    var s1 := Next(INITIAL, all[0]);
    var s2 := Next(s1, all[1]);
    var s3 := Next(s2, all[2]);
    assert s3.tables.jobs == [NewJob(request, now)] && OldestPending(s3.tables.jobs) == Some(0);
    var s4 := Next(s3, all[3]);
    var s5 := Next(s4, all[4]);
    var s6 := Next(s5, all[5]);
    var s7 := Next(s6, all[6]);
    steps := FirstStep(s6, all[6], []);
    steps := FirstStep(s5, all[5], steps);
    steps := FirstStep(s4, all[4], steps);
    steps := FirstStep(s3, all[3], steps);
    steps := FirstStep(s2, all[2], steps);
    steps := FirstStep(s1, all[1], steps);
    steps := FirstStep(INITIAL, all[0], steps);
    assert s7.tables.locks == map[];
  }

  // ---------- deliveries ----------

  lemma {:induction false} DeliveriesAreKept(s: System, steps: seq<Step>)
    requires IsRun(s, steps)
    ensures s.tables.deliveries <= After(s, steps).tables.deliveries
    decreases |steps|
  {
    if steps != [] { DeliveriesAreKept(Next(s, steps[0]), steps[1..]); }
  }

  /** Once received, a delivery id has no effect ever again, even across crashes and recoveries. */
  lemma RedeliveryDoesNothing(s: System, d: string, intent: Option<ReviewRequest>, steps: seq<Step>,
                              again: Option<ReviewRequest>)
    requires Enabled(s, Deliver(d, intent)) && IsRun(Next(s, Deliver(d, intent)), steps)
    requires Enabled(After(Next(s, Deliver(d, intent)), steps), Deliver(d, again))
    ensures var later := After(Next(s, Deliver(d, intent)), steps);
            Next(later, Deliver(d, again)) == later
  {
    DeliveriesAreKept(Next(s, Deliver(d, intent)), steps);
  }

  lemma {:induction false} DistinctInSet(items: seq<string>, bound: set<string>)
    requires forall i, k :: 0 <= i < k < |items| ==> items[i] != items[k]
    requires forall i :: 0 <= i < |items| ==> items[i] in bound
    ensures |items| <= |bound|
  {
    if items != [] { DistinctInSet(items[1..], bound - {items[0]}); }
  }

  /** Each delivery is good for at most one job. */
  lemma NoMoreJobsThanDeliveries(steps: seq<Step>)
    requires IsRun(INITIAL, steps)
    ensures |After(INITIAL, steps).tables.jobs| <= |After(INITIAL, steps).tables.deliveries|
  {
    ReachableStatesAreSafe(steps);
    var s := After(INITIAL, steps);
    DistinctInSet(s.origins, s.tables.deliveries);
  }
}

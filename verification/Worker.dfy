// orchestration/locks.py and pipeline/worker.py: the transactions that move a job through the tables.
module Worker {
  import opened Common
  import opened Storage
  import opened Outcome

  // ---------- orchestration/locks.py ----------

  /** What the enqueue transaction leaves behind: a pending job with its lock, or nothing. */
  function Enqueued(tables: Tables, request: ReviewRequest, now: int): Tables {
    if request.pr in tables.locks then tables
    else tables.(jobs := tables.jobs + [NewJob(request, now)], locks := tables.locks[request.pr := |tables.jobs|])
  }

  /** `precheck` is what `fetch_lock` returned, possibly before other transactions committed. */
  method TryEnqueueReview(db: Database, precheck: Option<nat>, request: ReviewRequest, now: int)
    returns (id: Option<nat>)
    requires db.working == db.committed
    modifies db
    ensures db.working == db.committed
    ensures precheck.Some? ==> id == None && db.committed == old(db.committed)
    ensures precheck == None ==>
              && db.committed == Enqueued(old(db.committed), request, now)
              && id == if request.pr in old(db.committed).locks then None else Some(|old(db.committed).jobs|)
    ensures id == None ==> db.committed == old(db.committed)
    ensures id.Some? ==>
              && db.committed.jobs == old(db.committed).jobs + [Job(request, Pending, None, None, now)]
              && db.committed.locks == old(db.committed).locks[request.pr := id.value]
              && db.committed.reviews == old(db.committed).reviews
              && db.committed.deliveries == old(db.committed).deliveries
  {
    if precheck.Some? {
      return None;
    }
    var job := db.InsertJob(request, now);
    var acquired := db.AcquireLock(request.pr, job);
    if !acquired {
      db.Rollback();
      return None;
    }
    db.Commit();
    id := Some(job);
  }

  // ---------- what handlers commit while the worker is at work ----------

  /** An enqueue transaction whose pre-check saw no lock. */
  datatype Arrival = Arrival(request: ReviewRequest, now: int)

  function Arrived(tables: Tables, arrivals: seq<Arrival>): Tables
    decreases |arrivals|
  {
    if arrivals == [] then tables
    else Arrived(Enqueued(tables, arrivals[0].request, arrivals[0].now), arrivals[1..])
  }

  method Arrive(db: Database, arrivals: seq<Arrival>)
    requires db.working == db.committed
    modifies db
    ensures db.working == db.committed == Arrived(old(db.committed), arrivals)
  {
    var n := 0;
    while n < |arrivals|
      invariant n <= |arrivals|
      invariant db.working == db.committed
      invariant Arrived(db.committed, arrivals[n..]) == Arrived(old(db.committed), arrivals)
    {
      assert arrivals[n..][1..] == arrivals[n + 1..];
      var _ := TryEnqueueReview(db, None, arrivals[n].request, arrivals[n].now);
      n := n + 1;
    }
  }

  /** Arrivals add pending jobs at the end and touch no job that is there. */
  lemma {:induction false} ArrivalsOnlyAppend(tables: Tables, arrivals: seq<Arrival>)
    ensures var after := Arrived(tables, arrivals);
            && tables.jobs <= after.jobs && after.reviews == tables.reviews
            && forall k :: |tables.jobs| <= k < |after.jobs| ==> after.jobs[k].status.Pending?
    decreases |arrivals|
  {
    if arrivals != [] {
      ArrivalsOnlyAppend(Enqueued(tables, arrivals[0].request, arrivals[0].now), arrivals[1..]);
    }
  }

  // ---------- pipeline/worker.py ----------

  /** How one supervised run of the reviewer ends. */
  datatype RunOutcome = Returned(result: ReviewResult) | Raised(message: string) | TimedOut

  /** What the claim's UPDATE leaves behind; it does not look at the job's status. */
  function Started(tables: Tables, j: nat): Tables {
    tables.(jobs := WithStatus(tables.jobs, j, Running, None, None))
  }

  function OutcomeStatus(outcome: RunOutcome): (JobStatus, Option<StatusDetail>, Option<string>) {
    match outcome
    case Returned(r) => (r.status, r.detail, r.error)
    case Raised(message) => (Failed, Some(LlmFailure), Some(message))
    case TimedOut => (Failed, Some(Timeout), Some("job timed out"))
  }

  function OutcomeRows(request: ReviewRequest, outcome: RunOutcome): seq<ReviewRow> {
    match outcome
    case Returned(r) =>
      if r.reviewId.Some? then [ReviewRow(request.pr, request.headSha, r.reviewId.value, r.chunkCount)] else []
    case _ => []
  }

  /** The failure comment the worker asks for once the transaction is committed. */
  function OutcomeComment(outcome: RunOutcome): Option<string> {
    match outcome
    case Returned(r) => if r.status.Failed? then r.failureMessage else None
    case Raised(message) => Some("vidi-pr could not complete the review: " + message)
    case TimedOut => Some("vidi-pr could not complete the review: job timed out")
  }

  /** The one finalising transaction: new status, ledger row if a review was posted, lock released by key. */
  function Finalised(tables: Tables, j: nat, request: ReviewRequest, outcome: RunOutcome): Tables {
    var (status, detail, error) := OutcomeStatus(outcome);
    tables.(jobs := WithStatus(tables.jobs, j, status, detail, error),
            reviews := tables.reviews + OutcomeRows(request, outcome),
            locks := tables.locks - {request.pr})
  }

  /** The SELECT comes before the transaction that writes: `between` are the enqueues that commit in the meantime. */
  method ClaimOne(db: Database, between: seq<Arrival>) returns (job: Option<nat>)
    requires db.working == db.committed
    modifies db
    ensures job == OldestPending(old(db.committed).jobs)
    ensures db.working == db.committed ==
            if job == None then old(db.committed) else Started(Arrived(old(db.committed), between), job.value)
    ensures job.Some? ==>
              && job.value < |old(db.committed).jobs| <= |db.committed.jobs|
              && var row := old(db.committed).jobs[job.value];
                 db.committed.jobs[job.value] == Job(row.request, Running, None, None, row.createdAt)
  {
    job := OldestPending(db.working.jobs);
    if job == None {
      return;
    }
    Arrive(db, between);
    ArrivalsOnlyAppend(old(db.committed), between);
    db.UpdateJobStatus(job.value, Running, None, None);
    db.Commit();
  }

  method Persist(db: Database, j: nat, request: ReviewRequest, result: ReviewResult) returns (comment: Option<string>)
    requires db.working == db.committed
    modifies db
    ensures db.working == db.committed == Finalised(old(db.committed), j, request, Returned(result))
    ensures comment == OutcomeComment(Returned(result))
  {
    db.UpdateJobStatus(j, result.status, result.detail, result.error);
    if result.reviewId.Some? {
      db.RecordReviewPosted(ReviewRow(request.pr, request.headSha, result.reviewId.value, result.chunkCount));
    }
    db.ReleaseLock(request.pr);
    db.Commit();

    comment := None;
    if result.status.Failed? && result.failureMessage.Some? {
      comment := result.failureMessage;
    }
  }

  method FinalizeFailure(db: Database, j: nat, request: ReviewRequest, detail: StatusDetail, error: string)
    requires db.working == db.committed
    modifies db
    ensures db.working == db.committed
    ensures db.committed == old(db.committed).(
              jobs := WithStatus(old(db.committed).jobs, j, Failed, Some(detail), Some(error)),
              locks := old(db.committed).locks - {request.pr})
  {
    db.UpdateJobStatus(j, Failed, Some(detail), Some(error));
    db.ReleaseLock(request.pr);
    db.Commit();
  }

  /** `during` are the enqueues that commit while the reviewer runs. */
  method Process(db: Database, j: nat, request: ReviewRequest, during: seq<Arrival>, outcome: RunOutcome)
    returns (comment: Option<string>)
    requires db.working == db.committed
    modifies db
    ensures db.working == db.committed == Finalised(Arrived(old(db.committed), during), j, request, outcome)
    ensures j < |old(db.committed).jobs| ==>
              && |old(db.committed).jobs| <= |db.committed.jobs|
              && var row := db.committed.jobs[j];
                 && row.request == old(db.committed).jobs[j].request
                 && match outcome
                    case TimedOut =>
                      row.status == Failed && row.detail == Some(Timeout) && row.error == Some("job timed out")
                    case Raised(message) =>
                      row.status == Failed && row.detail == Some(LlmFailure) && row.error == Some(message)
                    case Returned(r) => row.status == r.status && row.detail == r.detail && row.error == r.error
    ensures request.pr !in db.committed.locks
    ensures db.committed.reviews == old(db.committed).reviews +
            match outcome
            case Returned(r) =>
              if r.reviewId == None then []
              else [ReviewRow(request.pr, request.headSha, r.reviewId.value, r.chunkCount)]
            case _ => []
    ensures match outcome
            case TimedOut => comment == Some("vidi-pr could not complete the review: job timed out")
            case Raised(message) => comment == Some("vidi-pr could not complete the review: " + message)
            case Returned(r) => comment == if r.status == Failed then r.failureMessage else None
    ensures comment == OutcomeComment(outcome)
  {
    Arrive(db, during);
    ArrivalsOnlyAppend(old(db.committed), during);
    match outcome {
      case TimedOut =>
        FinalizeFailure(db, j, request, Timeout, "job timed out");
        comment := Some("vidi-pr could not complete the review: job timed out");
      case Raised(message) =>
        FinalizeFailure(db, j, request, LlmFailure, message);
        comment := Some("vidi-pr could not complete the review: " + message);
      case Returned(result) =>
        comment := Persist(db, j, request, result);
    }
  }

  // ---------- the poll loop ----------

  /**
   * One round of the loop: the enqueues that commit before its SELECT, between its SELECT and its UPDATE, and while the
   * reviewer runs, and how the run ends if the poll finds a job.
   */
  datatype Poll = Poll(before: seq<Arrival>, between: seq<Arrival>, during: seq<Arrival>, outcome: RunOutcome)

  function Found(tables: Tables, poll: Poll): Option<nat> {
    OldestPending(Arrived(tables, poll.before).jobs)
  }

  function Polled(tables: Tables, poll: Poll): Tables {
    var seen := Arrived(tables, poll.before);
    match Found(tables, poll)
    case None => seen
    case Some(j) =>
      var running := Started(Arrived(seen, poll.between), j);
      Finalised(Arrived(running, poll.during), j, seen.jobs[j].request, poll.outcome)
  }

  /** The tables after some polls. */
  function AfterPolls(tables: Tables, polls: seq<Poll>): Tables {
    if polls == [] then tables else Polled(AfterPolls(tables, polls[..|polls| - 1]), polls[|polls| - 1])
  }

  /** The failure comments those polls ask for, in order. */
  function CommentsOfPolls(tables: Tables, polls: seq<Poll>): seq<string> {
    if polls == [] then []
    else
      var n := |polls| - 1;
      CommentsOfPolls(tables, polls[..n]) + CommentOf(AfterPolls(tables, polls[..n]), polls[n])
  }

  function CommentOf(tables: Tables, poll: Poll): seq<string> {
    var comment := OutcomeComment(poll.outcome);
    if Found(tables, poll) == None || comment == None then [] else [comment.value]
  }

  lemma NextPoll(tables: Tables, polls: seq<Poll>, n: nat)
    requires n < |polls|
    ensures var before := AfterPolls(tables, polls[..n]);
            && AfterPolls(tables, polls[..n + 1]) == Polled(before, polls[n])
            && CommentsOfPolls(tables, polls[..n + 1]) ==
               CommentsOfPolls(tables, polls[..n]) + CommentOf(before, polls[n])
  {
    assert polls[..n + 1][..n] == polls[..n];
  }

  lemma RequestOfClaimed(tables: Tables, between: seq<Arrival>, j: nat)
    requires j < |tables.jobs|
    ensures var started := Started(Arrived(tables, between), j);
            j < |started.jobs| && started.jobs[j].request == tables.jobs[j].request
  {
    ArrivalsOnlyAppend(tables, between);
  }

  /** One round; the job the reviewer gets is the row as it stands after the claim. */
  method PollOnce(db: Database, poll: Poll) returns (comments: seq<string>)
    requires db.working == db.committed
    modifies db
    ensures db.working == db.committed == Polled(old(db.committed), poll)
    ensures comments == CommentOf(old(db.committed), poll)
    ensures Found(old(db.committed), poll) == None ==> comments == []
    ensures Found(old(db.committed), poll).Some? ==>
              match poll.outcome
              case TimedOut => comments == ["vidi-pr could not complete the review: job timed out"]
              case Raised(message) => comments == ["vidi-pr could not complete the review: " + message]
              case Returned(r) =>
                comments == if r.status == Failed && r.failureMessage.Some? then [r.failureMessage.value] else []
  {
    hide Finalised, OutcomeComment, Arrived;
    Arrive(db, poll.before);
    ghost var seen := db.committed;
    var job := ClaimOne(db, poll.between);
    if job == None {
      return [];
    }
    RequestOfClaimed(seen, poll.between, job.value);
    var comment := Process(db, job.value, db.committed.jobs[job.value].request, poll.during, poll.outcome);
    comments := if comment.Some? then [comment.value] else [];
  }

  /**
   * What one round does to the job it finds, row by row: the job ends as its run ended, its lock is gone, the review it
   * posted is in the ledger, and no other job that was there has changed.
   */
  lemma PolledJobEndsAsItsRun(tables: Tables, poll: Poll)
    requires Found(tables, poll).Some?
    ensures var seen, after, j := Arrived(tables, poll.before), Polled(tables, poll), Found(tables, poll).value;
            && j < |seen.jobs| <= |after.jobs|
            && (forall k :: 0 <= k < |seen.jobs| && k != j ==> after.jobs[k] == seen.jobs[k])
            && var row, request := after.jobs[j], seen.jobs[j].request;
               && row.request == request && row.createdAt == seen.jobs[j].createdAt
               && request.pr !in after.locks
               && match poll.outcome
                  case TimedOut =>
                    && row.status == Failed && row.detail == Some(Timeout) && row.error == Some("job timed out")
                    && after.reviews == tables.reviews
                  case Raised(message) =>
                    && row.status == Failed && row.detail == Some(LlmFailure) && row.error == Some(message)
                    && after.reviews == tables.reviews
                  case Returned(r) =>
                    && row.status == r.status && row.detail == r.detail && row.error == r.error
                    && after.reviews == tables.reviews +
                       if r.reviewId == None then []
                       else [ReviewRow(request.pr, request.headSha, r.reviewId.value, r.chunkCount)]
  {
    hide Arrived;
    var seen, j := Arrived(tables, poll.before), Found(tables, poll).value;
    var running := Started(Arrived(seen, poll.between), j);
    ArrivalsOnlyAppend(tables, poll.before);
    ArrivalsOnlyAppend(seen, poll.between);
    ArrivalsOnlyAppend(running, poll.during);
  }

  /** `run_forever` with the stop event set after `|polls|` rounds. */
  method RunForever(db: Database, polls: seq<Poll>) returns (comments: seq<string>)
    requires db.working == db.committed
    modifies db
    ensures db.working == db.committed == AfterPolls(old(db.committed), polls)
    ensures comments == CommentsOfPolls(old(db.committed), polls)
  {
    hide Polled, CommentOf;
    comments := [];
    var n := 0;
    while n < |polls|
      invariant n <= |polls|
      invariant db.working == db.committed == AfterPolls(old(db.committed), polls[..n])
      invariant comments == CommentsOfPolls(old(db.committed), polls[..n])
    {
      NextPoll(old(db.committed), polls, n);
      var more := PollOnce(db, polls[n]);
      comments := comments + more;
      n := n + 1;
    }
    assert polls[..|polls|] == polls;
  }

  predicate EndsTerminal(outcome: RunOutcome) {
    outcome.Returned? ==> Terminal(outcome.result.status)
  }

  lemma {:induction false} CountChange(jobs: seq<Job>, j: nat, job: Job, status: JobStatus)
    requires j < |jobs|
    ensures CountStatus(jobs[j := job], status) ==
            CountStatus(jobs, status) - (if jobs[j].status == status then 1 else 0)
                                      + (if job.status == status then 1 else 0)
  {
    var last := |jobs| - 1;
    if j < last {
      CountChange(jobs[..last], j, job, status);
      assert jobs[j := job][..last] == jobs[..last][j := job];
    } else {
      assert jobs[j := job][..last] == jobs[..last];
    }
  }

  lemma {:induction false} NoneCounted(jobs: seq<Job>, status: JobStatus)
    ensures CountStatus(jobs, status) == 0 <==> forall i :: 0 <= i < |jobs| ==> jobs[i].status != status
  {
    if jobs != [] {
      NoneCounted(jobs[..|jobs| - 1], status);
    }
  }

  lemma {:induction false} CountAppended(jobs: seq<Job>, more: seq<Job>, status: JobStatus)
    ensures CountStatus(jobs + more, status) == CountStatus(jobs, status) + CountStatus(more, status)
  {
    if more == [] {
      assert jobs + more == jobs;
    } else {
      var n := |more| - 1;
      assert (jobs + more)[..|jobs| + n] == jobs + more[..n];
      CountAppended(jobs, more[..n], status);
    }
  }

  lemma {:induction false} AllPending(jobs: seq<Job>)
    requires forall k :: 0 <= k < |jobs| ==> jobs[k].status.Pending?
    ensures CountStatus(jobs, Pending) == |jobs| && CountStatus(jobs, Running) == 0
  {
    if jobs != [] { AllPending(jobs[..|jobs| - 1]); }
  }

  lemma ArrivalsCount(tables: Tables, arrivals: seq<Arrival>)
    ensures var after := Arrived(tables, arrivals);
            && |after.jobs| >= |tables.jobs|
            && CountStatus(after.jobs, Pending) == CountStatus(tables.jobs, Pending) + |after.jobs| - |tables.jobs|
            && CountStatus(after.jobs, Running) == CountStatus(tables.jobs, Running)
  {
    hide Arrived;
    ArrivalsOnlyAppend(tables, arrivals);
    var after := Arrived(tables, arrivals);
    var more := after.jobs[|tables.jobs|..];
    assert after.jobs == tables.jobs + more;
    AllPending(more);
    CountAppended(tables.jobs, more, Pending);
    CountAppended(tables.jobs, more, Running);
  }

  /** A pending job that is started leaves the pending ones; a running job that is finalised leaves the running ones. */
  lemma StartAndFinaliseCount(tables: Tables, j: nat, request: ReviewRequest, outcome: RunOutcome)
    requires j < |tables.jobs| && EndsTerminal(outcome)
    ensures tables.jobs[j].status.Pending? ==>
              && CountStatus(Started(tables, j).jobs, Pending) == CountStatus(tables.jobs, Pending) - 1
              && CountStatus(Started(tables, j).jobs, Running) == CountStatus(tables.jobs, Running) + 1
    ensures tables.jobs[j].status.Running? ==>
              var after := Finalised(tables, j, request, outcome);
              && |after.jobs| == |tables.jobs|
              && CountStatus(after.jobs, Pending) == CountStatus(tables.jobs, Pending)
              && CountStatus(after.jobs, Running) == CountStatus(tables.jobs, Running) - 1
  {
    hide CountStatus;
    CountChange(tables.jobs, j, Started(tables, j).jobs[j], Pending);
    CountChange(tables.jobs, j, Started(tables, j).jobs[j], Running);
    var final := Finalised(tables, j, request, outcome).jobs[j];
    CountChange(tables.jobs, j, final, Pending);
    CountChange(tables.jobs, j, final, Running);
  }

  /** Whatever is enqueued meanwhile, a poll takes exactly one pending job if it finds one, and leaves none running. */
  lemma PollTakesOnePendingJob(tables: Tables, poll: Poll)
    requires EndsTerminal(poll.outcome)
    ensures var after := Polled(tables, poll);
            && |after.jobs| >= |tables.jobs|
            && CountStatus(after.jobs, Pending) + (if Found(tables, poll).Some? then 1 else 0) ==
               CountStatus(tables.jobs, Pending) + |after.jobs| - |tables.jobs|
            && CountStatus(after.jobs, Running) == CountStatus(tables.jobs, Running)
    ensures Found(tables, poll).Some? <==> CountStatus(Arrived(tables, poll.before).jobs, Pending) > 0
  {
    hide CountStatus, Arrived, Finalised;
    var seen := Arrived(tables, poll.before);
    ArrivalsCount(tables, poll.before);
    NoneCounted(seen.jobs, Pending);
    match Found(tables, poll)
    case None =>
    case Some(j) =>
      var request := seen.jobs[j].request;
      var selected := Arrived(seen, poll.between);
      var running := Started(selected, j);
      var done := Arrived(running, poll.during);
      ArrivalsOnlyAppend(seen, poll.between);
      ArrivalsCount(seen, poll.between);
      StartAndFinaliseCount(selected, j, request, poll.outcome);
      ArrivalsOnlyAppend(running, poll.during);
      ArrivalsCount(running, poll.during);
      StartAndFinaliseCount(done, j, request, poll.outcome);
  }

  /** The number of polls that found a job. */
  function Taken(tables: Tables, polls: seq<Poll>): nat {
    if polls == [] then 0
    else
      var n := |polls| - 1;
      Taken(tables, polls[..n]) + if Found(AfterPolls(tables, polls[..n]), polls[n]).Some? then 1 else 0
  }

  /** Over any polls and arrivals no job is lost or taken twice: those pending at the end are those pending at the
      start and those that came, less one for each poll that found a job. */
  lemma {:induction false} PollingConservesJobs(tables: Tables, polls: seq<Poll>)
    requires forall p :: p in polls ==> EndsTerminal(p.outcome)
    ensures var after := AfterPolls(tables, polls);
            && |after.jobs| >= |tables.jobs|
            && CountStatus(after.jobs, Pending) + Taken(tables, polls) ==
               CountStatus(tables.jobs, Pending) + |after.jobs| - |tables.jobs|
            && CountStatus(after.jobs, Running) == CountStatus(tables.jobs, Running)
  {
    hide CountStatus, Polled, Found;
    if polls != [] {
      var n := |polls| - 1;
      assert polls == polls[..n] + [polls[n]];
      PollingConservesJobs(tables, polls[..n]);
      PollTakesOnePendingJob(AfterPolls(tables, polls[..n]), polls[n]);
    }
  }

  predicate Quiet(poll: Poll) {
    poll.before == poll.between == poll.during == []
  }

  /** With no arrivals, the queue is empty after as many polls as there were pending jobs. */
  lemma {:induction false} PollingDrainsTheQueue(tables: Tables, polls: seq<Poll>)
    requires forall p :: p in polls ==> EndsTerminal(p.outcome) && Quiet(p)
    ensures var pending := CountStatus(tables.jobs, Pending);
            && |AfterPolls(tables, polls).jobs| == |tables.jobs|
            && CountStatus(AfterPolls(tables, polls).jobs, Pending) ==
               if |polls| <= pending then pending - |polls| else 0
  {
    hide CountStatus, Finalised;
    if polls != [] {
      var n := |polls| - 1;
      assert polls == polls[..n] + [polls[n]];
      PollingDrainsTheQueue(tables, polls[..n]);
      PollTakesOnePendingJob(AfterPolls(tables, polls[..n]), polls[n]);
      QuietPoll(AfterPolls(tables, polls[..n]), polls[n]);
    }
  }

  lemma QuietPoll(tables: Tables, poll: Poll)
    requires Quiet(poll)
    ensures Arrived(tables, poll.before) == tables && |Polled(tables, poll).jobs| == |tables.jobs|
  {
  }
}

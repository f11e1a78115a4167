// storage/*.py and models/storage.py: the tables, and the statements run against them.
module Storage {
  import opened Common

  datatype JobStatus = Pending | Running | Done | Failed

  predicate Terminal(status: JobStatus) {
    status.Done? || status.Failed?
  }

  datatype StatusDetail =
    | InterruptedByRestart
    | Timeout
    | NoReviewableFiles
    | DraftedAfterEvent
    | PrClosed
    | ParseFailed
    | LlmFailure
    | GitHubFailure

  datatype TriggerKind = Auto | Comment

  /** What a job is for; never changed once the job is inserted. */
  datatype ReviewRequest = ReviewRequest(
    installationId: int, pr: PrKey, headSha: string, triggerKind: TriggerKind, extraContext: Option<string>)

  datatype Job = Job(
    request: ReviewRequest, status: JobStatus, detail: Option<StatusDetail>, error: Option<string>, createdAt: int)

  datatype ReviewRow = ReviewRow(pr: PrKey, headSha: string, reviewId: int, chunkCount: nat)

  /** Jobs are never deleted, so a job's id is its position. A lock row maps a pull request to a job id. */
  datatype Tables = Tables(
    jobs: seq<Job>, locks: map<PrKey, nat>, reviews: seq<ReviewRow>, deliveries: set<string>)

  const INTERRUPTED_ERROR := "interrupted by service restart"

  predicate Live(tables: Tables, j: nat) {
    j < |tables.jobs| && !Terminal(tables.jobs[j].status)
  }

  // ---------- statements as values ----------

  function NewJob(request: ReviewRequest, now: int): Job {
    Job(request, Pending, None, None, now)
  }

  function WithStatus(jobs: seq<Job>, j: nat, status: JobStatus, detail: Option<StatusDetail>, error: Option<string>)
    : seq<Job>
  {
    if j < |jobs| then jobs[j := jobs[j].(status := status, detail := detail, error := error)] else jobs
  }

  /** The locks that survive deleting every row owned by a terminal job. */
  function WithoutStale(jobs: seq<Job>, locks: map<PrKey, nat>): map<PrKey, nat> {
    map pr | pr in locks && !(locks[pr] < |jobs| && Terminal(jobs[locks[pr]].status)) :: locks[pr]
  }

  function Interrupt(job: Job): Job {
    if job.status.Running? then
      job.(status := Failed, detail := Some(InterruptedByRestart),
           error := if job.error.Some? then job.error else Some(INTERRUPTED_ERROR))
    else job
  }

  function Interrupted(jobs: seq<Job>): seq<Job> {
    seq(|jobs|, i requires 0 <= i < |jobs| => Interrupt(jobs[i]))
  }

  function Recovered(tables: Tables): Tables {
    var jobs := Interrupted(tables.jobs);
    tables.(jobs := jobs, locks := WithoutStale(jobs, tables.locks))
  }

  function CountStatus(jobs: seq<Job>, status: JobStatus): nat {
    if jobs == [] then 0
    else CountStatus(jobs[..|jobs| - 1], status) + (if jobs[|jobs| - 1].status == status then 1 else 0)
  }

  /** `ORDER BY created_at, id`. */
  predicate Before(jobs: seq<Job>, i: nat, k: nat)
    requires i < |jobs| && k < |jobs|
  {
    jobs[i].createdAt < jobs[k].createdAt || (jobs[i].createdAt == jobs[k].createdAt && i < k)
  }

  /** The row `SELECT ... WHERE status = 'pending' ORDER BY created_at, id LIMIT 1` returns. */
  function OldestPending(jobs: seq<Job>): (oldest: Option<nat>)
    ensures oldest == None <==> forall i :: 0 <= i < |jobs| ==> !jobs[i].status.Pending?
    ensures oldest.Some? ==>
              && oldest.value < |jobs| && jobs[oldest.value].status.Pending?
              && forall i :: 0 <= i < |jobs| && jobs[i].status.Pending? && i != oldest.value ==>
                   || jobs[oldest.value].createdAt < jobs[i].createdAt
                   || (jobs[oldest.value].createdAt == jobs[i].createdAt && oldest.value < i)
  {
    if jobs == [] then None
    else
      var last := |jobs| - 1;
      var best := OldestPending(jobs[..last]);
      if jobs[last].status.Pending? && (best.None? || jobs[last].createdAt < jobs[best.value].createdAt) then Some(last)
      else best
  }

  // ---------- the database, with one open write transaction ----------

  /** SQLite has one writer: `working` is what the open transaction sees, `committed` what everybody else does. */
  class Database {
    var committed: Tables
    var working: Tables

    constructor ()
      ensures committed == Tables([], map[], [], {}) && working == committed
    {
      committed := Tables([], map[], [], {});
      working := Tables([], map[], [], {});
    }

    method Commit()
      modifies this`committed
      ensures committed == working
    {
      committed := working;
    }

    method Rollback()
      modifies this`working
      ensures working == committed
    {
      working := committed;
    }

    method InsertJob(request: ReviewRequest, now: int) returns (id: nat)
      modifies this`working
      ensures id == |old(working.jobs)|
      ensures working == old(working).(jobs := old(working.jobs) + [Job(request, Pending, None, None, now)])
    {
      id := |working.jobs|;
      working := working.(jobs := working.jobs + [Job(request, Pending, None, None, now)]);
    }

    method UpdateJobStatus(id: nat, status: JobStatus, detail: Option<StatusDetail>, error: Option<string>)
      modifies this`working
      ensures working == old(working).(jobs := WithStatus(old(working.jobs), id, status, detail, error))
      ensures |working.jobs| == |old(working.jobs)|
      ensures forall k :: 0 <= k < |working.jobs| ==>
                var job := old(working.jobs)[k];
                working.jobs[k] == if k == id then Job(job.request, status, detail, error, job.createdAt) else job
    {
      if id < |working.jobs| {
        var job := working.jobs[id].(status := status, detail := detail, error := error);
        working := working.(jobs := working.jobs[id := job]);
      }
    }

    /** INSERT ... ON CONFLICT DO NOTHING: an existing row wins. */
    method AcquireLock(pr: PrKey, id: nat) returns (acquired: bool)
      modifies this`working
      ensures acquired == (pr !in old(working.locks))
      ensures working == if acquired then old(working).(locks := old(working.locks)[pr := id]) else old(working)
    {
      acquired := pr !in working.locks;
      if acquired {
        working := working.(locks := working.locks[pr := id]);
      }
    }

    /** DELETE by key, whoever owns the row. */
    method ReleaseLock(pr: PrKey)
      modifies this`working
      ensures working == old(working).(locks := old(working.locks) - {pr})
    {
      working := working.(locks := working.locks - {pr});
    }

    method FetchLock(pr: PrKey) returns (owner: Option<nat>)
      ensures owner == if pr in working.locks then Some(working.locks[pr]) else None
    {
      owner := if pr in working.locks then Some(working.locks[pr]) else None;
    }

    method ClearStaleLocks() returns (removed: nat)
      modifies this`working
      ensures working == old(working).(locks := WithoutStale(old(working.jobs), old(working.locks)))
      ensures forall pr :: pr in working.locks <==>
                && pr in old(working.locks)
                && var owner := old(working.locks)[pr];
                   owner < |working.jobs| ==> working.jobs[owner].status.Pending? || working.jobs[owner].status.Running?
      ensures forall pr :: pr in working.locks ==> working.locks[pr] == old(working.locks)[pr]
      ensures removed == |old(working.locks)| - |working.locks|
    {
      var kept := WithoutStale(working.jobs, working.locks);
      FewerLocks(working.jobs, working.locks);
      removed := |working.locks| - |kept|;
      working := working.(locks := kept);
    }

    method RecordReviewPosted(row: ReviewRow)
      modifies this`working
      ensures working == old(working).(reviews := old(working.reviews) + [row])
    {
      working := working.(reviews := working.reviews + [row]);
    }

    method RecordDelivery(delivery: string) returns (isNew: bool)
      modifies this`working
      ensures isNew == (delivery !in old(working.deliveries))
      ensures working == old(working).(deliveries := old(working.deliveries) + {delivery})
    {
      isNew := delivery !in working.deliveries;
      working := working.(deliveries := working.deliveries + {delivery});
    }

    /** UPDATE every running job; the row count is what the caller gets back. */
    method FailRunningJobs() returns (failed: nat)
      modifies this`working
      ensures working == old(working).(jobs := Interrupted(old(working.jobs)))
      ensures failed == CountStatus(old(working.jobs), Running)
    {
      failed := CountStatus(working.jobs, Running);
      working := working.(jobs := Interrupted(working.jobs));
    }

    /** Fails every running job first, so that its lock is already stale when the locks are cleared. */
    method RecoverOnStartup() returns (recovered: nat)
      modifies this`working
      ensures working == Recovered(old(working))
      ensures |working.jobs| == |old(working.jobs)|
      ensures forall k :: 0 <= k < |working.jobs| ==>
                var job := old(working.jobs)[k];
                var error := if job.error.Some? then job.error else Some("interrupted by service restart");
                working.jobs[k] ==
                if job.status.Running? then Job(job.request, Failed, Some(InterruptedByRestart), error, job.createdAt)
                else job
      ensures forall pr :: pr in working.locks <==>
                && pr in old(working.locks)
                && var owner := old(working.locks)[pr];
                   owner < |old(working.jobs)| ==> old(working.jobs)[owner].status.Pending?
      ensures forall pr :: pr in working.locks ==> working.locks[pr] == old(working.locks)[pr]
      ensures working.reviews == old(working.reviews) && working.deliveries == old(working.deliveries)
      ensures recovered == CountStatus(old(working.jobs), Running)
    {
      recovered := FailRunningJobs();
      var _ := ClearStaleLocks();
    }
  }

  lemma FewerLocks(jobs: seq<Job>, locks: map<PrKey, nat>)
    ensures |WithoutStale(jobs, locks)| <= |locks|
  {
    var kept := WithoutStale(jobs, locks);
    assert kept.Keys <= locks.Keys;
    SubsetSize(kept.Keys, locks.Keys);
    assert |kept| == |kept.Keys| && |locks| == |locks.Keys|;
  }

  lemma {:induction false} SubsetSize<T>(a: set<T>, b: set<T>)
    requires a <= b
    ensures |a| <= |b|
  {
    if a != {} {
      var x :| x in a;
      SubsetSize(a - {x}, b - {x});
    }
  }
}

// No starvation: jobs are claimed in (created_at, id) order, whatever arrives meanwhile.
module Queue {
  import opened Common
  import opened Storage
  import opened Outcome
  import opened Worker
  import opened Protocol

  /** The pending jobs that will be claimed before job `j`. */
  function Ahead(jobs: seq<Job>, j: nat): set<nat>
    requires j < |jobs|
  {
    set i | 0 <= i < |jobs| && jobs[i].status.Pending? && Before(jobs, i, j)
  }

  predicate Waiting(s: System, j: nat) {
    j < |s.tables.jobs| && s.tables.jobs[j].status.Pending?
  }

  /** No job enqueued along the way is stamped earlier than `created`, as a clock that never goes back ensures. */
  predicate NotStampedBefore(steps: seq<Step>, created: int) {
    forall i :: 0 <= i < |steps| && steps[i].Enqueue? ==> steps[i].now >= created
  }

  function Claims(steps: seq<Step>): nat {
    if steps == [] then 0 else (if steps[0].Claim? then 1 else 0) + Claims(steps[1..])
  }

  /**
   * The worker has not selected a job behind `j`. Once it has read which job to claim, a job enqueued with an earlier
   * stamp comes too late for that claim.
   */
  predicate SelectionIsFair(s: System, j: nat)
    requires j < |s.tables.jobs|
  {
    s.worker.Selected? ==>
      if s.worker.job == j then Ahead(s.tables.jobs, j) == {} else s.worker.job in Ahead(s.tables.jobs, j)
  }

  /** The SELECT picks job `j` exactly when nothing is ahead of it, and otherwise one of the jobs ahead. */
  lemma SelectPicksTheFront(s: System, j: nat)
    requires Inv(s) && Enabled(s, Select) && Waiting(s, j)
    ensures var selected := Next(s, Select).worker.job;
            if Ahead(s.tables.jobs, j) == {} then selected == j else selected in Ahead(s.tables.jobs, j)
  {
    var oldest := OldestPending(s.tables.jobs).value;
    if oldest == j {
      assert forall i :: i in Ahead(s.tables.jobs, j) ==> i != j;
    } else {
      assert oldest in Ahead(s.tables.jobs, j);
    }
  }

  /** A claim takes the selected job, and only it, off the jobs that wait. */
  lemma ClaimTakesTheSelected(s: System, j: nat)
    requires Inv(s) && Enabled(s, Claim) && Waiting(s, j)
    ensures var after, selected := Next(s, Claim), s.worker.job;
            && j < |after.tables.jobs|
            && (Waiting(after, j) <==> selected != j)
            && after.tables.jobs[selected].status.Running?
            && after.tables.jobs[j].createdAt == s.tables.jobs[j].createdAt
            && Ahead(after.tables.jobs, j) == Ahead(s.tables.jobs, j) - {selected}
  {
  }

  /** Of all other steps, only an enqueue stamped earlier than a waiting job puts something ahead of it. */
  lemma OvertakenOnlyByEarlierStamps(s: System, step: Step, j: nat)
    requires Inv(s) && Enabled(s, step) && Waiting(s, j) && step != Claim
    ensures var after := Next(s, step);
            && Waiting(after, j) && after.tables.jobs[j].createdAt == s.tables.jobs[j].createdAt
            && Ahead(after.tables.jobs, j) == Ahead(s.tables.jobs, j) +
               (if step.Enqueue? && step.now < s.tables.jobs[j].createdAt && |after.tables.jobs| > |s.tables.jobs|
                then {|s.tables.jobs|} else {})
  {
    var before, after := s.tables.jobs, Next(s, step).tables.jobs;
    forall i | 0 <= i < |before|
      ensures i in Ahead(after, j) <==> i in Ahead(before, j)
    {
      assert after[i].createdAt == before[i].createdAt;
    }
  }

  /** Under a clock that does not go back, no selection is ever behind a job when that job is enqueued. */
  lemma NewJobFindsFairSelection(s: System, d: string, now: int)
    requires Inv(s) && Enabled(s, Enqueue(d, now)) && s.handlers[d].request.pr !in s.tables.locks
    requires forall job :: job in s.tables.jobs ==> job.createdAt <= now
    ensures var after := Next(s, Enqueue(d, now));
            Waiting(after, |s.tables.jobs|) && SelectionIsFair(after, |s.tables.jobs|)
  {
    var after, j := Next(s, Enqueue(d, now)).tables.jobs, |s.tables.jobs|;
    if s.worker.Selected? {
      assert s.tables.jobs[s.worker.job] in s.tables.jobs;
      assert after[s.worker.job] == s.tables.jobs[s.worker.job] && Before(after, s.worker.job, j);
    }
  }

  /** A step that is no claim keeps a fair selection fair, and moves nothing ahead, if it stamps nothing earlier. */
  lemma FairStep(s: System, step: Step, j: nat)
    requires Inv(s) && Enabled(s, step) && Waiting(s, j) && step != Claim && SelectionIsFair(s, j)
    requires step.Enqueue? ==> step.now >= s.tables.jobs[j].createdAt
    ensures var after := Next(s, step);
            && Waiting(after, j) && after.tables.jobs[j].createdAt == s.tables.jobs[j].createdAt
            && Ahead(after.tables.jobs, j) == Ahead(s.tables.jobs, j) && SelectionIsFair(after, j)
  {
    OvertakenOnlyByEarlierStamps(s, step, j);
    hide Inv, Ahead;
    if step == Select { SelectPicksTheFront(s, j); }
  }

  /**
   * A job with `n` jobs ahead of it waits through the first `n` claims, whatever arrives or crashes meanwhile,
   * and is no longer waiting once `n + 1` claims have happened.
   */
  lemma {:induction false} ClaimedInTurn(s: System, steps: seq<Step>, j: nat)
    requires Inv(s) && IsRun(s, steps) && Waiting(s, j) && SelectionIsFair(s, j)
    requires NotStampedBefore(steps, s.tables.jobs[j].createdAt)
    ensures var n, end := |Ahead(s.tables.jobs, j)|, After(s, steps);
            && j < |end.tables.jobs|
            && (Waiting(end, j) <==> Claims(steps) <= n)
            && (Waiting(end, j) ==> |Ahead(end.tables.jobs, j)| == n - Claims(steps) && SelectionIsFair(end, j))
    decreases |steps|
  {
    hide Inv, Ahead;
    if steps != [] {
      var next, rest := Next(s, steps[0]), steps[1..];
      StepKeepsInv(s, steps[0]);
      assert forall i :: 0 <= i < |rest| ==> rest[i] == steps[i + 1];
      if steps[0] == Claim {
        ClaimTakesTheSelected(s, j);
        if Waiting(next, j) {
          ClaimedInTurn(next, rest, j);
        } else {
          NeverWaitsAgain(next, rest, j);
        }
      } else {
        FairStep(s, steps[0], j);
        ClaimedInTurn(next, rest, j);
      }
    }
  }

  lemma {:induction false} NeverWaitsAgain(s: System, steps: seq<Step>, j: nat)
    requires Inv(s) && IsRun(s, steps) && j < |s.tables.jobs| && !Waiting(s, j)
    ensures j < |After(s, steps).tables.jobs| && !Waiting(After(s, steps), j)
    decreases |steps|
  {
    if steps != [] {
      StepKeepsInv(s, steps[0]);
      NeverWaitsAgain(Next(s, steps[0]), steps[1..], j);
    }
  }

  /** The claim after `n` others is the one that takes job `j`. */
  lemma TakenByItsTurn(s: System, steps: seq<Step>, j: nat)
    requires Inv(s) && IsRun(s, steps) && Waiting(s, j) && SelectionIsFair(s, j)
    requires NotStampedBefore(steps, s.tables.jobs[j].createdAt)
    requires Claims(steps) == |Ahead(s.tables.jobs, j)| && Enabled(After(s, steps), Claim)
    ensures Next(After(s, steps), Claim).worker.job == j
    ensures Next(After(s, steps), Claim).tables.jobs[j].status.Running?
  {
    RunKeepsInv(s, steps);
    ClaimedInTurn(s, steps, j);
    ClaimTakesTheSelected(After(s, steps), j);
  }

  /** Whatever the worker has selected, at most one claim more than the jobs ahead happens before job `j` is taken. */
  lemma {:induction false} StaleSelectionCostsOneClaim(s: System, steps: seq<Step>, j: nat)
    requires Inv(s) && IsRun(s, steps) && Waiting(s, j)
    requires NotStampedBefore(steps, s.tables.jobs[j].createdAt)
    ensures j < |After(s, steps).tables.jobs|
    ensures Waiting(After(s, steps), j) ==> Claims(steps) <= |Ahead(s.tables.jobs, j)| + 1
    decreases |steps|
  {
    if SelectionIsFair(s, j) {
      ClaimedInTurn(s, steps, j);
    } else if steps != [] {
      var next, rest := Next(s, steps[0]), steps[1..];
      StepKeepsInv(s, steps[0]);
      assert forall i :: 0 <= i < |rest| ==> rest[i] == steps[i + 1];
      hide Inv, Ahead;
      if steps[0] == Claim {
        ClaimTakesTheSelected(s, j);
        if Waiting(next, j) {
          Smaller(Ahead(s.tables.jobs, j), s.worker.job);
          ClaimedInTurn(next, rest, j);
        } else {
          NeverWaitsAgain(next, rest, j);
        }
      } else {
        OvertakenOnlyByEarlierStamps(s, steps[0], j);
        StaleSelectionCostsOneClaim(next, rest, j);
      }
    }
  }

  /**
   * Under a clock that does not go back, a job enqueued in any reachable state waits through exactly as many claims as
   * there were pending jobs.
   */
  lemma EnqueuedJobIsTakenInTurn(before: seq<Step>, d: string, now: int, steps: seq<Step>)
    requires IsRun(INITIAL, before) && Enabled(After(INITIAL, before), Enqueue(d, now))
    requires var s := After(INITIAL, before);
             && s.handlers[d].request.pr !in s.tables.locks
             && (forall job :: job in s.tables.jobs ==> job.createdAt <= now)
             && IsRun(Next(s, Enqueue(d, now)), steps) && NotStampedBefore(steps, now)
    ensures var s := After(INITIAL, before);
            var j, end := |s.tables.jobs|, After(Next(s, Enqueue(d, now)), steps);
            && j < |end.tables.jobs|
            && (Waiting(end, j) <==> Claims(steps) <= |PendingJobs(s.tables.jobs)|)
  {
    var s := After(INITIAL, before);
    var next, j := Next(s, Enqueue(d, now)), |s.tables.jobs|;
    ReachableStatesAreSafe(before);
    StepKeepsInv(s, Enqueue(d, now));
    NewJobFindsFairSelection(s, d, now);
    ClaimedInTurn(next, steps, j);
    forall i | 0 <= i < j ensures i in Ahead(next.tables.jobs, j) <==> i in PendingJobs(s.tables.jobs) {
      assert s.tables.jobs[i] in s.tables.jobs && next.tables.jobs[i] == s.tables.jobs[i];
    }
    assert Ahead(next.tables.jobs, j) == PendingJobs(s.tables.jobs);
  }

  function PendingJobs(jobs: seq<Job>): set<nat> {
    set i | 0 <= i < |jobs| && jobs[i].status.Pending?
  }

  lemma Smaller(items: set<nat>, item: nat)
    ensures |items - {item}| <= |items|
  {
  }

  /** A service that is up can always go on to a claim while the job waits, at the latest when its run times out. */
  lemma WaitingJobCanBeClaimedFor(s: System, j: nat)
    requires Inv(s) && Waiting(s, j) && s.up
    ensures s.worker.Idle? ==> Enabled(s, Select) && Enabled(Next(s, Select), Claim)
    ensures s.worker.Selected? ==> Enabled(s, Claim)
    ensures s.worker.Reviewing? ==> Enabled(s, Finalise(TimedOut)) && Enabled(Next(s, Finalise(TimedOut)), Select)
  {
    if s.worker.Reviewing? {
      StepKeepsInv(s, Finalise(TimedOut));
      assert Waiting(Next(s, Finalise(TimedOut)), j);
    }
  }
}

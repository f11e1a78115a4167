// pipeline/reviewer.py: how a prepared review is posted, and the result `Reviewer.run` hands to the worker.
module Outcome {
  import opened Common
  import opened Storage

  datatype ReviewResult = ReviewResult(
    status: JobStatus, detail: Option<StatusDetail>, reviewId: Option<int>, chunkCount: nat,
    error: Option<string>, failureMessage: Option<string>)

  /** What one attempt to create the review comes back with. `Unexpected` is any exception outside `GitHubError`. */
  datatype PostReply =
    | Accepted(reviewId: int)
    | Transient(message: string)
    | Permanent(message: string)
    | OtherGitHub(message: string)
    | Unexpected(message: string)

  /** `prepare` either ends the run early or renders a body to post. */
  datatype Rendered =
    | EarlyResult(result: ReviewResult)
    | Body(body: string, detail: Option<StatusDetail>, chunkCount: nat)

  const MAX_ATTEMPTS := 3

  /** Retries transient replies only; the reply to the last attempt is final whatever it is. */
  method PostWithRetry(replies: seq<PostReply>) returns (reply: PostReply, attempts: nat)
    requires |replies| == MAX_ATTEMPTS
    ensures 1 <= attempts <= 3 && reply == replies[attempts - 1]
    ensures forall k :: 0 <= k < attempts - 1 ==> replies[k].Transient?
    ensures reply.Transient? ==> attempts == 3
  {
    attempts := 1;
    while attempts < MAX_ATTEMPTS && replies[attempts - 1].Transient?
      invariant 1 <= attempts <= MAX_ATTEMPTS
      invariant forall k :: 0 <= k < attempts - 1 ==> replies[k].Transient?
    {
      attempts := attempts + 1;
    }
    reply := replies[attempts - 1];
  }

  /** The result of posting a rendered body; `Failure` is an exception that leaves `run`. */
  function PostedResult(rendered: Rendered, reply: PostReply): Result<ReviewResult, string>
    requires rendered.Body?
  {
    match reply
    case Accepted(id) => Success(ReviewResult(Done, rendered.detail, Some(id), rendered.chunkCount, None, None))
    case Permanent(message) =>
      Success(ReviewResult(Done, Some(PrClosed), None, rendered.chunkCount, Some(message), None))
    case Transient(message) =>
      Success(ReviewResult(Failed, Some(GitHubFailure), None, rendered.chunkCount, Some(message), None))
    case OtherGitHub(message) =>
      Success(ReviewResult(Failed, Some(GitHubFailure), None, rendered.chunkCount, Some(message), None))
    case Unexpected(message) => Failure(message)
  }

  /** What the worker relies on: a terminal status, and a review id only for a done job whose post was accepted. */
  predicate WellFormedResult(result: ReviewResult, response: Option<int>) {
    && Terminal(result.status)
    && result.reviewId == response
    && (response.Some? ==> result.status.Done?)
  }

  /** The early exits of `prepare` are terminal and carry no review id. */
  predicate WellFormedEarly(rendered: Rendered) {
    rendered.EarlyResult? ==> WellFormedResult(rendered.result, None)
  }

  /** The first reply that is not transient is number `k`, and comes after `k` retries. */
  ghost predicate FirstLasting(replies: seq<PostReply>, k: nat) {
    k < |replies| && !replies[k].Transient? && forall i :: 0 <= i < k ==> replies[i].Transient?
  }

  /** How posting a rendered body must end, given what GitHub would reply to three attempts. */
  ghost predicate PostEnds(rendered: Rendered, replies: seq<PostReply>, outcome: Result<ReviewResult, string>,
                           response: Option<int>, attempts: nat)
    requires rendered.Body? && |replies| == 3
  {
    && (forall k: nat :: FirstLasting(replies, k) ==>
          && attempts == k + 1
          && match replies[k]
             case Accepted(id) =>
               && response == Some(id)
               && outcome == Success(ReviewResult(Done, rendered.detail, Some(id), rendered.chunkCount, None, None))
             case Permanent(message) =>
               && response == None
               && outcome ==
                  Success(ReviewResult(Done, Some(PrClosed), None, rendered.chunkCount, Some(message), None))
             case OtherGitHub(message) =>
               && response == None
               && outcome ==
                  Success(ReviewResult(Failed, Some(GitHubFailure), None, rendered.chunkCount, Some(message), None))
             case Unexpected(message) => response == None && outcome == Failure(message)
             case Transient(_) => false)
    && (replies[0].Transient? && replies[1].Transient? && replies[2].Transient? ==>
          && attempts == 3 && response == None
          && outcome == Success(ReviewResult(Failed, Some(GitHubFailure), None, rendered.chunkCount,
                                             Some(replies[2].message), None)))
  }

  /** `attempts` is the number of reviews it tried to create. */
  method Run(prepared: Result<Rendered, string>, replies: seq<PostReply>)
    returns (outcome: Result<ReviewResult, string>, response: Option<int>, attempts: nat)
    requires |replies| == MAX_ATTEMPTS
    requires prepared.Success? ==> WellFormedEarly(prepared.value)
    ensures outcome.Success? ==> WellFormedResult(outcome.value, response)
    ensures prepared.Failure? ==> outcome == Failure(prepared.error) && response == None && attempts == 0
    ensures prepared.Success? && prepared.value.EarlyResult? ==>
              outcome == Success(prepared.value.result) && response == None && attempts == 0
    ensures prepared.Success? && prepared.value.Body? ==>
              PostEnds(prepared.value, replies, outcome, response, attempts)
    ensures response.Some? ==>
              Accepted(response.value) in replies && prepared.Success? && prepared.value.Body? && outcome.Success?
  {
    response, attempts := None, 0;
    match prepared {
      case Failure(message) => outcome := Failure(message);
      case Success(rendered) =>
        if rendered.EarlyResult? {
          outcome := Success(rendered.result);
        } else {
          var reply;
          reply, attempts := PostWithRetry(replies);
          outcome := PostedResult(rendered, reply);
          response := if reply.Accepted? then Some(reply.reviewId) else None;
          FirstLastingIsTheLastAttempt(replies, reply, attempts);
        }
    }
  }

  lemma FirstLastingIsTheLastAttempt(replies: seq<PostReply>, reply: PostReply, attempts: nat)
    requires |replies| == 3 && 1 <= attempts <= 3 && reply == replies[attempts - 1]
    requires forall k :: 0 <= k < attempts - 1 ==> replies[k].Transient?
    requires reply.Transient? ==> attempts == 3
    ensures forall k: nat :: FirstLasting(replies, k) ==> k == attempts - 1 && !reply.Transient?
    ensures replies[0].Transient? && replies[1].Transient? && replies[2].Transient? ==> attempts == 3
  {
  }
}

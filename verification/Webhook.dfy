// transport/webhook.py and orchestration/handlers.py: from a signed delivery to an enqueued review.
module Webhook {
  import opened Common
  import opened Storage
  import opened Worker
  import opened Protocol
  import Safety
  import Triggers

  datatype PullRequestEvent = PullRequestEvent(
    action: string, draft: bool, installationId: int, pr: PrKey, headSha: string)

  datatype CommentEvent = CommentEvent(
    action: string, onPullRequest: bool, sender: string, association: string, body: Option<string>,
    installationId: int, pr: PrKey)

  datatype Event = PullRequest(pullRequest: PullRequestEvent) | IssueComment(comment: CommentEvent) | Unsupported

  /** What the comment handler fetches: the head of the pull request, and two answers of its repository's config. */
  datatype Fetched = Fetched(headSha: string, enabled: bool, authorized: (string, string) -> bool)

  /** The surroundings of a handler. A failed fetch or reaction is an exception that leaves the handler. */
  datatype Surroundings = Surroundings(
    botLogin: string, word: char -> bool, fetch: PrKey -> Result<Fetched, string>, react: string -> Result<(), string>)

  datatype Error = AuthError | BadRequest | HandlerError(message: string)

  // ---------- what the guards let through ----------

  predicate AutoTriggers(event: PullRequestEvent) {
    event.action in {"opened", "ready_for_review"} && !event.draft
  }

  /** The guards of `on_issue_comment` before anything is fetched. */
  function Command(event: CommentEvent, around: Surroundings): Option<Triggers.ParsedTrigger> {
    if event.action != "created" || !event.onPullRequest || event.sender == around.botLogin then None
    else Triggers.ParseTrigger(around.word, event.body)
  }

  /** The review an event asks for, and the reaction its comment gets. */
  function Asked(event: Event, around: Surroundings): (Result<Option<ReviewRequest>, string>, Option<string>) {
    match event
    case PullRequest(e) =>
      var request := ReviewRequest(e.installationId, e.pr, e.headSha, Auto, None);
      (Success(if AutoTriggers(e) then Some(request) else None), None)
    case IssueComment(e) => AskedByComment(e, around)
    case Unsupported => (Success(None), None)
  }

  function AskedByComment(e: CommentEvent, around: Surroundings)
    : (Result<Option<ReviewRequest>, string>, Option<string>)
  {
    var command := Command(e, around);
    if command == None then (Success(None), None)
    else
      match around.fetch(e.pr)
      case Failure(message) => (Failure(message), None)
      case Success(fetched) =>
        if !fetched.enabled then (Success(None), None)
        else
          var authorized := fetched.authorized(e.sender, e.association);
          var reaction := if authorized then "eyes" else "-1";
          match around.react(reaction)
          case Failure(message) => (Failure(message), Some(reaction))
          case Success(_) =>
            (Success(if authorized then
                       Some(ReviewRequest(e.installationId, e.pr, fetched.headSha, Comment, command.value.extraContext))
                     else None),
             Some(reaction))
  }

  /** Both handlers enqueue at most once, after all their guards; what `fetch_lock` reads is `precheck`. */
  method Handle(db: Database, event: Event, around: Surroundings, now: int)
    returns (outcome: Result<Option<nat>, string>, reaction: Option<string>)
    requires db.working == db.committed
    modifies db
    ensures db.working == db.committed && reaction == Asked(event, around).1
    ensures match Asked(event, around).0
            case Failure(message) => outcome == Failure(message) && db.committed == old(db.committed)
            case Success(None) => outcome == Success(None) && db.committed == old(db.committed)
            case Success(Some(request)) =>
              && db.committed == Enqueued(old(db.committed), request, now)
              && outcome == Success(
                   if request.pr in old(db.committed).locks then None else Some(|old(db.committed).jobs|))
    ensures event.PullRequest? ==>
              var e := event.pullRequest;
              var auto := (e.action == "opened" || e.action == "ready_for_review") && !e.draft;
              && reaction == None
              && outcome == Success(
                   if auto && e.pr !in old(db.committed).locks then Some(|old(db.committed).jobs|) else None)
              && db.committed ==
                 if !auto || e.pr in old(db.committed).locks then old(db.committed)
                 else
                   var request := ReviewRequest(e.installationId, e.pr, e.headSha, Auto, None);
                   old(db.committed).(jobs := old(db.committed).jobs + [Job(request, Pending, None, None, now)],
                                      locks := old(db.committed).locks[e.pr := |old(db.committed).jobs|])
    ensures event.Unsupported? ==> reaction == None && outcome == Success(None) && db.committed == old(db.committed)
  {
    hide Triggers.ParseTrigger;
    match event {
      case PullRequest(e) =>
        reaction := None;
        if !AutoTriggers(e) {
          return Success(None), None;
        }
        var job := Enqueue(db, ReviewRequest(e.installationId, e.pr, e.headSha, Auto, None), now);
        outcome := Success(job);
      case IssueComment(e) =>
        outcome, reaction := OnIssueComment(db, e, around, now);
      case Unsupported =>
        outcome, reaction := Success(None), None;
    }
  }

  method OnIssueComment(db: Database, e: CommentEvent, around: Surroundings, now: int)
    returns (outcome: Result<Option<nat>, string>, reaction: Option<string>)
    requires db.working == db.committed
    modifies db
    ensures db.working == db.committed && reaction == AskedByComment(e, around).1
    ensures match AskedByComment(e, around).0
            case Failure(message) => outcome == Failure(message) && db.committed == old(db.committed)
            case Success(None) => outcome == Success(None) && db.committed == old(db.committed)
            case Success(Some(request)) =>
              && db.committed == Enqueued(old(db.committed), request, now)
              && outcome == Success(
                   if request.pr in old(db.committed).locks then None else Some(|old(db.committed).jobs|))
  {
    hide Triggers.ParseTrigger, Enqueued;
    reaction := None;
    if e.action != "created" || !e.onPullRequest || e.sender == around.botLogin {
      return Success(None), None;
    }
    var command := Triggers.ParseTrigger(around.word, e.body);
    if command == None {
      return Success(None), None;
    }
    var fetched := around.fetch(e.pr);
    if fetched.Failure? {
      return Failure(fetched.error), None;
    }
    if !fetched.value.enabled {
      return Success(None), None;
    }
    var authorized := fetched.value.authorized(e.sender, e.association);
    reaction := Some(if authorized then "eyes" else "-1");
    var reacted := around.react(reaction.value);
    if reacted.Failure? {
      return Failure(reacted.error), reaction;
    }
    if !authorized {
      return Success(None), reaction;
    }
    var request := ReviewRequest(e.installationId, e.pr, fetched.value.headSha, Comment, command.value.extraContext);
    var job := Enqueue(db, request, now);
    outcome := Success(job);
  }

  /** `fetch_lock`, then the transaction, with nothing in between. */
  method Enqueue(db: Database, request: ReviewRequest, now: int) returns (id: Option<nat>)
    requires db.working == db.committed
    modifies db
    ensures db.working == db.committed == Enqueued(old(db.committed), request, now)
    ensures id == if request.pr in old(db.committed).locks then None else Some(|old(db.committed).jobs|)
  {
    var lock := db.FetchLock(request.pr);
    id := TryEnqueueReview(db, lock, request, now);
  }

  // ---------- process_webhook ----------

  /** The headers of a call; `signed` says whether the signature is the right one for the body. */
  datatype Call = Call(signature: Option<string>, eventType: Option<string>, delivery: Option<string>, signed: bool)

  /** All headers are there, and the signature is right. */
  predicate Accepted(call: Call) {
    call.signature.Some? && call.eventType.Some? && call.delivery.Some? && call.signed
  }

  /** The tables after a delivery that passed the checks, when nothing else runs meanwhile. */
  function Delivered(tables: Tables, delivery: string, asked: Option<ReviewRequest>, now: int): Tables {
    if delivery in tables.deliveries then tables
    else
      var recorded := tables.(deliveries := tables.deliveries + {delivery});
      if asked == None then recorded else Enqueued(recorded, asked.value, now)
  }

  function AskedFor(event: Option<Event>, around: Surroundings): Option<ReviewRequest> {
    if event == None then None
    else match Asked(event.value, around).0
      case Success(request) => request
      case Failure(_) => None
  }

  /** `parsed` is what `parse_webhook` makes of the body, if it can. */
  method ProcessWebhook(db: Database, call: Call, parsed: Option<Event>, around: Surroundings, now: int)
    returns (outcome: Result<bool, Error>, reaction: Option<string>)
    requires db.working == db.committed
    modifies db
    ensures db.working == db.committed
    ensures call.signature == None ==>
              outcome == Failure(AuthError) && reaction == None && db.committed == old(db.committed)
    ensures call.signature.Some? && (call.eventType == None || call.delivery == None) ==>
              outcome == Failure(BadRequest) && reaction == None && db.committed == old(db.committed)
    ensures call.signature.Some? && call.eventType.Some? && call.delivery.Some? && !call.signed ==>
              outcome == Failure(AuthError) && reaction == None && db.committed == old(db.committed)
    ensures Accepted(call) && call.delivery.value in old(db.committed).deliveries ==>
              outcome == Success(false) && reaction == None && db.committed == old(db.committed)
    ensures Accepted(call) && call.delivery.value !in old(db.committed).deliveries ==>
              var recorded := old(db.committed).(deliveries := old(db.committed).deliveries + {call.delivery.value});
              if parsed == None then
                outcome == Failure(BadRequest) && reaction == None && db.committed == recorded
              else
                && reaction == Asked(parsed.value, around).1
                && match Asked(parsed.value, around).0
                   case Failure(message) => outcome == Failure(HandlerError(message)) && db.committed == recorded
                   case Success(None) => outcome == Success(true) && db.committed == recorded
                   case Success(Some(request)) =>
                     outcome == Success(true) && db.committed == Enqueued(recorded, request, now)
    ensures Accepted(call) ==>
              db.committed == Delivered(old(db.committed), call.delivery.value, AskedFor(parsed, around), now)
  {
    hide Asked;
    reaction := None;
    if call.signature == None {
      return Failure(AuthError), None;
    }
    if call.eventType == None || call.delivery == None {
      return Failure(BadRequest), None;
    }
    if !call.signed {
      return Failure(AuthError), None;
    }
    var isNew := db.RecordDelivery(call.delivery.value);
    db.Commit();
    if !isNew {
      RecordingTwice(old(db.committed), call.delivery.value);
      return Success(false), None;
    }
    if parsed == None {
      return Failure(BadRequest), None;
    }
    var handled;
    handled, reaction := Handle(db, parsed.value, around, now);
    outcome := if handled.Success? then Success(true) else Failure(HandlerError(handled.error));
  }

  lemma RecordingTwice(tables: Tables, delivery: string)
    requires delivery in tables.deliveries
    ensures tables.(deliveries := tables.deliveries + {delivery}) == tables
  {
    assert tables.deliveries + {delivery} == tables.deliveries;
  }

  /** An undisturbed webhook call is a run of the protocol, and brings the same tables about. */
  lemma WebhookIsARun(s: System, delivery: string, asked: Option<ReviewRequest>, now: int) returns (steps: seq<Step>)
    requires s.up
    ensures IsRun(s, steps) && After(s, steps).tables == Delivered(s.tables, delivery, asked, now)
    ensures forall step :: step in steps ==>
              step in {Deliver(delivery, asked), Precheck(delivery), Step.Enqueue(delivery, now)}
  {
    var s1 := Next(s, Deliver(delivery, asked));
    if delivery in s.tables.deliveries || asked == None {
      steps := Safety.FirstStep(s, Deliver(delivery, asked), []);
    } else if asked.value.pr in s.tables.locks {
      steps := Safety.FirstStep(s1, Precheck(delivery), []);
      steps := Safety.FirstStep(s, Deliver(delivery, asked), steps);
    } else {
      var s2 := Next(s1, Precheck(delivery));
      steps := Safety.FirstStep(s2, Step.Enqueue(delivery, now), []);
      steps := Safety.FirstStep(s1, Precheck(delivery), steps);
      steps := Safety.FirstStep(s, Deliver(delivery, asked), steps);
    }
  }

  /** A comment that asks for a review is one the reviewer never shows the model. */
  lemma AskingCommentsStayOutOfPrompts(e: CommentEvent, around: Surroundings, author: string,
                                       comments: seq<Triggers.Comment>)
    requires AskedByComment(e, around).1.Some?
    ensures e.body.Some? && e.sender != around.botLogin
    ensures Triggers.Comment(author, e.body.value) !in Triggers.Conversation(around.word, around.botLogin, comments)
  {
    hide Triggers.ParseTrigger, Triggers.Conversation;
    ParsingNothing(around.word);
    var comment := Triggers.Comment(author, e.body.value);
    Triggers.ConversationIsWithoutTriggers(around.word, around.botLogin, comments);
    OnlyKept(comments, (c: Triggers.Comment) =>
      c.author != around.botLogin && Triggers.ParseTrigger(around.word, Some(c.body)) == None, comment);
  }

  lemma ParsingNothing(word: char -> bool)
    ensures Triggers.ParseTrigger(word, None) == None
  {
  }

  lemma {:induction false} OnlyKept(comments: seq<Triggers.Comment>, keep: Triggers.Comment -> bool,
                                    comment: Triggers.Comment)
    requires !keep(comment)
    ensures comment !in Triggers.Kept(comments, keep)
  {
    if comments != [] { OnlyKept(comments[1..], keep, comment); }
  }

  /** A new command on a pull request by somebody else than the bot. */
  ghost predicate Commands(e: CommentEvent, around: Surroundings) {
    && e.action == "created" && e.onPullRequest && e.sender != around.botLogin && e.body.Some?
    && exists i: nat :: i <= |e.body.value| && Triggers.CommandAt(around.word, e.body.value, i)
  }

  /**
   * Exactly which comments ask for which review. Only new commands on a pull request, where reviews are enabled, get a
   * reaction: eyes for those who may, -1 for the others. Eyes that GitHub takes are followed by the request, with the
   * head of the pull request and the command's extra context; a fetch or reaction that fails leaves the handler.
   */
  lemma CommentAsksIff(e: CommentEvent, around: Surroundings)
    ensures var (asked, reaction) := AskedByComment(e, around);
            var fetched := around.fetch(e.pr);
            && (!Commands(e, around) ==> asked == Success(None) && reaction == None)
            && (Commands(e, around) && fetched.Failure? ==> asked == Failure(fetched.error) && reaction == None)
            && (Commands(e, around) && fetched.Success? && !fetched.value.enabled ==>
                  asked == Success(None) && reaction == None)
            && (Commands(e, around) && fetched.Success? && fetched.value.enabled ==>
                  if fetched.value.authorized(e.sender, e.association) then
                    && reaction == Some("eyes")
                    && Triggers.ParseTrigger(around.word, e.body).Some?
                    && var context := Triggers.ParseTrigger(around.word, e.body).value.extraContext;
                       asked ==
                       if around.react("eyes").Failure? then Failure(around.react("eyes").error)
                       else
                         Success(Some(
                           ReviewRequest(e.installationId, e.pr, fetched.value.headSha, Comment, context)))
                  else
                    && reaction == Some("-1")
                    && asked ==
                       if around.react("-1").Failure? then Failure(around.react("-1").error) else Success(None))
  {
    hide Triggers.ParseTrigger, Triggers.CommandAt;
    ParsingNothing(around.word);
    if e.body.Some? { Triggers.TriggersIffCommandStands(around.word, e.body.value); }
  }
}

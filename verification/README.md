# vidi-pr, modelled and verified

vidi-pr is a service that reviews GitHub pull requests with a language model. A signed webhook delivery makes a
handler enqueue a review job and take a lock on the pull request; one worker claims the oldest pending job, runs the
reviewer, and closes the job, its ledger row and its lock in one transaction. The reviewer reads the repository's
config through a cache, packs the changed files into chunks, asks the model about each chunk, parses the answers into
four sections and posts the printed result. This project models that logic and proves what holds of it over every
input and every run.

`dafny verify dfyconfig.toml` checks everything.

| file | what it models |
|---|---|
| `Common.dfy` | optional values, results, the key of a pull request |
| `Storage.dfy` | the tables, the statements run against them, and a database session with commit and rollback |
| `Worker.dfy` | enqueueing, and the worker's claim, finalise and poll transactions |
| `Outcome.dfy` | posting a review with retries, and the result `Reviewer.run` returns |
| `Protocol.dfy` | the service as a transition system, its invariant, and that every step keeps it |
| `Safety.dfy`, `Queue.dfy` | what follows over whole runs: locks, recovery, histories, the ledger, deliveries, the order of service |
| `Webhook.dfy` | webhook checks, de-duplication, the guards of both handlers |
| `Cooldown.dfy` | the rate limit on failure comments |
| `Chunking.dfy`, `ChunkingBounds.dfy` | the packer and how good its packings are |
| `RepoConfig.dfy` | the trust-aware config loader on top of a TTL and ETag cache |
| `Text.dfy` | white space, `strip`, and a backtracking matcher for the constructs the service's patterns use |
| `Headings.dfy`, `Parsing.dfy` | the heading pattern, a scanner proved equal to it, the review parser |
| `Appended.dfy`, `RoundTrip.dfy` | the section printer and its round trip with the parser |
| `Triggers.dfy` | the two command patterns and the conversation filter |
| `Reviewer.dfy` | from changed files to prompts, model calls and the rendered review |

How the model stands to the code:

- SQLite has one writer, so the span from the first write of a session to its commit is one step. The two reads that come
  before such a span, the handler's of the lock and the worker's of the oldest pending job, are steps of their own and
  may be stale by the time of the write.
- The claim updates the job it has read without looking again. A job enqueued in between with an earlier stamp therefore
  comes too late for that claim; `Queue.SelectionIsFair` says when that has not happened, and the order theorems say what
  holds then and what holds in any case.
- Job rows are never deleted, so a job's id is its position in the table.
- `recover_on_startup` is written to run when the service starts, but `_serve` (src/vidi_pr/__main__.py:57-131) never
  calls it. The restart step therefore comes in both forms, and `Safety.InterruptedReviewBlocksItsPrUntilRecovery`
  states what the missing call costs.
- Each webhook event and each review builds a loader of its own (src/vidi_pr/orchestration/handlers.py:87-90,
  src/vidi_pr/pipeline/reviewer.py:285-288), so the five-minute cache never outlives one `load`. The cache theorems are
  about a loader used for any length of time.
- The comment above the trigger pattern says that the extra context is trailing text on the same line. The pattern
  lets `\s*` cross line ends: `Triggers.NextLineBecomesContext` gives inputs for which the comment is wrong, and
  `Triggers.ExtraContextIsOfItsLineIff` says for every body when it is right.
- The patterns are `Regex` values with the semantics of a backtracking matcher: all ways to match, in the order they are
  tried. What a word character is stays a parameter.
- The theorems about headings hold for any list of titles none of which starts another one and none of which holds white
  space or a hash; the four titles of the service are such a list.

## Model

| member | source | states |
|---|---|---|
| Storage.OldestPending | src/vidi_pr/storage/jobs.py:43-47 | the job returned is pending and precedes every other pending job in (created_at, id) order; none is returned only if none is pending |
| Storage.Database.AcquireLock | src/vidi_pr/storage/locks.py:9-16 | insert-if-absent: succeeds exactly when the pull request had no lock, and changes nothing else |
| Storage.Database.ReleaseLock | src/vidi_pr/storage/locks.py:19-21 | deletes by pull request, whoever owns the row |
| Storage.Database.ClearStaleLocks | src/vidi_pr/storage/locks.py:28-32 | deletes exactly the locks owned by a terminal job and returns how many |
| Storage.Database.RecoverOnStartup | src/vidi_pr/storage/recovery.py:16-33 | row by row: each running job is failed as interrupted, keeping an error it has, every other job stays as it was, exactly the locks of pending jobs remain, and the count is the number of jobs that were running |
| Worker.TryEnqueueReview | src/vidi_pr/orchestration/locks.py:10-47 | a lock seen by the pre-check changes nothing; otherwise the committed tables gain one pending job with no detail and no error, stamped now, and its lock, or, after the rollback, nothing at all |
| Worker.ClaimOne | src/vidi_pr/pipeline/worker.py:71-88 | the oldest pending job at the time of the read, and only it, becomes running, whatever is enqueued before the claim commits |
| Worker.Persist | src/vidi_pr/pipeline/worker.py:121-154 | status, ledger row and lock release in one commit; which comment follows it |
| Worker.FinalizeFailure | src/vidi_pr/pipeline/worker.py:156-183 | failed status and lock release in one commit, no ledger row |
| Worker.Process | src/vidi_pr/pipeline/worker.py:90-119 | the stored row for a timeout, an exception and a returned result, the ledger row, the released lock, and the exact failure comment, with enqueues committing while the reviewer runs |
| Worker.PollOnce | src/vidi_pr/pipeline/worker.py:49-57 | one round: its tables, and exactly which comment it asks for |
| Worker.PolledJobEndsAsItsRun | src/vidi_pr/pipeline/worker.py:62-142 | the job a round finds ends with the status, detail and error of its run, its lock is gone, the review it posted is in the ledger, and no other job that was there has changed |
| Worker.RunForever | src/vidi_pr/pipeline/worker.py:49-57 | after any number of polls, with enqueues committing before, inside and between the worker's transactions, the tables are the fold of the polls, and the comments asked for are those of the failed runs, in order |
| Worker.ArrivalsOnlyAppend | src/vidi_pr/orchestration/locks.py:32-47 | enqueues add pending jobs at the end and touch no job that is there |
| Worker.PollTakesOnePendingJob | src/vidi_pr/pipeline/worker.py:62-69 | a poll takes exactly one job off the pending ones if there is one when it reads, whatever is enqueued meanwhile, and leaves no new running job behind |
| Worker.PollingConservesJobs | src/vidi_pr/pipeline/worker.py:49-69 | over any polls and arrivals, the jobs pending at the end are those pending at the start and those that came, less one for each poll that found a job |
| Worker.PollingDrainsTheQueue | src/vidi_pr/pipeline/worker.py:49-69 | with no arrivals, n polls finish min(n, pending) jobs: the queue empties after as many polls as jobs were pending |
| Outcome.PostWithRetry | src/vidi_pr/pipeline/reviewer.py:465-483 | at most three attempts; only transient replies are retried; the reply returned is the last attempt's |
| Outcome.Run | src/vidi_pr/pipeline/reviewer.py:121-171 | by cases on the first reply that is not transient: the exact result, the review id and the number of attempts; three transient replies fail; only an unexpected exception leaves the run |
| Protocol.FinaliseKeepsLocksIffTerminal | src/vidi_pr/pipeline/worker.py:121-183 | the finalising transaction keeps locks and live jobs in step exactly when the status it writes is terminal |
| Protocol.StepKeepsInv | src/vidi_pr/orchestration/locks.py:28-47 | every step, of any handler, the worker, GitHub, a crash or a restart, keeps the invariant over all tables |
| Protocol.ReachableStatesAreSafe | src/vidi_pr/orchestration/locks.py:28-47 | the invariant holds after every run from the empty database |
| Safety.LockedIffLive | src/vidi_pr/storage/locks.py:9-25 | after every run, a pull request is locked exactly when it has a pending or running job, the lock names that job, and it has no second one |
| Safety.EnqueueIsDecidedAtTheWrite | src/vidi_pr/orchestration/locks.py:28-47 | however stale the pre-check, the enqueue adds a job with its lock if the pull request is free at the write, and leaves the tables as they were if not |
| Safety.LockLeavesWithItsOwner | src/vidi_pr/storage/locks.py:19-32 | in any step, a lock disappears only if its owner becomes terminal in that very step |
| Safety.FinaliseReleasesOnlyItsOwnLock | src/vidi_pr/pipeline/worker.py:121-173 | although the delete is keyed by pull request, finalising a job removes its own lock and no other |
| Safety.RecoveryAfterAnyCrash | src/vidi_pr/storage/recovery.py:16-33 | a crash in any reachable state followed by recovery restores the invariant with no running job: the running jobs are failed as interrupted, all others are untouched, and exactly the locks of pending jobs remain |
| Safety.RecoveryIsIdempotent | src/vidi_pr/storage/recovery.py:16-33 | recovering twice is recovering once |
| Safety.AtMostOneJobRuns | src/vidi_pr/pipeline/worker.py:71-119 | in runs that recover at every restart, at most one job is running: the one the worker holds |
| Safety.InterruptedReviewBlocksItsPrUntilRecovery | src/vidi_pr/__main__.py:57-131 | after a crash during a review, restarts without recovery leave the job running and the pull request locked for ever, so it gets no new job, whatever else happens |
| Safety.EveryHistoryIsPendingRunningTerminal | src/vidi_pr/storage/jobs.py:50-68 | over every run the statuses a job goes through are a prefix of pending, running, done or of pending, running, failed, though the update statement checks nothing |
| Safety.LedgerRowsAreRealReviews | src/vidi_pr/storage/reviews.py:8-29 | over every run each ledger row belongs to one done job of that pull request, no two rows to the same job, and its review id was accepted by GitHub for that job |
| Safety.FinaliseStoresTheOutcome | src/vidi_pr/pipeline/worker.py:90-154 | in every reachable state, the end of a run leaves the status, detail and error of a timeout, an exception or the returned result in its job's row, and changes no other row |
| Safety.FinaliseRecordsTheAcceptedReview | src/vidi_pr/pipeline/worker.py:121-142 | a run that came back with an accepted review adds exactly one row, with that id, its pull request, commit and chunk count |
| Safety.RecordedIffDeliveredAndReturned | src/vidi_pr/pipeline/worker.py:90-142 | over whole runs, a review GitHub accepts gets its ledger row exactly when its id reaches the run and the run comes back with a result; a lost reply, a timeout, an exception or a crash loses it |
| Safety.AcceptedReviewMayGoUnrecorded | src/vidi_pr/pipeline/worker.py:90-119 | a run from the empty database, for any pull request, in which GitHub accepts a review and no row is written |
| Safety.RedeliveryDoesNothing | src/vidi_pr/transport/webhook.py:73-86 | once a delivery id is recorded, delivering it again after any further run changes nothing |
| Safety.NoMoreJobsThanDeliveries | src/vidi_pr/orchestration/handlers.py:37-137 | over every run there are at most as many jobs as recorded delivery ids |
| Queue.SelectPicksTheFront | src/vidi_pr/pipeline/worker.py:73-82 | the worker's read picks a waiting job if nothing is ahead of it, and otherwise a job ahead of it |
| Queue.ClaimTakesTheSelected | src/vidi_pr/pipeline/worker.py:84-88 | the claim takes the job that was read, and no other, off those that wait |
| Queue.NewJobFindsFairSelection | src/vidi_pr/storage/jobs.py:8-36 | under a clock that does not go back, a job just enqueued finds no selection behind it |
| Queue.ClaimedInTurn | src/vidi_pr/pipeline/worker.py:62-88 | with n jobs ahead, no selection behind it and no arrival stamped earlier, a job waits exactly through the first n claims, over any run |
| Queue.TakenByItsTurn | src/vidi_pr/pipeline/worker.py:62-88 | the claim after those n is the one that takes the job |
| Queue.StaleSelectionCostsOneClaim | src/vidi_pr/pipeline/worker.py:71-88 | whatever the worker has read, a job waits through at most one claim more |
| Queue.EnqueuedJobIsTakenInTurn | src/vidi_pr/pipeline/worker.py:62-88 | under a clock that does not go back, a job enqueued in any reachable state waits through exactly as many claims as there were pending jobs |
| Queue.WaitingJobCanBeClaimedFor | src/vidi_pr/pipeline/worker.py:49-69 | while a job waits, a service that is up can always make the next claim, at the latest once the run in hand times out |
| Webhook.ProcessWebhook | src/vidi_pr/transport/webhook.py:43-95 | the exact outcome, reaction and tables of every case: missing or bad signature, missing header, known delivery, body that cannot be parsed, handler that fails, handler that succeeds; a new delivery is recorded in all the last three |
| Webhook.OnIssueComment | src/vidi_pr/orchestration/handlers.py:64-137 | which comments enqueue a review, with which request, which reaction they get, and that every other path leaves the tables alone |
| Webhook.CommentAsksIff | src/vidi_pr/orchestration/handlers.py:64-137 | exactly which comments ask for which review, down to the commit and the extra context, which get eyes, -1 or no reaction, and which failures leave the handler |
| Webhook.Handle | src/vidi_pr/orchestration/handlers.py:37-62 | a pull request event enqueues exactly when it was opened or made ready, is no draft and its lock is free: one pending automatic job for its head, and its lock |
| Webhook.WebhookIsARun | src/vidi_pr/transport/webhook.py:73-86 | an undisturbed call is a run of the transition system with the same final tables |
| Webhook.AskingCommentsStayOutOfPrompts | src/vidi_pr/pipeline/fetcher.py:37-41 | a comment that gets a reaction from the handler is in no conversation given to the model, and is not the bot's |
| Cooldown.FailureCooldowns.ClaimFailureSlot | src/vidi_pr/storage/failures.py:13-50 | granted exactly when the last grant for the pull request is at least the cooldown old; a grant stores the time, a refusal changes nothing |
| Cooldown.FailureCooldowns.MaybePostFailureComment | src/vidi_pr/pipeline/failure.py:12-55 | posts only in a granted slot, and keeps the slot even when the post fails |
| Cooldown.GrantsAreSpaced | src/vidi_pr/storage/failures.py:28-50 | over any sequence of claims, under any clock, consecutive grants of a pull request are at least the cooldown apart, and the table holds the last one |
| Cooldown.GrantedIffAllGrantsAreOld | src/vidi_pr/storage/failures.py:28-50 | a claim is granted exactly when every earlier grant of the pull request is old enough |
| Cooldown.CommentsPerWindow | src/vidi_pr/pipeline/failure.py:29-55 | n grants inside a window of length W satisfy (n - 1) * cooldown <= W |
| Cooldown.OtherPullRequestsDoNotMatter | src/vidi_pr/storage/failures.py:28-50 | the grants of a pull request are those it would get if it were the only one |
| Chunking.LargestFirstSorts | src/vidi_pr/pipeline/chunking.py:37 | the order the files are tried in is a permutation, largest first, stable among equal sizes |
| Chunking.PackIsWellPacked | src/vidi_pr/pipeline/chunking.py:43-70 | placed and skipped files are the input as a multiset; no cap is exceeded; no chunk is empty; a file stands in the first chunk with room; each skipped file is oversized, or the file cap is reached, or all chunks are open and none has room at the end |
| Chunking.PackChunks | src/vidi_pr/pipeline/chunking.py:21-78 | on the patch texts: chunks and skipped files are the input as a multiset; chunks are numbered 1 to total, hold their files by falling patch length and at most the cap of characters; a file stands in the first chunk with room; a skipped file, listed by name, is too long, or the file cap is reached, or all chunks are open and none has room |
| ChunkingBounds.PackingIsMaximal | src/vidi_pr/pipeline/chunking.py:43-70 | every skipped file has one of the three reasons, judged on the final chunks |
| ChunkingBounds.AtMostThreeHalvesOfAnyPacking | src/vidi_pr/pipeline/chunking.py:37-70 | if nothing is skipped, the chunks number at most 3/2 of those of any other packing of the same files |
| ChunkingBounds.NothingIsSkippedWhenTwoThirdsSuffice | src/vidi_pr/pipeline/chunking.py:37-70 | if every file fits, there are not too many, and some packing needs at most 2/3 of the chunk cap, nothing is skipped |
| ChunkingBounds.TwoChunksWouldDoButAFileIsSkipped | src/vidi_pr/pipeline/chunking.py:37-70 | the bound is tight: two files of size L and four of size S, with L + 2S <= cap < 2L + S and 2L <= cap < 4S, fit two chunks, while the packer opens a third or, allowed two, skips a file |
| ChunkingBounds.TightSizesExistIff | src/vidi_pr/pipeline/chunking.py:37-70 | such sizes exist exactly for the caps 7, 10, 11 and all from 13 on |
| ChunkingBounds.TwoChunksOverflow | src/vidi_pr/pipeline/chunking.py:53-68 | any two chunks together exceed the size cap |
| ChunkingBounds.ChunksAreMoreThanHalfFull | src/vidi_pr/pipeline/chunking.py:53-68 | with two chunks or more, the chunks are more than half full on average, also when files were skipped |
| RepoConfig.RepoConfigLoader.CachedFetch | src/vidi_pr/config/repo.py:213-233 | an entry younger than five minutes is served without a request; otherwise its tag goes with the request, and a 304, a 404, a body and an exception each leave the value and cache stated |
| RepoConfig.RepoConfigLoader.Load | src/vidi_pr/config/repo.py:151-166 | the trust rules: no config on the default branch allows owners only; the base ref's config wins exactly when it is another ref that the default branch's config lists and it has one; the context file is read on the ref that won |
| RepoConfig.LoadedFollowsTrustRules | src/vidi_pr/config/repo.py:151-245 | the function that the theorems about loads are stated on follows those rules |
| RepoConfig.UnlistedBaseIsNotAsked | src/vidi_pr/config/repo.py:160-164 | a base ref that the default branch does not list is never asked about: no answers for it change the load |
| RepoConfig.RepoConfigLoader.ResolveProjectContext | src/vidi_pr/config/repo.py:187-211 | the named context file replaces the inline context exactly when it is found with content; an exception of its fetch leaves the load |
| RepoConfig.EveryFetchIsRecent | src/vidi_pr/config/repo.py:213-233 | over any history of origin changes and fetches, the value returned is what the origin held at some instant less than the TTL ago |
| RepoConfig.NotModifiedNeedsTagAndContent | src/vidi_pr/config/repo.py:224-226 | an origin that honours If-None-Match (section 13.1.2 of RFC 9110) answers 304 only for an entry holding both a tag and content, and the tag is current |
| RepoConfig.LoadIsRecent | src/vidi_pr/config/repo.py:151-211 | a load equals the loader without cache on contents each of which the origin held within the TTL |
| RepoConfig.CacheIsInvisibleOnAnUnchangingOrigin | src/vidi_pr/config/repo.py:151-233 | while the origin does not change, a load equals the loader without cache |
| RepoConfig.LoadReadsNothingElse | src/vidi_pr/config/repo.py:151-233 | with any fetchers and caches, two worlds that agree on the default-branch config, on the base-ref config if the default branch lists that ref, and on the context file on the chosen ref give the same result |
| RepoConfig.NoFurtherRefIsRead | src/vidi_pr/config/repo.py:151-211 | answers for any ref but the default branch, and the base ref if the default branch lists it, are irrelevant whatever the configs list |
| RepoConfig.TrustIsNotTransitive | src/vidi_pr/config/repo.py:156-166 | another trust list in the base ref's config changes that list in the result of the load and nothing else, neither the rest of the result nor the cache |
| Text.WhiteSpaceIs | src/vidi_pr/pipeline/parsing.py:7 | the 29 code points that `\s` matches and `strip` removes |
| Text.StripIsUnique | src/vidi_pr/pipeline/parsing.py:36 | `strip` returns the one trimmed text between blank ends |
| Headings.ScannerIsPattern | src/vidi_pr/pipeline/parsing.py:7 | at every position of every text, the scanner finds a heading exactly when the pattern matches, with the same end and the same group, although white space may cross line ends and `\s*$` backtracks |
| Headings.TitleStandsThere | src/vidi_pr/pipeline/parsing.py:33 | the title reported for a heading is the text of group 1 |
| Parsing.HeadingStandsIff | src/vidi_pr/pipeline/parsing.py:7 | a heading stands at a position exactly when a line starts there with two hashes, white space, a title, white space and the end of a line |
| Parsing.MatchesAreAllHeadings | src/vidi_pr/pipeline/parsing.py:21 | the successive matches are exactly the positions where a heading stands: none overlaps another, none is missed |
| Parsing.BlocksTile | src/vidi_pr/pipeline/parsing.py:32-36 | from the first heading on, headings and bodies make up the text with no gap and no overlap |
| Parsing.SectionIsLastBody | src/vidi_pr/pipeline/parsing.py:32-36 | a section is the trimmed body of the last heading with its title, and empty without one |
| Parsing.ParseReviewOutput | src/vidi_pr/pipeline/parsing.py:10-45 | the raw text is the input, the parse fails exactly when no heading stands anywhere, and the four fields are the sections |
| RoundTrip.RenderSections | src/vidi_pr/pipeline/reviewer.py:418-427 | the loop prints the sections that are not empty, in the fixed order |
| RoundTrip.PrintedIs | src/vidi_pr/pipeline/reviewer.py:418-427 | the printed text, written out: Summary, Findings, Suggestions, Positives, each heading with its body, blank lines between, empty ones left out |
| RoundTrip.RoundTripIffTrimmedAndHeadingFree | src/vidi_pr/pipeline/reviewer.py:418-427 | for all four bodies: printing and parsing gives them back exactly when each is trimmed and no heading stands in it at the start of a line |
| RoundTrip.ReparsingIsStableIff | src/vidi_pr/pipeline/parsing.py:10-45 | for every text: printing what was parsed and parsing it again changes nothing exactly when no section opens with a heading |
| RoundTrip.IndentedHeadingEscapes | src/vidi_pr/pipeline/parsing.py:36 | a text for which it does change: an indented heading that opens a body |
| Triggers.TriggerIffFetcherFinds | src/vidi_pr/orchestration/triggers.py:9-29 | for every body: a command is parsed exactly when the fetcher's own pattern is found; the extra context is the first line with ink behind the command, trimmed |
| Triggers.ExtraContextIsOfItsLineIff | src/vidi_pr/orchestration/triggers.py:6-12 | the extra context is the trailing text on the command's own line, as documented, exactly when that line goes on with text or nothing but white space follows the command; otherwise it comes from a later line |
| Triggers.NextLineBecomesContext | src/vidi_pr/orchestration/triggers.py:9-29 | a bare command followed by a line of text takes that line as extra context, though its own line has none |
| Triggers.TriggersIffCommandStands | src/vidi_pr/orchestration/triggers.py:9-12 | a body triggers exactly when some line starts with the mention, white space, and the word `review`, in any case |
| Triggers.SameLetterIs | src/vidi_pr/orchestration/triggers.py:9-12 | a letter of the command matches in both cases, i also as its dotted capital and dotless small form, any other character only as itself |
| Triggers.AnyCaseTriggers | src/vidi_pr/orchestration/triggers.py:9-29 | any mixture of cases of the command triggers a review |
| Triggers.FetcherPatternFindsCommands | src/vidi_pr/pipeline/fetcher.py:12 | position by position, the fetcher's pattern matches exactly such commands, in one way, up to the end of the word `review` |
| Triggers.ConversationIsWithoutTriggers | src/vidi_pr/pipeline/fetcher.py:36-42 | the conversation is, in order, the comments of others that do not trigger a review |
| Reviewer.FilterKeepsEligible | src/vidi_pr/pipeline/reviewer.py:389-394 | every copy of a file with a patch and not ignored is kept, every other dropped |
| Reviewer.NoChunksIff | src/vidi_pr/pipeline/reviewer.py:226-239 | no chunk is opened exactly when a cap is not positive or every file is oversized |
| Reviewer.PackingCovers | src/vidi_pr/pipeline/reviewer.py:211-239 | each eligible file is in exactly one chunk prompt or among the skipped files, no other file is in either, and there is no chunk exactly when nothing eligible fits |
| Reviewer.RunChunks | src/vidi_pr/pipeline/reviewer.py:295-352 | one call per chunk, in order, each answer parsed; the first call that fails is the last one made |
| Reviewer.MaybeSynthesize | src/vidi_pr/pipeline/reviewer.py:354-386 | a single output stands for itself without a call; otherwise one call is given all raw outputs, and its answer is parsed |
| Reviewer.RenderReviewBody | src/vidi_pr/pipeline/reviewer.py:397-440 | a body within the length limit is the printed sections or the quoted raw text, the list of skipped names under its heading, and the footer |
| Reviewer.SkippedNamesArePosted | src/vidi_pr/pipeline/reviewer.py:429-431 | each skipped name has a line of its own in the posted body, under the heading that announces it |
| Reviewer.Truncated | src/vidi_pr/pipeline/reviewer.py:457-462 | a body within the limit stays whole; a longer one is cut to exactly the limit and ends with the note |
| Reviewer.Prepare | src/vidi_pr/pipeline/reviewer.py:173-281 | the exact result of each case, from the fetches on; a rendered body accounts for every eligible file, took one call per chunk, numbered in order, and one more on the answers if there were several, and shows the review parsed from the last answer |
| Reviewer.PostedSectionsParseBackIff | src/vidi_pr/pipeline/reviewer.py:255-267 | end to end: the posted body opens with printed sections that parse back to the sections of the model's last answer exactly when none of these opens with a heading |
| Reviewer.RunJob | src/vidi_pr/pipeline/reviewer.py:121-281 | prepare and post together: early results and exceptions come back as they are and post nothing; a rendered body ends by the first reply that is not transient; any result is terminal, with a review id exactly when a post was accepted |

## Left out

- HTTP, the GitHub and model clients, FastAPI, Alembic, JWT, signature checking and logging: their outcomes are parameters.
- YAML parsing, schema validation and gitignore matching are uninterpreted functions.
- `created_at` and the failure cooldown keep integer time; `updated_at`, `locked_at`, `posted_at`, token counts, durations, back-off and jitter are not modelled.
- `increment_job_attempts` and the `attempts` column, which the worker does not use.
- Two workers: the service starts one, and the claim has no guard against a second.
- Database errors inside a transaction: a transaction commits whole or, on a lost lock race, rolls back whole.
- The wording of the footer and of the quoted raw text of a failed parse: both are parameters of the rendered body.
- Prompt wording, templates, language notes and `render_template`: each prompt keeps its chunk or the raw outputs it is built from.
- `is_authorized` is a parameter of the comment handler; one reading of its body settles it.
- The dry-run inspector; `Prepare` has its `skip_draft_check` switch.
- Which fetch of `prepare` raises, beyond the three results it depends on: draft state, config, files.
- Characters beyond the ones `\s` and `str.strip` agree on are taken at face value; case folding covers ASCII letters and the two non-ASCII forms of `i`.

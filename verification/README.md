# Verified model of the moderation system

A Dafny 4.11 model of an image-moderation service and proofs about it. Uploads are hashed to an idempotency key, stored, committed as a content row with a job, and queued; workers score them and write one decision per job in one transaction; doubtful decisions wait for a human reviewer, who claims a review under a Redis lock and resolves it; dead letters can be redriven. `dafny verify dfyconfig.toml` checks everything.

## How the model is laid out

| part | files | form |
|---|---|---|
| review claims | `ReviewClaims`, `ReviewDesk`, `ReviewDeskRuns`, `ReviewInterleaving`, `ReviewSafety`, `ReviewRefinement`, `ReviewOrder`, `Metrics` | a class with the handlers run one at a time, proved against functions on desk values, and whole runs of those functions; then a machine in which every Redis command and every SQL statement is its own step; then the proof that an undisturbed handler of the machine does what the desk does; which reviews are urgent and shown first |
| jobs | `JobMachine`, `IdempotentIngest`, `ExactlyOnce`, `NoLostWork`, `JobStatusSoundness`, `AttemptAccounting`, `JobRecords`, `IngestAnswers`, `JobHandlers`, `SerialRuns`, `HandlerOutcomes` | one machine with every statement, transaction and queue call as a step, invariants over it, a class with the handlers statement by statement, proofs that each handler call is a run of the machine, and what each leaves behind column by column |
| redrive | `Redrive`, `RedrivePrediction`, `RedrivePlans`, `RedriveRuns` | the command as a class with its two loops, runs as traces, what moves and what stays told by message, configuration and row, dry run against real run, and the whole real run as a run of the job machine |
| decisions | `Vision`, `RulesClassifier`, `Thresholds`, `DecisionPipeline`, `CaptionOutcomes` | step-by-step methods against closed formulas, order and independence theorems, and the table of outcomes in the caption's own words |
| limiter and key | `RateLimit`, `RateLimitRuns`, `Hashing`, `Text` | counters over runs with key expiry; a right-to-left parser for the hashed bytes, and exactly who shares a key |

`Domain` holds the shared vocabulary. Machines are functions on states: an event carries every choice of the environment (which row a SELECT returned, whether a call failed, when time passes), and an event that is not enabled changes nothing, so "every run" is "every sequence of events". Parts of a state that only record the past (`sends`, `responses`, `marks`, `history`, `acquired`, ...) are read by no step.

## Assumptions

- One clock that never runs backwards. A review handler reads it once; in the interleaved models its reading may be stale, never in the future. Each statement of the metrics summary has its own `now()` and its own view of the table.
- Each SQL statement, each `conn.transaction()` block and each Redis command is atomic; a commit that raises was rolled back. For the expiry sweep this is stronger than READ COMMITTED gives: its CTE reads the expired rows and its UPDATE joins on the id alone, so a resolution or a renewed claim committed between the two would be overwritten. `ResolvedIsFrozen`, `SingleResolution` and `NoEarlyTakeover` rest on this assumption.
- A Redis key is live while t < expiry. A claim in the table is released when expiry < t.
- UUIDs are fresh: identifiers come from a counter. SHA-256 is any function without collisions (`SameKeyIff`, `KeyIdentifies`); elsewhere the digest is the key itself.
- Scores are reals. Rounding to four decimals is the identity on every score the rules can produce.
- A failed enqueue delivered nothing. The queue may deliver any message ever sent again, moves a message to the dead-letter queue after three receives, and a visibility timeout may lapse at any moment. The 120-second ingest lock may lapse at any moment.
- A dead letter that the redrive command has deleted is not received again by the same run; one it skipped may be.
- The read after a unique violation in `accept_image` runs inside a failed transaction: it returns the row or raises.
- `str.lower` and the regular expressions are parameters, as are PIL's statistics; substring search, `split`, `strip` and UTF-8 (section 3 of RFC 3629) are modelled.
- Requests satisfy the API's schemas: reviewers are not empty, a reviewer's decision is ALLOW or BLOCK.

## What the code does not do

- The exact agreement of Redis lock and table row (`LockMirrorsRow`) holds of handlers that run one after the other. Interleaved, a live lock can stand beside a pending row and a resolution that passed the Redis check is refused by the update (`LockWithoutRow`). In every interleaving that happens exactly when the last change of the row is not a claim by the same reviewer (`ResolveRefusedIff`), and a claim's update refuses exactly when the row is settled or somebody else's claim had not ended at the handler's clock reading (`ClaimRefusedIff`).
- README.md:67 of the repository says expired claims return to pending. At the very instant of expiry they do not: the lock is dead, `is_claim_expired` says expired, the SQL says not yet (`PythonDisagreesIff`), and until the next instant only the previous holder can claim (`ClaimSucceedsIff`).
- The metrics summary takes its two review counts at two moments, each from its own view of the table. A review can be in neither count, in both, or be settled and still counted; the sum is the number of open reviews exactly when those missed are as many as the other two kinds together (`CountsOffExactly`). With the table at rest between the two, what is missed is exactly the claims that end between them (`CountsMissExactly`).
- `processing`, `failed` and `dead` are written without looking at the decisions, so two workers on one job can leave a decided job at `processing` with nothing queued (`OverlapStrandsStatus`). "Succeeded iff decided" holds of a job after a run if and only if no worker of it started an attempt or wrote a failure while it was already decided (`NoBlindWrite` in `SucceededExactIff`); such a write is never repaired. A guard on the decision in those two updates is what is missing. Workers that do not overlap on a job never write so (`SucceededIffDecided`).
- `mark_failed` writes a verdict from a counter it read earlier. "Dead means exhausted, failed means not" holds throughout a run if and only if no verdict is written after the counter has moved to the other side (`AlwaysFairIff`). It happens: `StaleVerdictHappens` is one upload delivered three times that ends at `failed` with three of three attempts used.
- The p95 latency is interpolated between two recorded ones, so fewer than 95 percent of the latencies can lie at or below it. At least 95 percent do exactly when their number leaves a remainder of 0 or 1 by 20 or the two neighbours are equal (`Covers95Iff`).
- The hash preimage is ambiguous. Under one policy two uploads share a key exactly when they agree in image and stripped caption, or one is the other with the front of its caption, up to a NUL, moved behind a zero octet into its image (`SameKeyIff`). So an upload shares its key with a different one exactly when what follows some NUL of its caption is itself a stripped caption, or its image ends in a zero octet and a text that could have stood in front of the caption (`SharesKeyIff`). A NUL in the caption is neither enough (`NulMayBeHarmless`) nor needed: the second upload of `NulCollides` has none. `SamePreimageIff` says the same across policies. If neither upload has a NUL in caption or policy, the key does identify them (`KeyIdentifies`).
- A confident BLOCK suggestion is weakened to FLAG when the vision scores rise into the flag band; this is the only case in which more risk means a milder verdict (`SeverityDropsIff`). It happens: a caption that matches a block pattern is blocked while its image can be read and flagged once it cannot (`SeverityDropsOnRealInput`).
- A dry run of the redrive command can announce more resets than will happen: for messages without a row, for repeated messages of one job, and with `--skip-db` for every move. `DryRunPredicts` says exactly when the counts agree, `TwoLettersOneReset` shows them differ for any two letters of any dead or failed job. With a database, a job id that the driver cannot read as a uuid ends the run before its plan can say `invalid_job_id`.

## Model

| member | source | states |
|---|---|---|
| ReviewClaims.SweepReleasesExactly | apps/api/app/review_claims.py:11-26 | a sweep clears exactly the claims without an end or with one strictly before now, touches no other row, and leaves no expired claim |
| ReviewClaims.SweepIsIdempotent | apps/api/app/review_claims.py:11-26 | a second sweep, at the same or an earlier time, changes nothing |
| ReviewClaims.SweepIsAbsorbed | apps/api/app/review_claims.py:65-91 | a later sweep gives the same table whether or not an earlier one ran |
| ReviewClaims.PythonDisagreesIff | apps/api/app/review_claims.py:33-62 | the Python predicate and the SQL clause differ exactly on a claimed row at now = claim_expires_at; a claim is active iff its end is still to come, and then never swept |
| Metrics.CountsAgreeWithSweep | apps/api/app/routes/metrics.py:15-32 | each reported count is the plain status count a sweep at the moment of its own reading would leave |
| Metrics.SweepConservesOpenWork | apps/api/app/review_claims.py:11-26 | a sweep moves reviews between pending and claimed and out of neither; the counts of one moment see every open review |
| Metrics.CountsOffExactly | apps/api/app/routes/metrics.py:15-32 | for any two readings: the sum of the two counts differs from the open reviews by those missed, those counted twice and those settled since; it is right iff the missed ones balance the others |
| Metrics.CountsMissExactly | apps/api/app/routes/metrics.py:15-32 | with the table at rest between the two readings the counts miss exactly the claims that end between them, so the sum is right iff there are none |
| Metrics.SummaryIgnoresSweep | apps/api/app/routes/metrics.py:13-77 | the whole summary is the same whether or not dead claims were swept at any time before the readings |
| Metrics.TotalsAddUp | apps/api/app/routes/metrics.py:36-76 | the three verdict counts partition the total, auto-resolved decisions are among them, and the rounded rate is a proportion within 0.00005 of the exact one |
| Metrics.CountsTell | apps/api/app/routes/metrics.py:33-76 | every count of the summary as a number of rows: open jobs, each verdict, decisions without review, decisions of the last minute; no p95 iff no decision of the last day |
| Metrics.RoundsToNearest | apps/api/app/routes/metrics.py:74-74 | the rate is rounded to the nearest four decimals, halves to the even last digit |
| Metrics.PercentileInRange | apps/api/app/routes/metrics.py:47-53 | the percentile is reported iff some decision is younger than a day, is taken over exactly those decisions' latencies in order, and lies between the least and the greatest |
| Metrics.PercentileDivides | apps/api/app/routes/metrics.py:47-53 | of n latencies more than 0.95 (n - 1) lie at or below the reported value and at least 0.05 (n - 1) at or above it |
| Metrics.Covers95Iff | apps/api/app/routes/metrics.py:47-53 | at least 95 percent lie at or below it iff n leaves 0 or 1 by 20 or the two neighbouring latencies are equal |
| Metrics.PercentileOfLine | apps/api/app/routes/metrics.py:47-53 | on evenly spaced latencies the value lies 0.95 of the way |
| ReviewDesk.Handlers.AcquireReviewClaim | apps/api/app/redis_client.py:43-64 | succeeds iff the key is free or the caller's; then the key is the caller's for a full TTL, otherwise the owner is reported and nothing changes |
| ReviewDesk.Handlers.ReleaseReviewClaim | apps/api/app/redis_client.py:67-73 | deletes the key iff the caller owns it |
| ReviewDesk.Handlers.ReleaseExpiredClaims | apps/api/app/review_claims.py:65-91 | releases every expired claim, logs each once with its holder in the order the database chose, and returns the same list |
| ReviewDesk.Handlers.ClaimReview | apps/api/app/routes/review.py:96-170 | the reply and the whole new desk: lock, sweep, row and log entry on success; lock given back on failure; nothing at all when another owns the lock |
| ReviewDesk.Handlers.ResolveReview | apps/api/app/routes/review.py:173-271 | the checks in their order, and on success the frozen row, the log entry and the deleted lock |
| ReviewDesk.Handlers.ListReviews | apps/api/app/routes/review.py:57-93 | sweeps, then shows the rows of the asked status as the sweep left them: as many as limit and matches allow, by priority and age (newest first without a status), and nothing left out precedes anything shown |
| ReviewDesk.PageTells | apps/api/app/routes/review.py:64-93 | a listing shows rows of the asked status only, never more than the limit, and all of them when they are fewer |
| ReviewOrder.ReviewTellsDecision | apps/worker/worker/pipeline.py:39-44 | after every run each review row belongs to a decision that needs a human, with priority 10 for BLOCK, else 20 below confidence 0.6, else 50 |
| ReviewOrder.UrgencyOrder | apps/worker/worker/pipeline.py:39-44 | after every run a BLOCK is listed before all else, a doubtful verdict before a confident one, and falling confidence never makes a review wait longer |
| ReviewOrder.QueueShowsUrgentFirst | apps/api/app/routes/review.py:65-79 | a listing by status shows the most urgent reviews first, the oldest of them before the others, and leaves none out in favour of a less urgent or younger one |
| ReviewOrder.HistoryShowsNewestFirst | apps/api/app/routes/review.py:80-92 | a listing of all shows the newest first and leaves none out in favour of an older one |
| ReviewDeskRuns.LockMirrorsRow | apps/api/app/routes/review.py:96-148 | after every run: a live lock of r expiring at t exists iff the row is claimed by r until t and t has not come |
| ReviewDeskRuns.RowsTell | apps/api/app/routes/review.py:177-238 | after every run: approved iff ALLOW, rejected iff BLOCK, a claim ends 15 minutes after it began, a resolution is by the claim's holder; each logged resolution says the same |
| ReviewDeskRuns.ResolveReplies | apps/api/app/routes/review.py:173-271 | after every run: which reply a resolution gets, read off row, notes and clock alone, and everything it writes |
| ReviewDeskRuns.ClaimReplies | apps/api/app/routes/review.py:96-170 | after every run: which reply a claim gets, read off row and clock alone, and everything it writes |
| ReviewDeskRuns.ResolveSucceedsIff | apps/api/app/routes/review.py:180-238 | after every run, resolving succeeds iff the caller's unexpired claim is on the row and an override carries three characters of notes; "not found" and "must be claimed" cannot follow the Redis check |
| ReviewDeskRuns.ClaimSucceedsIff | apps/api/app/routes/review.py:96-160 | after every run, claiming succeeds iff the row is pending, the caller's own, or expired strictly before now |
| ReviewDeskRuns.ExpiredClauseIsDead | apps/api/app/routes/review.py:110-132 | right after the sweep the update's "claimed but expired" clause never decides |
| ReviewDeskRuns.AuditRebuildsRows | apps/api/app/routes/review.py:161-169 | after every run the audit log alone rebuilds every row's status, holder, verdict, notes and resolver, and every entry is lawful where it stands |
| ReviewDeskRuns.ResolutionIsFinal | apps/api/app/routes/review.py:240-256 | after a resolution the log never mentions the review again |
| ReviewDeskRuns.HandoverIsLogged | apps/api/app/review_claims.py:76-90 | between claims of one review by two people the log shows the first one's claim expiring |
| ReviewInterleaving.RunKeeps | apps/api/app/routes/review.py:96-271 | in every interleaving each row is its history replayed, every change lawful; locks and stored expiries never outlive the last acquisition by more than the TTL |
| ReviewSafety.SingleResolution | apps/api/app/routes/review.py:177-238 | in every interleaving a review is resolved at most once, by the last claimer with no release in between; status, notes, resolver and verdict agree and an override carries notes |
| ReviewSafety.RowsTell | apps/api/app/routes/review.py:177-238 | in every interleaving: approved iff ALLOW, rejected iff BLOCK, a claim ends 15 minutes after it began, a resolution is by the claim's holder |
| ReviewSafety.ResolvedIsFrozen | apps/api/app/routes/review.py:214-238 | a resolved row never changes again, no row's model decision changes, no history is rewritten |
| ReviewSafety.NoEarlyTakeover | apps/api/app/routes/review.py:99-132 | no step takes a claim from its holder before the stored expiry has passed on the real clock, stale readings included |
| ReviewSafety.NoStranding | apps/api/app/redis_client.py:43-64 | from any reachable state, once the last acquisition's TTL is over, anybody's uncontended claim of an open review succeeds within four of its own steps |
| ReviewSafety.ResolveRefusedIff | apps/api/app/routes/review.py:214-238 | in every interleaving, the update of a resolution past all checks refuses iff the row's last change is not a claim by the same reviewer; otherwise it resolves |
| ReviewSafety.ClaimRefusedIff | apps/api/app/routes/review.py:99-148 | in every interleaving, the update of a claim refuses iff the review is missing, settled, or another's claim had not ended at the handler's reading; otherwise it claims |
| ReviewSafety.LockWithoutRow | apps/api/app/routes/review.py:180-238 | a run after which a live lock stands beside a pending row and a resolution past the Redis check is refused |
| ReviewRefinement.ClaimAlone | apps/api/app/routes/review.py:96-148 | a claim whose commands nobody interrupts leaves table, locks and clock as the one-at-a-time handler does, on every path |
| ReviewRefinement.ResolveAlone | apps/api/app/routes/review.py:173-270 | the same for a resolution, refusals included |
| ReviewRefinement.ListAlone | apps/api/app/routes/review.py:57-63 | the same for a listing's sweep |
| IdempotentIngest.IngestIsIdempotent | apps/api/app/ingest_service.py:48-193 | for every run and hash: at most one content row and one job, paired; every answer names that job; at most one message is sent by the API and at most one answer says new, with status queued |
| IngestAnswers.AnswersTell | apps/api/app/ingest_service.py:48-84 | every step that answers an upload tells a repeated one the status its job has in the table just read, and a new one queued |
| IngestAnswers.RepeatIsToldSucceeded | apps/api/app/ingest_service.py:58-66 | in every run an upload whose job has succeeded is answered with that job and succeeded |
| IngestAnswers.LockKeepsApart | apps/api/app/redis_client.py:33-36 | while the ingest lock of a hash does not lapse, at most one handler is past it and no commit of that hash meets existing rows |
| ExactlyOnce.EffectsExactlyOnce | apps/worker/worker/pipeline.py:58-150 | for every run: one decision per job; created entries, metrics events (automatic iff no review) and reviews (iff needed, with ids and priority) mirror the decisions one to one, field by field; every returned envelope is the stored one |
| ExactlyOnce.DecisionsAreFinal | apps/worker/worker/pipeline.py:68-91 | a stored decision stays unchanged and in place however the run goes on |
| NoLostWork.NoWorkIsLost | apps/worker/worker/main.py:133-163 | for every run: a committed job without a message in either queue has a decision, a recorded validation failure, a recorded send failure, or its ingest handler is still sending (or died there) |
| NoLostWork.SucceededHasDecision | apps/worker/worker/pipeline.py:93-99 | for every run: succeeded implies a decision exists |
| JobRecords.RecordsTell | infra/localstack-init.sh:14-14 | for every run: every dead letter counts three receives and no message more; failed and dead jobs show an error, queued and succeeded ones none; each job is logged once when queued, with its hash |
| JobStatusSoundness.ExactnessStep | apps/worker/worker/pipeline.py:190-197 | a step loses "succeeded iff decided" iff it starts an attempt or writes a failure on a decided job, and no step regains it |
| JobStatusSoundness.SucceededExactIff | apps/worker/worker/pipeline.py:190-197 | for every run: a job is succeeded iff decided, if and only if no such write happened in the run |
| JobStatusSoundness.SucceededStaysIff | apps/worker/worker/main.py:46-52 | for every run: a succeeded job is still succeeded later if and only if no such write happened in between |
| JobStatusSoundness.SucceededIffDecided | apps/worker/worker/main.py:73-76 | while no two workers hold one job: succeeded iff decided |
| JobStatusSoundness.SucceededIsAbsorbing | apps/worker/worker/pipeline.py:190-197 | while no two workers hold one job: succeeded is never left |
| JobStatusSoundness.OverlapStrandsStatus | apps/worker/worker/main.py:73-78 | a run with two overlapping workers that ends idle with a decided job at processing |
| AttemptAccounting.AttemptsCountStarts | apps/worker/worker/pipeline.py:190-197 | for every run: attempts is the number of processing starts since creation or the last reset |
| AttemptAccounting.AlwaysFairIff | apps/worker/worker/main.py:42-52 | for every run: dead always means exhausted and failed always means not, if and only if no verdict is written against the current counter |
| AttemptAccounting.StaleVerdictHappens | apps/worker/worker/main.py:42-52 | a run that ends at failed with attempts = max_attempts = 3, so that neither side of AlwaysFairIff holds of it |
| AttemptAccounting.DeadMeansExhausted | apps/worker/worker/main.py:42-52 | while no two handlers hold one job: dead implies attempts >= max_attempts, failed implies attempts < max_attempts |
| JobHandlers.Platform.PersistEnvelope | apps/worker/worker/pipeline.py:53-150 | all effects of a new decision or none, and the stored envelope returned |
| JobHandlers.Platform.InsertDecision | apps/worker/worker/pipeline.py:93-148 | succeeded status, decision, audit, metrics and (iff needed) review written together |
| JobHandlers.Platform.ProcessJob | apps/worker/worker/pipeline.py:153-269 | returns the stored envelope without touching anything when decided; otherwise counts the attempt and stores or raises |
| JobHandlers.Platform.MarkFailed | apps/worker/worker/main.py:42-61 | dead or failed by the attempt counter, with one audit entry; nothing without a row |
| JobHandlers.Platform.HandleMessage | apps/worker/worker/main.py:64-102 | skips succeeded jobs; every failure is recorded and raised again |
| JobHandlers.Platform.PollOnce | apps/worker/worker/main.py:133-163 | deletes the message on success and on validation failure, leaves it otherwise |
| JobHandlers.Platform.AcceptImage | apps/api/app/ingest_service.py:27-193 | the checks in their order change nothing when they refuse; otherwise the outcome is that of the key of body, stripped caption and policy |
| JobHandlers.Platform.AcceptDigest | apps/api/app/ingest_service.py:48-193 | known hash, lost lock, or a new upload, with the whole new state and the answer's status |
| JobHandlers.Platform.StoreImage | apps/api/app/ingest_service.py:88-193 | from any tables: storage failure, lost race, or committed rows and what follows |
| JobHandlers.Platform.ReadWinner | apps/api/app/ingest_service.py:151-166 | after a lost race the winner's row answers when the read returns one, otherwise the request is refused |
| JobHandlers.Platform.Enqueue | apps/api/app/ingest_service.py:168-193 | one message and a "new" answer, or a failed job and a refusal |
| SerialRuns.DeliveredIsRun | apps/worker/worker/main.py:133-163 | one pass of the poll loop is a run of the interleaved machine |
| SerialRuns.AcceptedIsRun | apps/api/app/ingest_service.py:45-193 | one call of accept_image is a run of the interleaved machine |
| SerialRuns.StoringRuns | apps/api/app/ingest_service.py:88-193 | the part under the lock is a run of the interleaved machine from any state, lost races included |
| SerialRuns.DeliveryKeepsEverything | apps/worker/worker/main.py:133-163 | a delivery keeps every invariant, and a message it deletes belongs to a settled job |
| SerialRuns.UploadKeepsEverything | apps/api/app/ingest_service.py:45-193 | an upload keeps every invariant |
| HandlerOutcomes.DeliveryOutcomes | apps/worker/worker/main.py:64-163 | after every run: what one delivery leaves in each column and queue, for settled jobs, decisions, rejections and exceptions |
| HandlerOutcomes.RaisedIsRecorded | apps/worker/worker/main.py:73-102 | an exception anywhere inside process_job marks the job failed or dead by its counter, logs it, and leaves the message |
| HandlerOutcomes.UploadOutcomes | apps/api/app/ingest_service.py:48-193 | what one upload answers and leaves: known hash, held lock, no storage, lost race, new rows with or without a message |
| HandlerOutcomes.WaitsTwentyPolls | apps/api/app/ingest_service.py:69-86 | an upload that lost the lock asks twenty times and then gives up |
| Redrive.Redriver.ResetJobForRedrive | scripts/redrive.py:155-181 | resets and logs the job iff its row is dead or failed |
| Redrive.Redriver.Forward | scripts/redrive.py:286-315 | reset if due, then the message sent and the letter deleted, whatever the reset did |
| Redrive.Redriver.Consume | scripts/redrive.py:247-316 | one message: raised, skipped with its reason, counted by a dry run, or moved |
| Redrive.Redriver.ConsumeBatch | scripts/redrive.py:247-316 | one receive, message by message, up to the one that raises |
| Redrive.Redriver.Redrive | scripts/redrive.py:184-323 | whatever the queue offers at each receive, the run is a lawful trace over what it took, moved + skipped accounts for all of it, and it stops only at the limit, at an empty answer or at an exception |
| Redrive.DrainsUpToLimit | scripts/redrive.py:229-248 | while each receive brings something, a run takes all that waits, up to the limit |
| Redrive.OneReceive | scripts/redrive.py:233-246 | one receive takes the least of ten, the limit, what waits and what is offered |
| RedrivePlans.ParseReads | scripts/redrive.py:60-85 | the job id and the hash are the body's field, or the attribute when that is empty, and nothing else is read |
| RedrivePlans.HandledTells | scripts/redrive.py:88-119 | exactly which letter ends the run, moves or stays, told by body, job id, filter and row; each reason to stay has its own iff |
| RedrivePlans.MoveTells | scripts/redrive.py:107-116 | a reset is announced iff the job has no known row or is dead or failed |
| RedrivePlans.RealRunLeaves | scripts/redrive.py:228-316 | a real run moves exactly those letters before the one the database refuses, in order, with their content; resets exactly the dead or failed jobs they name, each counted and logged; and changes nothing else |
| RedrivePlans.FilterIsObeyed | scripts/redrive.py:104-105 | with a job id given, every message sent names that job, and every other letter and row stays as it was |
| RedrivePrediction.RealRunDoes | scripts/redrive.py:228-316 | a real run sends exactly the planned messages in order, removes exactly those from the dead-letter queue, and revives exactly the dead or failed jobs they name, each counted once |
| RedrivePrediction.MessagesAreConserved | scripts/redrive.py:290-316 | what leaves one queue arrives in the other: the total is unchanged |
| RedrivePrediction.MovedReadsTheSame | scripts/redrive.py:60-85 | a moved message that dies again is read as before, and the same plan applies to it |
| RedrivePrediction.DryRunPredicts | scripts/redrive.py:88-119 | dry and real run stop at the same place and move and skip the same messages for the same reasons; the dry reset count is an upper bound, met iff every announced reset is the first for an existing dead or failed job |
| RedrivePrediction.TwoLettersOneReset | scripts/redrive.py:280-289 | any two letters of any one dead or failed job, under any configuration that moves them: two resets announced, one done |
| RedrivePrediction.SkippingDbResetsNothing | scripts/redrive.py:254-289 | with --skip-db nothing is reset while the dry run announces one reset per move |
| RedriveRuns.HandledIsRun | scripts/redrive.py:247-316 | one message of a real run is a run of the job machine: same job rows, same audit log, same move between the queues |
| RedriveRuns.RedriveIsRun | scripts/redrive.py:228-316 | a whole real run is a run of the machine: its job rows and audit log, the moved letters gone from the dead-letter queue and each on the main queue as sent, nothing else touched; so it keeps every invariant |
| Vision.Analyze | apps/worker/worker/adapters/vision.py:58-136 | scores, labels and OCR text equal closed formulas of the pixel statistics and the caption's cues |
| Vision.PixelCues | apps/worker/worker/adapters/vision.py:65-84 | darkness outranks warm tones; brightness and contrast only label |
| Vision.WordCues | apps/worker/worker/adapters/vision.py:105-118 | safe words cap both scores after risky words have raised them |
| Vision.CaptionCues | apps/worker/worker/adapters/vision.py:105-126 | forcing words override everything before them |
| RulesClassifier.Classify | apps/worker/worker/adapters/llm.py:39-115 | the first block pattern, else the first flag pattern, else the fused score, with the pattern that fired |
| DecisionPipeline.Decide | apps/worker/worker/pipeline.py:212-257 | verdict, confidence, review flag and quoted reasons of the whole path |
| DecisionPipeline.IgnoresPixelsIff | apps/worker/worker/pipeline.py:212-236 | the outcome for readable images ignores the pixels iff no band separates the violence scores pixels can produce |
| CaptionOutcomes.ReadableOutcome | apps/worker/worker/pipeline.py:212-257 | under the default bands, for every caption of a readable image: the verdict, the review and the confidence, in the caption's words and patterns |
| CaptionOutcomes.AllowedIff | apps/worker/worker/pipeline.py:212-257 | exactly when a readable image is allowed without review |
| CaptionOutcomes.CueIsBlocked | apps/worker/worker/adapters/vision.py:105-118 | an explicit or violent word that no safe word excuses always blocks |
| CaptionOutcomes.UnreadableOutcome | apps/worker/worker/adapters/vision.py:85-96 | scores, verdict, review and confidence of every unreadable image under the default bands |
| CaptionOutcomes.SuggestionTells | apps/worker/worker/adapters/llm.py:39-115 | the classifier's verdict and score for every readable image, by words and patterns |
| CaptionOutcomes.RationaleTells | apps/worker/worker/adapters/llm.py:39-115 | and its rationale |
| CaptionOutcomes.ScoresTell | apps/worker/worker/adapters/vision.py:65-126 | both scores of every readable image, by pixels and words |
| CaptionOutcomes.LabelsTell | apps/worker/worker/adapters/vision.py:65-126 | behind its size, a readable image has a label iff it has what the label names, and no other |
| CaptionOutcomes.OcrTells | apps/worker/worker/adapters/vision.py:98-103 | the text read is what stands behind the first "ocr:", stripped and cut to 500 characters |
| CaptionOutcomes.QuotedTells | apps/worker/worker/pipeline.py:238-241 | the reasons are the router's, the classifier's, and the first five labels, in this order |
| DecisionPipeline.DefaultIgnoresPixels | packages/moderation_shared/src/moderation_shared/thresholds.py:21-27 | under the default bands the outcome for readable images depends on the caption alone |
| DecisionPipeline.UnreadableIsFlaggedIff | apps/worker/worker/adapters/vision.py:85-96 | for all bands, exactly when an unreadable image is flagged; flagged means reviewed |
| DecisionPipeline.UnreadableIsFlagged | apps/worker/worker/adapters/vision.py:85-96 | under the default bands an unreadable image is always FLAG with review |
| DecisionPipeline.UnreadableSoftensBlock | packages/moderation_shared/src/moderation_shared/thresholds.py:85-93 | a cueless caption matching a block pattern is blocked while the image can be read and flagged once it cannot, though both scores are higher |
| DecisionPipeline.SeverityDropsOnRealInput | apps/worker/worker/adapters/llm.py:13-17 | the caption "kys" is such a caption |
| DecisionPipeline.ForcedIsBlockedIff | apps/worker/worker/adapters/vision.py:120-126 | for all bands, exactly when a forcing word on a readable image ends in BLOCK; otherwise it is FLAG with review |
| DecisionPipeline.ForcedIsBlocked | apps/worker/worker/adapters/vision.py:120-126 | under the default bands a forcing word on a readable image always ends in BLOCK |
| Thresholds.SeverityDropsIff | packages/moderation_shared/src/moderation_shared/thresholds.py:78-103 | higher scores lower the severity iff a confident BLOCK suggestion enters the flag band, for all bands |
| Thresholds.SeverityIsMonotone | packages/moderation_shared/src/moderation_shared/thresholds.py:78-103 | severity is monotone in both scores for ALLOW and FLAG suggestions |
| Thresholds.ConfidenceNeverAddsReview | packages/moderation_shared/src/moderation_shared/thresholds.py:81-103 | more confidence never adds a review and never changes an unreviewed verdict |
| Thresholds.UnreviewedIff | packages/moderation_shared/src/moderation_shared/thresholds.py:75-103 | exactly when no human sees the verdict; FLAG always implies review |
| Thresholds.VerdictIff | packages/moderation_shared/src/moderation_shared/thresholds.py:62-103 | exactly when each verdict comes out, for all bands |
| Thresholds.ReasonsTell | packages/moderation_shared/src/moderation_shared/thresholds.py:62-103 | each routing reason is listed iff its rule decided, and every review has a reason |
| Thresholds.DefaultBands | packages/moderation_shared/src/moderation_shared/thresholds.py:21-27 | verdict and review under the default bands, in numbers |
| Hashing.ContentHash | apps/api/app/hashing.py:6-14 | the key is the digest of image, zero, stripped caption, zero, policy |
| Hashing.ParseRecoversIff | apps/api/app/hashing.py:6-14 | reading the hashed bytes from the right recovers the three parts iff caption and policy contain no NUL, for arbitrary image bytes |
| Hashing.KeyIdentifies | apps/api/app/hashing.py:6-14 | without NUL and collisions, equal keys mean equal image, stripped caption and policy |
| Hashing.SameBytesIff | apps/api/app/hashing.py:9-11 | image, zero and text give the same bytes as another pair iff they are equal or one has the front of its text, up to a NUL, moved into its image |
| Hashing.SameKeyIff | apps/api/app/hashing.py:6-14 | without collisions, two uploads under one policy share a key iff they agree in image and stripped caption or one is shifted so from the other |
| Hashing.SamePreimageIff | apps/api/app/hashing.py:6-14 | the same for two policies, with caption and policy read as one text |
| Hashing.SharesKeyIff | apps/api/app/hashing.py:6-14 | exactly which uploads share the hashed bytes with a different one of the same policy |
| Hashing.NulMayBeHarmless | apps/api/app/hashing.py:6-14 | a caption with a NUL that shares its bytes with no other upload, for every image without zero octets |
| Hashing.NulCollides | apps/api/app/hashing.py:6-14 | for every image and policy, two different uploads with one key, the second without any NUL |
| Hashing.ExtraStripIsHarmless | apps/api/app/ingest_service.py:45-46 | stripping the caption before hashing does not change the key |
| Hashing.ZeroOnlyFromNul | apps/api/app/hashing.py:11-13 | the zero octet appears in UTF-8 text iff NUL appears in it |
| RateLimit.NormalizeIsIdempotentIff | apps/api/app/rate_limit.py:25-32 | for any configured default: when the result is valid, and when normalising it again changes nothing |
| RateLimit.NormalizeIsIdempotent | apps/api/app/rate_limit.py:12-32 | under the built-in default the result is valid and normalising it again changes nothing |
| RateLimit.KeysNeverCollide | apps/api/app/rate_limit.py:72-74 | two (tenant, bucket) pairs never share a key, for arbitrary tenant names |
| RateLimit.ValidTenantIff | apps/api/app/rate_limit.py:11-11 | a tenant id is one letter or digit and up to 63 letters, digits, dots, underscores and hyphens |
| RateLimit.RetryLandsInNextBucket | apps/api/app/rate_limit.py:53-66 | retry_after is between 1 and W and lands exactly in the next bucket, no shorter wait does |
| RateLimit.RateLimiter.CheckTenantRateLimit | apps/api/app/rate_limit.py:77-98 | the counter store after INCR and the first request's EXPIRE, and the decision from the new count |
| RateLimitRuns.CallIsRun | apps/api/app/rate_limit.py:87-98 | one undisturbed call of the limiter is a run of the machine with the same store and the same decision |
| RateLimitRuns.WindowAdmitsFirst | apps/api/app/rate_limit.py:77-98 | over every run, with EXPIRE late, repeated or missing, a tenant gets min(limit, requests) admissions per aligned window |
| RateLimitRuns.DecisionTells | apps/api/app/rate_limit.py:35-69 | in every run a decision counts the window's requests so far; remaining is what is left of the limit; reset_at is the end of the window |
| RateLimitRuns.RemainingAreLeft | apps/api/app/rate_limit.py:53-69 | however the run goes on, of the window's further requests exactly the first remaining ones are admitted |
| RateLimitRuns.KeysExpire | apps/api/app/rate_limit.py:88-92 | a key with an expiry is gone one window length later at the latest |
| RateLimitRuns.KeyLastsItsWindow | apps/api/app/rate_limit.py:88-92 | the running window's counter is the number of requests in it: its key never expires early |
| RateLimitRuns.AnyWindowAdmitsTwice | apps/api/app/rate_limit.py:77-98 | any stretch of one window's length sees at most twice the limit |

## Left out

- `poll_pubsub`, the AWS, GCP and OpenAI adapters, object storage, signed URLs, boto3 and Pub/Sub clients: foreign calls; `poll_pubsub` acknowledges by the same rule as `poll_sqs`.
- apps/api/app/url_fetch.py: rests on DNS, `ipaddress` and `urllib`.
- Telemetry, Prometheus export, dashboard, FastAPI wiring, configuration, JSON and pydantic: an envelope is taken to survive storage; the queue's message bodies are taken to parse.
- `validate`: one-branch tests; a failed validation is the worker event `Rejected`.
- Audit queries.
- `route_decision`'s policy version label and the backward-compatible aliases of `ThresholdConfig`.
- The statuses `escalated` and unknown job statuses: nothing writes the first, a CHECK constraint excludes the second.
- An API process that dies between commit and enqueue: no code recovers the job. The model records it as `orphaned` and `NoWorkIsLost` names the case.
- The audit inserts of the review handlers are steps of `ReviewDesk` only; `ReviewInterleaving` keeps a row history instead, and a handler's last SELECT is not a step of its own.
- The redrive command's queue provider check, database connection failure, printed warnings and content id; `--limit` is any integer.
- The sleeping between polls of a concurrent ingest, and time in the job machine altogether: the lock and the visibility timeout may lapse at any step.

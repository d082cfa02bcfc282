# LeadFlow verification model

A Dafny model of LeadFlow's durable send protocol, its lead ingestion and its access tokens, with
proofs of what they keep. `dafny verify dfyconfig.toml` checks everything.

## What is modelled

**The send protocol.** A campaign's generated emails become rows of a database-backed queue. Workers
claim rows under a lease, consult a policy gate, ask a provider to send, and write the outcome, all in
one transaction; a maintenance process reaps lost leases, resets rate counters and purges old rows;
the API starts and pauses campaigns. It is modelled at two granularities.

* *Transactions* (`World`): the committed database, a non-decreasing clock and a ledger of what a
  rollback cannot undo. A worker transaction commits whole, or is lost, before or after
  `provider.send`; then the database is as before and a message the provider took stays taken. A run
  is any sequence of possible steps: executions, losses, claims whose worker dies, starts, pauses,
  maintenance passes with any memory, enrichment of a lead, generation of an email, replies,
  suppressions, bounces, account changes. What the outside world decides (clock readings, the row and
  the account a query returns, rows locked by others, whether credentials decrypt, the provider's
  answer, and whether the provider took the message, which a lost answer does not tell) is an argument
  of the step and ranges over everything possible.
* *Queue operations* (`QueueLeases`, `EnrichmentWorker`): enqueue, claim, complete, fail and reap as
  separate atomic steps of any number of workers, refined to an abstract lease table (`Leases`).

Code that updates rows in place is a class whose methods work on a `Session` (a private copy of the
tables, committed to `Database` or dropped). Each method's postcondition gives the whole new state as
a function (`JobRows`, `QueueSpec`, `PolicySpec`, `WorkerSpec`, `MaintenanceSpec`), and the theorems
about runs are proved of those functions. What the functions themselves answer is stated apart from
them, on the rows before and after and with the numbers the source gives: `GateRules` for the policy
gate, `Outcomes` for a whole execution of the worker.

**Lead ingestion.** Header mapping and row reading of CSV files, the validator with its in-place batch
loop, and the import loop whose queries cannot see its own pending inserts.

**Access tokens.** Base64url with stripped and restored padding (RFC 4648, section 5), the compact form
(RFC 7515, section 3.1 and appendix C) and expiry (RFC 7519, section 4.1.4).

## Where the code and its documentation disagree

The model follows the code.

* `README.md:25` promises that network timeouts and workers killed in mid-flight never duplicate an
  email; `docs/FINAL_PRODUCTION_READINESS_REPORT.md:18` and `docs/DISASTER_RECOVERY.md:88-93` repeat the
  second half. Both fail (`Counterexamples.LostAnswerDuplicates`, `Counterexamples.LostWorkerDuplicates`)
  and can fail in every reachable state (`Resends`). `MailRuns.AtMostOnceIff` says exactly of which runs
  they hold, and `SendRuns.NeverAlreadySent` shows that the branch meant to keep them
  (`workers/campaign_worker.py:174-187`) is never taken: the message id it looks for is lost with the
  rollback or with the answer.
* `docs/DATABASE_SCHEMA.md:255-264` wants outreach to unsubscribed prospects prevented indefinitely. The
  suppression list does that; an opt-out that is only in the lead's status is overwritten by
  enrichment, generation and later replies (`Counterexamples.UnsubscribedIsContacted`). Generation is
  called only for leads selected while NEW or ENRICHED (`modules/ai_engine/generator.py:150-152`), so it
  reaches an opted-out lead only when the opt-out comes in between; enrichment needs no race. No code
  writes the list, although `docs/EMAIL_IDEMPOTENCY.md:109` says bounces do.
* `docs/HLD.md:230` says that a crashed worker leaves its job PROCESSING until the lease runs out. The
  claim is rolled back with its transaction, so the job is claimable at once, and no committed row is
  ever PROCESSING (`Scheduling.CrashLeavesNoneProcessing`). The other run theorems allow the documented
  behaviour as well: `World.Abandon` is a committed claim whose worker dies.
* `docs/EMAIL_IDEMPOTENCY.md:87-89` gives a job that fails for a passing reason three attempts, so that
  outages drop no campaign. Every postponement by a counter or by pacing uses up an attempt as well:
  `OutcomeRuns.PassingFailureEndsIff` says exactly when a passing failure is the end, and
  `Counterexamples.FirstFailureEnds` is a run in which it is the first failure of the job.
* `docs/LLD.md:86` doubles the first delay already (15s * 2^attempt); the code waits 15 seconds before the
  first retry (`JobRows.FirstRetryWaits`). `docs/HLD.md:206` and `docs/EMAIL_IDEMPOTENCY.md:79` speak of
  300 seconds; a full hour counter postpones by 600, a rate-limited request is an ordinary retry
  (`Outcomes.WhenJobsComeBack`).
* `docs/EMAIL_IDEMPOTENCY.md:97` and `:108-110` have an execution flag its account as unhealthy, mark a
  record BOUNCED, extend the suppression list and count a bounce. It writes none of that
  (`Outcomes.AccountsWritten`, `Outcomes.RecordsWritten`, `Outcomes.LeadAndCampaignWritten`).
* The daily limit (`PROJECT_REPORT.md:130`) is none per calendar day, because the gate and the maintenance
  process both start the count again. Right after a pass with resets the gate opens again
  (`CalendarDays.PassReopensGate`), but one maintenance process adds only one limit a day
  (`CalendarDays.TwiceTheLimitPerDay`), and every restart of it at most another one
  (`CalendarDays.SendsPerDay`). The hourly counters are not reset in an hour that comes a whole number of
  days after the last one the process saw (`ResetMemory.HourMissedIff`).
* The idempotency key prevents a second row only while the first one is stored. After the retention
  purge the same key enqueues again (`QueueSpec.PurgeForgetsKey`); that no record is sent again
  rests on `start_campaign` taking PENDING records only.
* The alias "e-mail" of the address column can never match, because dashes are replaced first
  (`CsvColumns.EmailColumnFoundIff`).
* Validating a batch again does not always return it unchanged, because titling a name is not
  idempotent: U+01F0 followed by "a", or U+1FB7 alone, is printed differently the second time
  (`TextCase.TitleNotIdempotent`). `LeadValidator.RevalidationIff` says exactly when the batch is
  unchanged, and `LeadValidator.AsciiRevalidationIsIdentity` that ASCII names always are. The case
  tables are a parameter with three laws, which the tables of Python satisfy: no character is dropped,
  the forms of a character that is no space do not begin or end with one, and ASCII is lowered as usual
  and nothing else is lowered to an ASCII capital.
* Enrichment jobs are PENDING by default, a status the worker never claims
  (`EnrichmentWorker.PendingIsNeverClaimed`).
* A token lifetime of zero falls back to the default, and an `exp` of 0 never expires
  (`AccessToken.CreatedTokenLifetime`).

## Model

| member | source | states |
|---|---|---|
| MailRuns.BoundedDuplicates | workers/campaign_worker.py:65-224 | over every run, with purges and repeated starts, the messages a provider took for one record are the ones whose worker was lost before the commit, plus the ones whose answer was lost and committed as a failure, plus one more exactly if the record is SENT or failed on a success answer without an id; all but the lost workers' are at most max_attempts |
| MailRuns.AtMostOnceIff | README.md:25 | "never duplicate" holds of a run iff no worker and no answer is lost after a taking, or a single one is and the record got no success answer |
| Resends.LostWorkerThenResent | workers/campaign_worker.py:65-66 | in every reachable state, wherever a provider takes a message and the worker is lost before the commit, a second execution of the job can follow that the provider takes too |
| Resends.LostAnswerThenResent | modules/email_sender/provider_interface.py:231-238 | in every reachable state, wherever a provider takes a message, the answer is lost and an attempt is left, the retry the worker commits can be taken too |
| Counterexamples.LostWorkerDuplicates | database/database.py:63-74 | a run from a fresh production database in which a provider takes one record twice around a lost worker |
| Counterexamples.LostAnswerDuplicates | modules/email_sender/provider_interface.py:231-238 | the same with a dropped connection and no worker lost |
| MailRuns.RunBooks | database/database.py:63-74 | the ledger, which no rollback touches, counts exactly the takings, lost workers, lost answers and nameless answers of the run |
| SendRuns.AuditTrail | core/queue.py:145-170 | at every point of every run a job's audit rows have strictly increasing numbers, only transient failures before the last, a last success iff SENT and a last permanent failure iff FAILED, and attempt_count = rows + the run's postponements + its lost leases of the job + the execution in progress |
| SendRuns.RecordAndJobInLockstep | core/queue.py:54-79 | in every reachable state a record is PENDING iff it never had a job, QUEUED iff its job is unfinished, SENT (with a message id) iff its job, stored or purged, is SENT, FAILED iff it is FAILED |
| SendRuns.BoundedEffort | core/queue.py:237-255 | over any run a job has at most max(1, max_attempts) audit rows and at most 15 * (2^(max_attempts-1) - 1) seconds of retry delay |
| SendRuns.OneJobPerRecord | api/routes.py:475-483 | however often campaigns are started, two rows for one record, stored or purged, are the same row, never both stored and purged, with the record's own organization, campaign and lead |
| SendRuns.DispatchStaysInTenant | workers/campaign_worker.py:98-107 | in every reachable state a dispatch leaves from an account of the record's own organization |
| SendRuns.RunKeepsInv | workers/campaign_worker.py:68-224 | every step of every run keeps lockstep, delivery accounting, audit trail and key integrity of all records |
| SendRuns.RunKeepsTexts | core/queue.py:51-58 | throughout every run looking a row up by its printed key finds the row of the same four ids and no other |
| SendRuns.NeverAlreadySent | workers/campaign_worker.py:174-187 | in no reachable state does an execution take the "already transmitted" branch |
| Outcomes.HowJobsEnd | workers/campaign_worker.py:85-224 | for every execution of a claimed job, read off the database and the inputs: it ends FAILED iff a reference is missing, the credentials do not decrypt, the suppression or bounce rule bars it, the provider fails for good, or it fails for now (nothing to send from in production, or a provider that says so) with no attempt left; RETRY_WAIT iff it fails for now with one left; QUEUED iff a counter or pacing holds it back; SENT iff it is clear and accepted or was sent before |
| Outcomes.WhenJobsComeBack | core/queue.py:238-242 | a retry is due 15 * 2^(n-1) seconds after attempt n >= 1 ends; a held-back job is QUEUED for d seconds after the end of the execution iff rules 1 to 4 pass and the rule that holds it back asks for exactly d |
| Outcomes.WhatIsAudited | core/queue.py:145-170 | one audit row with number, worker, outcome and message id unless the job was held back; lease cleared, attempt counted |
| Outcomes.RecordsWritten | core/queue.py:188-194 | the record becomes SENT with its id and time on success, FAILED with its job, and is untouched while the job can come back; no other record is written |
| Outcomes.LeadAndCampaignWritten | core/queue.py:196-205 | on success the lead is EMAILED and total_sent grows by one; otherwise the campaign is PAUSED iff the bounce rule is the first to refuse, and nothing else changes |
| Outcomes.AccountsWritten | services/sending_policy.py:114-169 | the account gets the day rollover iff rules 1 to 4 passed, and one send iff the provider accepted with an id; health and credentials are never written |
| Outcomes.OtherJobsKept | core/queue.py:277-298 | every other job is unchanged unless its lease had run out, and then QUEUED again |
| OutcomeRuns.FailedHasCause | workers/campaign_worker.py:85-224 | in every run a FAILED job, stored or purged, has an execution in that run that met one of the permanent causes or failed for now with no attempt left; no full counter, pacing, pause, lost lease or crash fails a job |
| OutcomeRuns.PassingFailureEndsIff | core/queue.py:237-255 | in every reachable state a passing failure ends the job iff this attempt, its audit rows, its postponements and its lost leases in the run make three |
| Counterexamples.FirstFailureEnds | workers/campaign_worker.py:149-161 | a run from a fresh production database in which a job held back twice is FAILED by its first failure, a passing one |
| OutcomeRuns.StartMakesClaimable | api/routes.py:457-484 | in every reachable state, after a start of the campaign each of its PENDING records has a job that can be claimed from the second commit on, and not before |
| OutcomeRuns.GeneratedIsClaimable | modules/ai_engine/generator.py:111-126 | in every reachable state a generated email makes its lead EMAIL_GENERATED, writes one new record and nothing else, and its job can be claimed from the next start of its campaign on |
| OutcomeRuns.DispatchReachesOwnLead | modules/ai_engine/generator.py:111-122 | if records are for leads of their own organization at the start, no dispatch of any run reaches a lead of another one, generated records included |
| RemainingWork.RunUsesWork | workers/campaign_worker.py:68-224 | over any run the committed executions that are not postponed number at most the work that was in the queue plus four per record enqueued, less the work still left |
| RemainingWork.ExecutionUsesWork | workers/campaign_worker.py:68-224 | each of them strictly lowers the sum over unfinished jobs of 1 + max(0, max_attempts - attempt_count); a postponement never raises it |
| Scheduling.BoundedBypass | core/queue.py:103-119 | while a due job waits (queued, to be retried, or held by a lost lease), the committed executions that could claim it (nobody has its row locked, its campaign is active) plus the jobs still ahead of it never exceed the jobs that were ahead of it, whatever is enqueued, retried, postponed, reaped, purged, locked or paused meanwhile |
| Scheduling.ClaimedInTime | core/queue.py:103-119 | so a run with more such executions than jobs ahead of it contains a step that claims it |
| Scheduling.MaintenanceInvisibleToClaims | workers/maintenance_worker.py:57-86 | a maintenance pass changes neither which claims are possible at any later time nor the row they produce |
| Scheduling.RunKeepsProcessingDue | core/queue.py:103-119 | in every reachable state a PROCESSING job's scheduled time has passed |
| Scheduling.CrashLeavesNoneProcessing | workers/campaign_worker.py:65-66 | in every run whose claims commit only with their outcome, with any number of crashed workers, no committed row is ever PROCESSING |
| Scheduling.AbandonedComesBack | core/queue.py:103-141 | a committed claim whose worker dies hides the job for exactly 60 seconds, reaped or not |
| SendRates.CountersCountSends | services/sending_policy.py:114-136 | in every reachable state both counters of an account equal the number of sends the run recorded for it since their last reset, stay within the limits, and its sends are spaced |
| SendRates.RunBooks | services/sending_policy.py:159-169 | the ledger's log of an account is exactly the sends and resets among the events of the run |
| SendRates.WindowsBounded | workers/maintenance_worker.py:88-111 | any stretch of a run whose events reset the day k times and the hour h times, by the gate or by maintenance, records at most k+1 daily and at most h+1 hourly limits of sends |
| SendRates.SendsArePaced | services/sending_policy.py:138-151 | over whole runs consecutive recorded sends of an account are MIN_DELAY_SECONDS apart, and T microseconds hold at most T / MIN_DELAY + 1 of them |
| SendRates.PostponedJobPassesPacing | workers/campaign_worker.py:154-159 | a job held back by the pacing rule is QUEUED again, and at any point of any following run that records no send of its account, that rule lets it pass from its new time on |
| CalendarDays.SendsPerDay | workers/maintenance_worker.py:101-109 | the executions and passes of one calendar day record at most one daily limit of sends more than there were daily resets by maintenance, whatever the gate resets |
| CalendarDays.TwiceTheLimitPerDay | workers/maintenance_worker.py:101-109 | with a single maintenance process that is at most twice the limit |
| CalendarDays.PassReopensGate | workers/maintenance_worker.py:92-109 | a job held back by a full counter alone is let through right after a pass that resets both counters, on the same day |
| ResetMemory.ResetsIff | workers/maintenance_worker.py:88-111 | of the passes of one process, exactly the first one and those in another hour of the day reset the hourly counters, exactly the first one and those on another day the daily ones |
| ResetMemory.HourMissedIff | workers/maintenance_worker.py:96-99 | a later hour is taken for the same one iff it is a whole number of days later, and then the daily counters are reset alone |
| ResetMemory.OneResetPerDay | workers/maintenance_worker.py:101-109 | one process resets the daily counters at most once per calendar day |
| Suppression.ListedIsForever | services/sending_policy.py:83-91 | in production, once the suppression list names a lead's address, no step of any run contacts it for that organization, whatever enrichment, generation and replies do |
| Suppression.OptOutSurvivesIff | services/sending_policy.py:77-82 | in production an opt-out in the lead's status lasts through a run iff no enrichment, generation or later reply writes that lead, and while it lasts nobody contacts the lead |
| Suppression.EnrichReopensIff | modules/lead_enrichment/enricher.py:37-79 | after one enrichment of an opted-out lead the execution refused before is dispatched iff every other rule of the gate is satisfied |
| Counterexamples.UnsubscribedIsContacted | modules/lead_enrichment/enricher.py:37-79 | from a fresh production database whose lead has unsubscribed, a run that enqueues its record, enriches it and contacts it |
| Suppression.BlockedContactIff | workers/campaign_worker.py:109-140 | a job for a suppressed lead is dispatched iff the settings are not production, the organization has no account to consult the gate about, and the record is not already sent |
| CampaignRuns.PausedUntilStarted | core/queue.py:103-119 | a campaign that is not active stays so, and none of its jobs is claimed, until it is started again |
| CampaignRuns.PauseStopsCampaign | api/routes.py:494-508 | after a pause the campaign is PAUSED, and none of its jobs is claimed in any run until it is started again |
| CampaignRuns.BreakerGuardsDispatch | services/sending_policy.py:101-112 | a production dispatch with 20 or more sent had 100 * bounces <= limit * sent; a tripped breaker pauses the campaign |
| CampaignRuns.BreakerStopsCampaign | workers/campaign_worker.py:149-152 | after the breaker trips, no job of the campaign is claimed in any run until the campaign is started again |
| CampaignRuns.TotalSentConserved | core/queue.py:202-205 | at every point of every run total_sent is the number of the campaign's SENT jobs, purged ones included |
| Leases.LeasesExclude | core/queue.py:96-141 | for any lease table, two takings of one row with no finish between them have disjoint validity intervals |
| QueueLeases.OperationRefinesLease | core/queue.py:96-141 | every queue operation is the corresponding event of a lease table; no claim succeeds while a lease is live |
| QueueLeases.ClaimsExclude | core/queue.py:103-140 | over runs of any number of workers, two claims of a job without a completion or failure between them never overlap, and PROCESSING means exactly that both lease fields are set |
| EnrichmentWorker.OperationRefinesLease | workers/enrichment_worker.py:57-88 | the same refinement for enrichment jobs |
| EnrichmentWorker.ClaimsExclude | workers/enrichment_worker.py:57-88 | the same exclusion for enrichment jobs |
| EnrichmentWorker.StatusTellsVerdict | workers/enrichment_worker.py:106-128 | in every run a job is SENT iff its last execution ended well and FAILED iff it ended badly |
| EnrichmentWorker.PassedOverByOlder | workers/enrichment_worker.py:57-76 | a waiting job nobody has locked is passed over for an older one only |
| EnrichmentWorker.ClaimHidesRow | workers/enrichment_worker.py:52-84 | a claim hides the row for exactly two minutes |
| JobRows.AuditBoundsWork | core/queue.py:237-255 | audit rows are bounded by max(1, max_attempts) although attempt_count is not |
| JobRows.TotalBackoffBounded | core/queue.py:225-242 | all retry delays of a job add up to at most 15 * (2^(max_attempts-1) - 1) seconds, even when postponements and lost leases skip numbers |
| JobRows.RetryWaitsWhatItCharges | core/queue.py:238-242 | a retry is rescheduled by exactly the delay its audit row charges, never less than 15 seconds |
| JobRows.FirstRetryWaits | core/queue.py:239-242 | the first retry is due 15 seconds after the failure |
| JobRows.NextRetryWaitsTwice | core/queue.py:239-242 | the retry of attempt n + 1 waits exactly twice as long as that of attempt n, for every n >= 1 |
| JobRows.BackoffAttained | core/queue.py:225-242 | the bound on the total is attained: failures of the attempts 1 to n are charged exactly 15 * (2^n - 1) seconds |
| IdempotencyKey.ParseUndoesPrint | core/queue.py:51 | parsing the printed key gives back the four ids, for all integers |
| IdempotencyKey.KeyTextPieces | core/queue.py:51 | the text splits at ":" into "send" and the four ids, in the order organization, campaign, lead, record |
| IdempotencyKey.KeyTextIdentifiesJob | database/models.py:346 | two jobs share a key iff they were created from the same four ids |
| QueueSpec.LookupByText | core/queue.py:55-58 | the lookup by key text finds a row iff the four ids have one, and only that one |
| QueueSpec.EnqueueIsIdempotent | core/queue.py:51-79 | enqueueing a key again, at any time and with any schedule and attempt limit, changes nothing; enqueueing changes nothing iff the key has a row |
| QueueSpec.EnqueuedIsClaimableFrom | core/queue.py:60-79 | a new job of an active campaign can be claimed from its scheduled time on, and not before |
| QueueSpec.LeaseHidesJob | core/queue.py:103-140 | a claimed job can be claimed again iff its lease has run out, whoever claims |
| QueueSpec.PurgeTakes | workers/maintenance_worker.py:143-158 | the purge takes exactly the jobs that ended and were created more than thirty days ago |
| QueueSpec.PurgeForgetsKey | workers/maintenance_worker.py:143-158 | after a purge the same key enqueues a new job and its record, SENT or FAILED, is QUEUED again |
| PolicySpec.AllowedMeansEveryRule | services/sending_policy.py:52-157 | the gate opens iff every rule holds, counters read after the day rollover |
| GateRules.DecidingRule | services/sending_policy.py:52-157 | every answer of the gate on the inputs: no delay iff one of rules 1 to 4 fails, the breaker flag iff the bounce rule is the first to fail, a delay of d iff they pass and the day counter is full (3600), else the hour counter (600), else pacing lacks d seconds rounded up |
| GateRules.GateWrites | services/sending_policy.py:114-119 | the account is written iff rules 1 to 4 pass: the day, and zero counters on a new day; a missing reset date is no new day |
| PolicySpec.PacingWaitSuffices | services/sending_policy.py:138-151 | the suggested wait is enough, whenever the reschedule is written, and not a full second too long |
| DurableQueue.DurableQueue.EnqueueSendJob | core/queue.py:51-79 | an existing row is returned untouched, otherwise the row is created and its record QUEUED |
| DurableQueue.DurableQueue.ClaimSendJob | core/queue.py:96-143 | claims an earliest eligible unlocked row if there is one, and changes only that row |
| DurableQueue.DurableQueue.RecordAttempt | core/queue.py:157-170 | appends an audit row, the earlier ones untouched |
| DurableQueue.DurableQueue.CompleteSendJob | core/queue.py:181-215 | the whole new state of a completion: job, record, lead, campaign counter, audit row |
| DurableQueue.DurableQueue.FailSendJob | core/queue.py:230-275 | the whole new state of a failure: retry with backoff while budget is left, otherwise FAILED with its record |
| DurableQueue.DurableQueue.ReapOrphanedJobs | core/queue.py:277-304 | exactly the rows whose lease ran out become QUEUED, and are counted |
| SendingPolicy.PolicyEngine.Evaluate | services/sending_policy.py:52-157 | the decision, with the account's day rollover as its only write |
| SendingPolicy.PolicyEngine.RecordSend | services/sending_policy.py:159-169 | both counters and the last send time of that account |
| CampaignWorker.CampaignWorker.SelectAccount | workers/campaign_worker.py:98-107 | an active, healthy account of the organization, or none when there is none |
| CampaignWorker.CampaignWorker.HandleClaimed | workers/campaign_worker.py:84-224 | the ruling, the whole state it leaves, and that the provider is asked iff the ruling is a dispatch |
| CampaignWorker.CampaignWorker.ExecuteJob | workers/campaign_worker.py:68-224 | one execution has exactly the effect of `WorkerSpec.Execute` for some possible inputs, and asks the provider at most once |
| CampaignWorker.CampaignWorker.ProcessNextJob | workers/campaign_worker.py:57-66 | committed whole or not at all, while the provider's acceptance stands in both cases |
| MaintenanceWorker.MaintenanceWorker.ReapAllExpiredLeases | workers/maintenance_worker.py:57-86 | reaps both kinds of job and counts exactly the lost leases |
| MaintenanceWorker.MaintenanceWorker.ResetProviderRateLimits | workers/maintenance_worker.py:88-111 | resets every account's counters iff the hour, or the day, differs from what this process remembers |
| MaintenanceWorker.MaintenanceWorker.PurgeRetentionData | workers/maintenance_worker.py:143-158 | deletes exactly the finished jobs created before the retention window |
| MaintenanceWorker.MaintenanceWorker.RunMaintenanceCycle | workers/maintenance_worker.py:160-166 | the whole pass in one transaction |
| CampaignRoutes.CampaignRoutes.StartCampaign | api/routes.py:439-492 | activates the caller's own campaign and enqueues each of its PENDING records once; otherwise not found and nothing changes |
| CampaignRoutes.CampaignRoutes.PauseCampaign | api/routes.py:495-513 | pauses the caller's own campaign, or changes nothing |
| EnrichmentWorker.EnrichmentWorker.ClaimEnrichmentJob | workers/enrichment_worker.py:53-88 | claims an oldest claimable unlocked job if there is one |
| EnrichmentWorker.EnrichmentWorker.ExecuteJob | workers/enrichment_worker.py:100-128 | an executed claim ends SENT or FAILED with the lease cleared, exceptions included, and the lead's status is overwritten unless the enricher raises |
| EnrichmentWorker.EnrichmentWorker.ProcessNextJob | workers/enrichment_worker.py:90-98 | the job's row is committed or rolled back with the worker, the lead keeps what the enricher wrote in both cases |
| EnrichmentWorker.PendingIsNeverClaimed | database/models.py:441 | a job left in the default status PENDING is never claimed |
| LeadEnricher.LeadEnricher.EnrichLead | modules/lead_enrichment/enricher.py:26-79 | an existing lead becomes ENRICHED whatever its status was, unless the pipeline raises, which changes nothing |
| EmailGenerator.EmailGenerator.GenerateEmailForLead | modules/ai_engine/generator.py:93-137 | a PENDING record and an EMAIL_GENERATED lead, unless the lead is missing, EMAILED, REPLIED or BOUNCED or no text was written |
| LeadValidator.PatternDecided | modules/lead_ingestion/validator.py:13-17 | splitting at '@' and '.' decides exactly the language of the address pattern |
| LeadValidator.AcceptedIffAcceptable | modules/lead_ingestion/validator.py:43-81 | an address is accepted iff its normalized form is a well-formed address within the length limit, with two labels or more, a last label of two characters or more, and no disposable domain |
| LeadValidator.ValidIff | modules/lead_ingestion/validator.py:83-109 | a row is valid iff first name, last name and company each hold a character that is no white space and the address is acceptable |
| LeadValidator.ReasonListedIff | modules/lead_ingestion/validator.py:43-109 | each of the nine reasons is listed iff it applies to the row, the missing fields first, at most one reason about the address |
| LeadValidator.WebsiteCompleted | modules/lead_ingestion/validator.py:104-107 | a website without a scheme gets "https://" before it; an absent, empty or complete one, and the rest of the row, stay |
| LeadValidator.CleanChangesCaseOnly | modules/lead_ingestion/validator.py:132-137 | cleaning an ASCII row strips it and changes the case of names and address; every field stays in its place |
| LeadValidator.CleanAgainIff | modules/lead_ingestion/validator.py:132-137 | normalizing a valid lead keeps it valid and its address normalized; normalizing again changes nothing iff both names print steadily |
| LeadValidator.StatsAddUp | modules/lead_ingestion/validator.py:149-154 | total = valid + invalid + duplicate |
| LeadValidator.EachAddressLandsOnce | modules/lead_ingestion/validator.py:121-147 | every normalized address lands in exactly one of valid and rejected, by the verdict on its first row |
| LeadValidator.ValidDistinct | modules/lead_ingestion/validator.py:121-138 | valid leads have pairwise different addresses and keep the order of their rows |
| LeadValidator.FirstRowDecides | modules/lead_ingestion/validator.py:121-147 | the first row with an address is returned, cleaned, iff it is complete, and otherwise rejected under its number with its reasons |
| LeadValidator.RowsLeft | modules/lead_ingestion/validator.py:121-147 | duplicates are left as they were, complete first rows as they are returned, rejected ones with their website completed |
| LeadValidator.RevalidationIff | modules/lead_ingestion/validator.py:111-169 | validating the valid leads again rejects and drops none; it returns them unchanged iff the names of the rows they come from print steadily |
| LeadValidator.RevalidationIsIdentity | modules/lead_ingestion/validator.py:111-169 | it returns them unchanged, rejecting and dropping none, when those names consist of characters whose forms stay as they are and keep their case |
| LeadValidator.AsciiRevalidationIsIdentity | modules/lead_ingestion/validator.py:111-169 | so it does whenever the names are ASCII |
| TextCase.TitleAgainIff | modules/lead_ingestion/validator.py:134-135 | titling a titled text, final sigmas included, changes nothing iff every printed form stays as it is after the printed form before it |
| TextCase.TitleNotIdempotent | modules/lead_ingestion/validator.py:134-135 | U+01F0 followed by "a", and U+1FB7 alone, are printed differently the second time |
| TextCase.StripPieces | modules/lead_ingestion/validator.py:125 | stripping takes off white space at both ends, and all of it |
| TextCase.AsciiTitle | modules/lead_ingestion/validator.py:134-135 | of an ASCII text, exactly the letters with no letter before them are printed as capitals |
| TextCase.SigmaInPlace | modules/lead_ingestion/validator.py:134-135 | a capital sigma is lowered to a final one iff a character with case stands before it and none after it |
| BatchValidator.Validator.ValidateEmail | modules/lead_ingestion/validator.py:43-81 | the first reason against an address, or none |
| BatchValidator.Validator.ValidateLead | modules/lead_ingestion/validator.py:83-109 | the issues of one lead, its website completed in place whether valid or not |
| BatchValidator.Validator.ValidateLeads | modules/lead_ingestion/validator.py:111-169 | the batch loop returns the lists and counts of "first occurrence, then filter" and leaves each row as that reading says |
| CsvColumns.FirstAliasIsColumn | modules/lead_ingestion/csv_handler.py:34-43 | a field's column is the first occurrence of its best alias present, and none iff no alias is present |
| CsvColumns.EmailColumnFoundIff | modules/lead_ingestion/csv_handler.py:17-31 | an address column is found iff a header normalizes to one of four aliases; "e-mail" matches nothing |
| CsvColumns.NamedColumnsAreRead | modules/lead_ingestion/csv_handler.py:96-117 | a column that carries a field's own name is read into that field, wherever it stands and whatever the others are called |
| CsvColumns.FullRowIsRead | modules/lead_ingestion/csv_handler.py:96-117 | a row under the header first_name, last_name, email, company_name, website, industry is read cell by cell |
| CsvColumns.PlainNameReads | modules/lead_ingestion/csv_handler.py:30-31 | a header of letters, dashes and underscores is read without regard to capitals, dashes as underscores |
| CsvColumns.RunsAreHalved | modules/lead_ingestion/csv_handler.py:30-31 | a run of n blanks in a header is read as (n + 1) / 2 blanks, so runs of three or more are not collapsed |
| CsvColumns.ColumnOrderIrrelevant | modules/lead_ingestion/csv_handler.py:34-43 | rearranging columns with different names does not change the lead read from a complete row |
| CsvImport.MapColumns | modules/lead_ingestion/csv_handler.py:34-43 | the mapping loops give every field its column |
| CsvImport.ParseContent | modules/lead_ingestion/csv_handler.py:46-123 | no header, a missing required column, or the validated rows with statistics that add up |
| CsvImport.ColumnOrderImportsTheSame | modules/lead_ingestion/csv_handler.py:46-123 | a whole file with its columns rearranged gives the same result |
| CsvImport.LeadTable.CollectInserts | modules/lead_ingestion/csv_handler.py:152-182 | the insert loop collects the leads the committed table does not hold and counts the others; together they are all leads |
| CsvImport.LeadTable.Commit | database/models.py:240-241 | inserts go in together iff (organization, email) stays unique and every value fits its column |
| CsvImport.ImportCsv | modules/lead_ingestion/csv_handler.py:126-197 | an import keeps the table unique, adds exactly the new leads, counts the others as duplicates, and is rolled back iff a value is too wide |
| CsvImport.ImportTwice | modules/lead_ingestion/csv_handler.py:155-166 | importing the same content again imports nothing and leaves the table unchanged |
| CsvImport.ImportedAsWritten | modules/lead_ingestion/csv_handler.py:126-182 | after an accepted import the table holds, for every complete first row with an address new to the organization, a lead with the row's own cells, stripped, names titled, address lowered, website completed |
| CsvImport.MissingIff | modules/lead_ingestion/csv_handler.py:78-88 | exactly the required fields without a column are reported missing |
| LeadImport.BlindLoopSafeIff | database/database.py:55-60 | without sight of its own inserts the loop keeps (organization, email) unique iff the addresses new to the organization differ from one another |
| LeadImport.ValidatedImportAccepted | modules/lead_ingestion/validator.py:121-142 | after validation the commit is refused only for a value too wide for its column |
| LeadImport.NewLeadIsStored | modules/lead_ingestion/csv_handler.py:168-180 | a lead whose address the organization did not hold is stored field by field, under the organization, campaign and source of the import |
| LeadImport.HeldLeadIsKept | modules/lead_ingestion/csv_handler.py:155-166 | a lead the organization held already stays as it was and gets no second row |
| LeadImport.ImportsKeepRows | database/models.py:240-241 | over any series of imports the constraint holds and every stored row stays where and as it is |
| LeadImport.LateReimportAddsNothing | modules/lead_ingestion/csv_handler.py:155-166 | re-importing leads at any later time, after any other imports, changes nothing |
| Base64url.SegmentRoundTrip | core/security.py:132-160 | encode, strip '=', re-pad, decode is the identity for byte strings of every length |
| Base64url.SegmentRepads | core/security.py:132-136 | a segment has no '.' and no '=', and re-padding it gives the text the padding was stripped from |
| Base64url.SextetsAreDigits | core/security.py:132-136 | the symbols are the digits, in base 64, of the number the bytes are in base 256, times 16 or 4 after one or two left-over bytes |
| Base64url.SymbolTable | core/security.py:132-136 | the symbols are A to Z, a to z, 0 to 9, "-" and "_", in that order |
| Base64url.SymbolsDecodeIff | core/security.py:150-159 | a re-padded segment of alphabet symbols decodes iff its length is not 1 more than a multiple of 4 |
| AccessToken.TokenSplits | core/security.py:131-136 | an issued token splits into exactly its header, payload and signature segments |
| AccessToken.TokenRoundTrip | core/security.py:139-165 | a token issued for any payload reads back as that payload until the clock passes its exp, and is refused as expired from then on |
| AccessToken.CreatedTokenLifetime | core/security.py:120-127 | a created token is refused as expired exactly from the first instant after the end of its lifetime cut to a whole second, except for an expiry at second 0 of the epoch, which never takes effect |
| AccessToken.CreatedTokenSays | core/security.py:112-136 | whenever a created token is accepted, its payload is an object that says exactly: sub, a text that parses to the user; org, the organization; role; type "access"; iat, the second of issue; exp, the second the lifetime ends in, a day unless another lifetime, not zero, was asked for |
| AccessToken.JudgeByExp | core/security.py:161-165 | for every kind of JSON value, when an exp expires a token, cannot be compared, or lets it through |
| AccessToken.SignatureFirst | core/security.py:146-155 | no verdict about the payload is given before the signature is right |
| AccessToken.ClaimsIdentify | core/security.py:122-129 | requests with equal claims are for the same user, organization and role; which claim says which, `AccessToken.CreatedTokenSays` states |
| AccessToken.AcceptedIffSigned | core/security.py:141-165 | a text is accepted iff it is three segments whose signature bytes equal the HMAC of the first two exactly as printed, with a payload that is a JSON object, unexpired |
| AccessToken.ChangedTokenRefused | core/security.py:146-155 | another header or payload before an issued signature is refused whenever the HMAC tells the signing inputs apart |

## Left out

- Suppression.ListedIsForever: production settings only; outside production a job without an account skips the gate, as `Suppression.BlockedContactIff` says exactly.
- MailRuns.BoundedDuplicates: counts per email record; a second record generated for the same lead is a second email.
- TextCase.TitleAgainIff: the case tables are a parameter with the laws of `Cases.Sound`.
- SendRates.WindowsBounded: per reset window. What that means per calendar day, with one maintenance process and across its restarts, `CalendarDays` says; no such bound is stated per clock hour.
- SendRates.CountersCountSends: serial transactions only; the account row is read and written without a row lock, so with several campaign workers counters could lose updates. The systemd unit runs a single one.
- Scheduling.BoundedBypass: the waiting job was due strictly before the run begins, and only the executions that could claim it are counted.
- CampaignRuns.BreakerGuardsDispatch: exact reals; the code computes `(bounces / sent) * 100` in floats, which can differ in the last place at the limit.
- LeadImport.ValidatedImportAccepted: uniqueness and column widths are the only reasons for a refused commit; other driver errors are not modelled.
- AccessToken.TokenRoundTrip: JSON and the HMAC are parameters, JSON with the requirement that reading the claims undoes printing them.
- Concurrency inside a transaction: transactions are serial, apart from the rows a claim skips as locked.
- `attempt_count <= max_attempts` is not kept by the code (postponements and reaping have no budget
  check) and is not stated; completing and failing do not check the lease holder.
- Surrogate job ids: a job is identified by the four ids its unique key prints.
- Deletion of leads, campaigns and records, and the jobs that go with them.
- The unique provider message id and the idempotency key of email records: a clash makes the
  execution roll back, which is the loss of a worker in the model.
- `start_campaign` never passes a scheduled time or another attempt limit; other callers of enqueue are
  covered by the queue operations, not by the transaction-level runs.
- Backoff is computed on exact integers; the code uses a float power, which agrees for the attempt
  numbers a retry can have.
- The SQLite claim without row locks, worker polling loops, signal handling and the DNS refresh of the
  maintenance pass.
- Providers, HTTP, credentials, Redis, log and error texts, provider names and thread ids: the provider's
  answer is an arbitrary result whose `retryable` flag is false on success, as both providers give it.
- Reply handling: only its writes to the lead's status; the reply monitor matches replies through a
  column that no longer exists.
- The follow-up scheduler, reply classification, domain health scores, the legacy batch sender,
  password hashing, encryption and the URL checks.
- Decoding of CSV bytes and the CSV reader: a file is a header row and rows of cells.
- Batch rows are elements of an array: two list entries that are the same dict object are not captured.
- Float rounding of timestamps is not modelled.
- Creation of leads, campaigns and accounts while a run goes on: they are there from its start.

/** The tables the send protocol works on (database/models.py).
    Times are whole microseconds of UTC. Free text (log lines, error messages, provider
    names) is not kept. */
module Records {
  import opened Text

  const SECOND: int := 1_000_000
  const HOUR: int := 3600 * SECOND
  const DAY: int := 24 * HOUR

  /** The calendar day of an instant; `%Y-%m-%d` text and this number determine each other. */
  function DayOf(t: int): int { t / DAY }

  /** The hour of the day of an instant, 0 to 23. */
  function HourOf(t: int): int { (t / HOUR) % 24 }

  /** Python truth of an optional string: absent and empty are both false. */
  predicate Truthy(o: Option<string>) { o.Some? && o.value != "" }

  datatype JobStatus = Pending | Queued | Processing | RetryWait | Sent | Failed | Cancelled
  datatype EmailStatus = Pending | Queued | Sent | Failed | Bounced
  datatype CampaignStatus = Draft | Active | Paused | Completed | Archived
  datatype LeadStatus =
    | New | Enriching | Enriched | EmailGenerated | Queued | Emailed
    | Followup1Sent | Followup2Sent | Replied | Bounced | Unsubscribed

  datatype Outcome = Success | TransientFailure | PermanentFailure

  /** One audit row of an execution; it belongs to its job and is deleted with it. */
  datatype SendAttempt = SendAttempt(number: nat, worker: string, outcome: Outcome, messageId: Option<string>)

  /** The four ids a job is created from. They are exactly what its idempotency key prints
      (see IdempotencyKey), and that key is unique, so they identify the row. */
  datatype JobKey = JobKey(org: int, campaign: int, lead: int, email: int)

  datatype SendJob = SendJob(
    idempotencyKey: string,
    status: JobStatus,
    leaseWorker: Option<string>,
    leaseExpires: Option<int>,
    attemptCount: nat,
    maxAttempts: int,
    scheduledFor: int,
    createdAt: int,
    attempts: seq<SendAttempt>)

  datatype EmailRecord = EmailRecord(
    org: int, lead: int, campaign: Option<int>,
    status: EmailStatus, messageId: Option<string>, sentAt: Option<int>)

  datatype Lead = Lead(org: int, email: string, status: LeadStatus)

  datatype Campaign = Campaign(org: int, status: CampaignStatus, dailyLimit: int, totalSent: nat, totalBounces: nat)

  datatype Account = Account(
    org: int, active: bool, healthy: bool, hasCredentials: bool,
    sendsToday: nat, sendsThisHour: nat, lastSendAt: Option<int>, lastResetDay: Option<int>)

  datatype EnrichmentJob = EnrichmentJob(
    lead: int, status: JobStatus, leaseWorker: Option<string>, leaseExpires: Option<int>,
    attemptCount: nat, createdAt: int)

  /** The contents of the database. */
  datatype Db = Db(
    jobs: map<JobKey, SendJob>,
    emails: map<int, EmailRecord>,
    leads: map<int, Lead>,
    campaigns: map<int, Campaign>,
    accounts: map<int, Account>,
    suppressed: set<(int, string)>,
    enrichment: map<int, EnrichmentJob>)

  /** The answer of `provider.send`. */
  datatype SendResult = SendResult(success: bool, messageId: Option<string>, retryable: bool)

  /** The settings the protocol reads (core/config.py). */
  datatype Settings = Settings(
    production: bool, hourlyLimit: int, dailyLimit: int, maxBounceRate: real, minDelaySeconds: int)

  /** JOB_LEASE_SECONDS. */
  const JOB_LEASE_SECONDS: int := 60

  function Max(a: int, b: int): int { if a < b then b else a }
  function Min(a: int, b: int): int { if a < b then a else b }

  /** A set of ids is empty or has a member. */
  lemma EmptyOrInhabited(s: set<int>)
    ensures s == {} || exists x :: x in s
  {
    if !(exists x :: x in s) {
      assert s <= {};
    }
  }
}

/** What the queue operations of core/queue.py, the start and pause endpoints and the
    retention purge do to the database, as functions from database to database. */
module QueueSpec {
  import opened Text
  import opened Records
  import opened IdempotencyKey
  import opened JobRows

  const DEFAULT_MAX_ATTEMPTS: int := 3
  const RETENTION_DAYS: int := 30

  // ---- Enqueue ----------------------------------------------------------------------------

  /** Nothing happens when a row with the key exists; otherwise the row is created and its
      email record becomes QUEUED. */
  function Enqueue(db: Db, k: JobKey, now: int, scheduledFor: int, maxAttempts: int): Db
  {
    if k in db.jobs then db
    else db.(jobs := db.jobs[k := NewJob(k, now, scheduledFor, maxAttempts)],
             emails := if k.email in db.emails
                       then db.emails[k.email := db.emails[k.email].(status := EmailStatus.Queued)]
                       else db.emails)
  }

  /** Every stored row carries the text its four ids print. */
  predicate TextsOk(db: Db)
  {
    forall k <- db.jobs :: db.jobs[k].idempotencyKey == KeyText(k)
  }

  /** Looking a row up by its printed key is looking it up by its four ids. */
  lemma LookupByText(db: Db, k: JobKey)
    requires TextsOk(db)
    ensures (exists r <- db.jobs :: db.jobs[r].idempotencyKey == KeyText(k)) <==> k in db.jobs
    ensures forall r <- db.jobs :: db.jobs[r].idempotencyKey == KeyText(k) ==> r == k
  {
    forall r <- db.jobs
      ensures db.jobs[r].idempotencyKey == KeyText(k) ==> r == k
    {
      KeyTextIdentifiesJob(r, k);
    }
    if k in db.jobs {
      assert db.jobs[k].idempotencyKey == KeyText(k);
    }
  }

  /** Enqueuing the same key again, with whatever other arguments, changes nothing. */
  lemma EnqueueIsIdempotent(db: Db, k: JobKey, now: int, at: int, max: int, now': int, at': int, max': int)
    ensures var once := Enqueue(db, k, now, at, max); Enqueue(once, k, now', at', max') == once
    ensures Enqueue(db, k, now, at, max) == db <==> k in db.jobs
  {
    var once := Enqueue(db, k, now, at, max);
    assert k in once.jobs;
    if k !in db.jobs {
      assert once.jobs != db.jobs;
    }
  }

  // ---- Claim ------------------------------------------------------------------------------

  predicate ActiveCampaign(db: Db, c: int)
  {
    c in db.campaigns && db.campaigns[c].status.Active?
  }

  /** The claim query's filter. */
  predicate Eligible(db: Db, k: JobKey, now: int)
  {
    k in db.jobs && ActiveCampaign(db, k.campaign) && Claimable(db.jobs[k], now)
  }

  /** What `ORDER BY scheduled_for FOR UPDATE SKIP LOCKED LIMIT 1` may return: an earliest
      eligible row that no other transaction has locked, or nothing when there is none. */
  predicate IsPick(db: Db, now: int, locked: set<JobKey>, pick: Option<JobKey>)
  {
    match pick
    case None =>
      forall k <- db.jobs :: k !in locked ==> !Eligible(db, k, now)
    case Some(k) =>
      && k !in locked && Eligible(db, k, now)
      && forall other <- db.jobs :: other !in locked && Eligible(db, other, now)
           ==> db.jobs[k].scheduledFor <= db.jobs[other].scheduledFor
  }

  /** A new job can be claimed from its scheduled time on, as long as its campaign is active. */
  lemma EnqueuedIsClaimableFrom(db: Db, k: JobKey, now: int, at: int, max: int, t: int)
    requires k !in db.jobs
    ensures Eligible(Enqueue(db, k, now, at, max), k, t) <==> ActiveCampaign(db, k.campaign) && at <= t
  {
  }

  /** A claimed job cannot be claimed again until its lease has run out, and can from then on. */
  lemma LeaseHidesJob(db: Db, k: JobKey, worker: string, now: int, leaseSeconds: int, t: int)
    requires k in db.jobs
    ensures Eligible(Claim(db, k, worker, now, leaseSeconds), k, t) <==>
              ActiveCampaign(db, k.campaign) && t - now > leaseSeconds * 1_000_000
  {
  }

  function Claim(db: Db, k: JobKey, worker: string, now: int, leaseSeconds: int): Db
    requires k in db.jobs
  {
    db.(jobs := db.jobs[k := AfterClaim(db.jobs[k], worker, now, leaseSeconds)])
  }

  // ---- Finish -----------------------------------------------------------------------------

  function Complete(db: Db, k: JobKey, worker: string, messageId: Option<string>, now: int): Db
  {
    if k !in db.jobs then db
    else db.(
      jobs := db.jobs[k := AfterSuccess(db.jobs[k], worker, messageId)],
      emails := if k.email in db.emails
                then db.emails[k.email := db.emails[k.email].(status := EmailStatus.Sent, messageId := messageId, sentAt := Some(now))]
                else db.emails,
      leads := if k.lead in db.leads
               then db.leads[k.lead := db.leads[k.lead].(status := LeadStatus.Emailed)]
               else db.leads,
      campaigns := if k.campaign in db.campaigns
                   then db.campaigns[k.campaign := db.campaigns[k.campaign].(totalSent := db.campaigns[k.campaign].totalSent + 1)]
                   else db.campaigns)
  }

  function Fail(db: Db, k: JobKey, worker: string, retryable: bool, now: int): Db
  {
    if k !in db.jobs then db
    else db.(
      jobs := db.jobs[k := AfterFailure(db.jobs[k], worker, retryable, now)],
      emails := if !Retries(db.jobs[k], retryable) && k.email in db.emails
                then db.emails[k.email := db.emails[k.email].(status := EmailStatus.Failed)]
                else db.emails)
  }

  function Postpone(db: Db, k: JobKey, at: int): Db
    requires k in db.jobs
  {
    db.(jobs := db.jobs[k := AfterPostponement(db.jobs[k], at)])
  }

  // ---- Reap and purge ---------------------------------------------------------------------

  function ReapedJobs(jobs: map<JobKey, SendJob>, now: int): map<JobKey, SendJob>
  {
    map k | k in jobs :: Reaped(jobs[k], now)
  }

  function Reap(db: Db, now: int): Db
  {
    db.(jobs := ReapedJobs(db.jobs, now))
  }

  /** A finished job created before the retention window. */
  predicate Purgeable(row: SendJob, now: int)
  {
    Terminal(row) && row.createdAt < now - RETENTION_DAYS * DAY
  }

  function PurgedKeys(jobs: map<JobKey, SendJob>, now: int): set<JobKey>
  {
    set k | k in jobs && Purgeable(jobs[k], now)
  }

  function Purge(db: Db, now: int): Db
  {
    db.(jobs := db.jobs - PurgedKeys(db.jobs, now))
  }

  /** What a purge takes: the jobs that ended, sent or failed or cancelled, and were created more
      than thirty days ago. The others stay as they are. */
  lemma PurgeTakes(db: Db, k: JobKey, now: int)
    requires k in db.jobs
    ensures var row := db.jobs[k];
            k !in Purge(db, now).jobs <==>
              row.status in {JobStatus.Sent, JobStatus.Failed, JobStatus.Cancelled} && now - row.createdAt > 30 * 86_400_000_000
    ensures k in Purge(db, now).jobs ==> Purge(db, now).jobs[k] == db.jobs[k]
  {
    assert k in PurgedKeys(db.jobs, now) <==> Purgeable(db.jobs[k], now);
  }

  /** The key only protects rows that are still stored. Once a finished row is purged the same
      key enqueues again, and its record, SENT or FAILED, is QUEUED once more; nothing but the
      PENDING filter of `start_campaign` stands before that. */
  lemma PurgeForgetsKey(db: Db, k: JobKey, purgedAt: int, now: int, at: int, max: int)
    requires k in db.jobs && Purgeable(db.jobs[k], purgedAt) && k.email in db.emails
    ensures var again := Enqueue(Purge(db, purgedAt), k, now, at, max);
            && k in again.jobs && again.jobs[k] == NewJob(k, now, at, max)
            && again.emails[k.email] == db.emails[k.email].(status := EmailStatus.Queued)
  {
    assert k in PurgedKeys(db.jobs, purgedAt);
  }

  // ---- Start and pause --------------------------------------------------------------------

  predicate OwnsCampaign(db: Db, org: int, c: int)
  {
    c in db.campaigns && db.campaigns[c].org == org
  }

  function SetCampaign(db: Db, c: int, status: CampaignStatus): Db
    requires c in db.campaigns
  {
    db.(campaigns := db.campaigns[c := db.campaigns[c].(status := status)])
  }

  /** Enrichment and generation write the status of a lead whatever it was. */
  function SetLead(db: Db, l: int, status: LeadStatus): Db
    requires l in db.leads
  {
    db.(leads := db.leads[l := db.leads[l].(status := status)])
  }

  /** What `enrich_lead` leaves behind unless it raises: an ENRICHED lead, if it exists. */
  function EnrichLead(db: Db, l: int): Db
  {
    if l in db.leads then SetLead(db, l, LeadStatus.Enriched) else db
  }

  /** Generation skips leads that were reached already or bounced, and only those. */
  predicate Writable(lead: Lead)
  {
    !lead.status.Emailed? && !lead.status.Replied? && !lead.status.Bounced?
  }

  /** A new PENDING record for lead `l`, which becomes EMAIL_GENERATED. */
  function GenerateEmail(db: Db, e: int, l: int, campaign: Option<int>): Db
    requires l in db.leads
  {
    SetLead(db, l, LeadStatus.EmailGenerated).(
      emails := db.emails[e := EmailRecord(db.leads[l].org, l, campaign, EmailStatus.Pending, None, None)])
  }

  /** The records `start_campaign` enqueues: this tenant's PENDING records of the campaign. */
  predicate PendingFor(db: Db, org: int, c: int, e: int)
  {
    e in db.emails && db.emails[e].org == org && db.emails[e].campaign == Some(c) && db.emails[e].status.Pending?
  }

  /** The key `start_campaign` gives to a record's job. */
  function KeyFor(db: Db, org: int, c: int, e: int): JobKey
    requires e in db.emails
  {
    JobKey(org, c, db.emails[e].lead, e)
  }

  /** The enqueue loop over a list of records. */
  function EnqueueAll(db: Db, org: int, c: int, records: seq<int>, now: int): (after: Db)
    requires forall e <- records :: e in db.emails
    ensures after.emails.Keys == db.emails.Keys
    ensures forall e <- db.emails :: after.emails[e].lead == db.emails[e].lead
  {
    if records == [] then db
    else
      var last := |records| - 1;
      var before := EnqueueAll(db, org, c, records[..last], now);
      Enqueue(before, KeyFor(before, org, c, records[last]), now, now, DEFAULT_MAX_ATTEMPTS)
  }

  /** The result list of the pending-records query: each such record once, in some order. */
  predicate ListsPending(db: Db, org: int, c: int, records: seq<int>)
  {
    && (forall e <- records :: PendingFor(db, org, c, e))
    && (forall e <- db.emails :: PendingFor(db, org, c, e) ==> e in records)
    && (forall i, j :: 0 <= i < j < |records| ==> records[i] != records[j])
  }
}

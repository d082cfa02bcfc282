/** The main results about whole runs: lockstep of record and job, the audit trail, bounded
    work and total backoff. Runs may contain crashes, purges and repeated campaign starts anywhere. */
module SendRuns {
  import opened Text
  import opened Records
  import opened IdempotencyKey
  import opened JobRows
  import opened QueueSpec
  import opened WorkerSpec
  import opened MaintenanceSpec
  import opened World
  import opened RecordHistory
  import Scheduling

  lemma FreshHasInv(w: World)
    requires Fresh(w)
    ensures Inv(w)
  {
  }

  lemma StepKeepsInv(cfg: Settings, w: World, step: Step, w': World)
    requires Inv(w) && Enabled(cfg, w, step) && w' == Next(cfg, w, step)
    ensures Inv(w')
  {
    match step
    case Execute(in_) => ExecuteKeepsInv(cfg, w, in_, w');
    case Killed(in_, asked) => KilledKeepsInv(w, in_, asked);
    case Abandon(worker, at, _, k) => AbandonKeepsInv(w, worker, at, k, w');
    case Activate(_, c, at) => OneEverywhere(ViewOk, w, w', 0);
    case Pause(_, c, at) => OneEverywhere(ViewOk, w, w', 0);
    case EnqueuePending(org, c, records, at) => EnqueueAllKeepsInv(w, org, c, records, at);
    case Maintain(memory, clock) => MaintainKeepsInv(w, memory, clock);
    case _ => OutsideKeepsInv(cfg, w, step);
  }

  lemma {:induction false} RunKeepsInv(cfg: Settings, w: World, steps: seq<Step>)
    requires Fresh(w) && Legal(cfg, w, steps)
    ensures Inv(After(cfg, w, steps))
  {
    if steps == [] {
      FreshHasInv(w);
    } else {
      RunKeepsInv(cfg, w, steps[..|steps| - 1]);
      StepKeepsInv(cfg, After(cfg, w, steps[..|steps| - 1]), steps[|steps| - 1], After(cfg, w, steps));
    }
  }

  // ---- Postponements and lost leases ------------------------------------------------------

  /** The step commits a policy postponement of job `k`. */
  predicate Postpones(cfg: Settings, w: World, step: Step, k: JobKey)
  {
    step.Execute? && step.in_.pick == Some(k) && k in w.db.jobs && RulingOf(cfg, w.db, step.in_).Delayed?
  }

  /** How often the step finds that the lease of `k` has run out: when it reaps, and when it
      claims a row whose lease ended since. */
  function LeasesLost(w: World, step: Step, k: JobKey): nat
  {
    if k !in w.db.jobs then 0
    else
      match step
      case Execute(in_) =>
        One(Expired(w.db.jobs[k], in_.clock.reap))
        + One(in_.pick == Some(k) && Expired(Reaped(w.db.jobs[k], in_.clock.reap), in_.clock.claim))
      case Abandon(_, at, _, claimed) => One(claimed == k && Expired(w.db.jobs[k], at))
      case Maintain(_, clock) => One(Expired(w.db.jobs[k], clock.reap))
      case _ => 0
  }

  function Postponements(cfg: Settings, w: World, steps: seq<Step>, k: JobKey): nat
    requires Legal(cfg, w, steps)
  {
    if steps == [] then 0
    else
      var n := |steps| - 1;
      Postponements(cfg, w, steps[..n], k) + One(Postpones(cfg, After(cfg, w, steps[..n]), steps[n], k))
  }

  function LostLeases(cfg: Settings, w: World, steps: seq<Step>, k: JobKey): nat
    requires Legal(cfg, w, steps)
  {
    if steps == [] then 0
    else
      var n := |steps| - 1;
      LostLeases(cfg, w, steps[..n], k) + LeasesLost(After(cfg, w, steps[..n]), steps[n], k)
  }

  lemma ExecuteBooks(cfg: Settings, w: World, in_: Inputs, k: JobKey)
    requires in_.pick.Some? ==> in_.pick.value in w.db.jobs
    ensures var after := ExecuteWorld(cfg, w, in_).ledger;
            && Count(after.postponed, k) == Count(w.ledger.postponed, k) + One(Postpones(cfg, w, Execute(in_), k))
            && Count(after.expired, k) == Count(w.ledger.expired, k) + LeasesLost(w, Execute(in_), k)
  {
    ExecuteCountsLeases(cfg, w, in_, k);
  }

  lemma ExecuteCountsLeases(cfg: Settings, w: World, in_: Inputs, k: JobKey)
    requires in_.pick.Some? ==> in_.pick.value in w.db.jobs
    ensures Count(LedgerAfter(cfg, w, in_).expired, k) == Count(w.ledger.expired, k) + LeasesLost(w, Execute(in_), k)
  {
  }

  lemma StepBooks(cfg: Settings, w: World, step: Step, k: JobKey)
    requires Enabled(cfg, w, step)
    ensures var after := Next(cfg, w, step).ledger;
            && Count(after.postponed, k) == Count(w.ledger.postponed, k) + One(Postpones(cfg, w, step, k))
            && Count(after.expired, k) == Count(w.ledger.expired, k) + LeasesLost(w, step, k)
  {
    if step.Execute? {
      ExecuteBooks(cfg, w, step.in_, k);
    }
  }

  /** The ledger's counts are the events of the run. */
  lemma {:induction false} RunBooks(cfg: Settings, w: World, steps: seq<Step>, k: JobKey)
    requires Fresh(w) && Legal(cfg, w, steps)
    ensures Count(After(cfg, w, steps).ledger.postponed, k) == Postponements(cfg, w, steps, k)
    ensures Count(After(cfg, w, steps).ledger.expired, k) == LostLeases(cfg, w, steps, k)
  {
    if steps != [] {
      var n := |steps| - 1;
      RunBooks(cfg, w, steps[..n], k);
      StepBooks(cfg, After(cfg, w, steps[..n]), steps[n], k);
    }
  }

  // ---- Lockstep, audit trail, bounded work ------------------------------------------------

  /** The key's finished row says `status`, in the table or in the purge log. */
  predicate EndedAs(w: World, k: JobKey, status: JobStatus)
  {
    (k in w.db.jobs && w.db.jobs[k].status == status) || (k in w.ledger.purged && w.ledger.purged[k].status == status)
  }

  /** Lockstep: in every reachable state the record's status and its job's tell the same story. */
  lemma RecordAndJobInLockstep(cfg: Settings, w: World, steps: seq<Step>, end: World, e: int)
    requires Reaches(cfg, w, steps, end) && e in end.db.emails && end.db.emails[e].campaign.Some?
    ensures var rec := end.db.emails[e];
            var k := JobKey(rec.org, rec.campaign.value, rec.lead, e);
            && (rec.status.Pending? <==> k !in end.db.jobs && k !in end.ledger.purged)
            && (rec.status.Queued? <==> k in end.db.jobs && (var s := end.db.jobs[k].status; s.Queued? || s.Processing? || s.RetryWait?))
            && (rec.status.Sent? <==> EndedAs(end, k, JobStatus.Sent))
            && (rec.status.Failed? <==> EndedAs(end, k, JobStatus.Failed))
            && (rec.status.Sent? ==> Truthy(rec.messageId))
            && !rec.status.Bounced?
  {
    RunKeepsInv(cfg, w, steps);
    assert ViewOk(ViewOf(end, e));
  }

  lemma OneJobIn(w: World, a: JobKey, b: JobKey)
    requires Inv(w) && a.email == b.email
    requires a in w.db.jobs || a in w.ledger.purged
    requires b in w.db.jobs || b in w.ledger.purged
    ensures a == b && !(a in w.db.jobs && a in w.ledger.purged)
    ensures a.email in w.db.emails && KeyOf(a.email, w.db.emails[a.email]) == Some(a)
  {
    if a in w.db.jobs {
      StoredIsNotPurged(w, a);
    }
    assert KeyOf(a.email, w.db.emails[a.email]) == Some(a);
    assert KeyOf(b.email, w.db.emails[b.email]) == Some(b);
  }

  /** One job per record: whatever was started how often, two rows for one record, stored or
      purged, are the same row, and it carries the record's own tenant, campaign and lead. */
  lemma OneJobPerRecord(cfg: Settings, w: World, steps: seq<Step>, end: World, a: JobKey, b: JobKey)
    requires Reaches(cfg, w, steps, end) && a.email == b.email
    requires a in end.db.jobs || a in end.ledger.purged
    requires b in end.db.jobs || b in end.ledger.purged
    ensures a == b && !(a in end.db.jobs && a in end.ledger.purged)
    ensures a.email in end.db.emails
    ensures var rec := end.db.emails[a.email]; rec.org == a.org && rec.lead == a.lead && rec.campaign == Some(a.campaign)
  {
    RunKeepsInv(cfg, w, steps);
    OneJobIn(end, a, b);
  }

  lemma OutcomeKeepsText(row: SendJob, ruling: Ruling, in_: Inputs)
    ensures RowAfter(row, ruling, in_).idempotencyKey == row.idempotencyKey
  {
  }

  lemma ReplaceKeepsTexts(jobs: map<JobKey, SendJob>, after: map<JobKey, SendJob>, t: int, k: JobKey, row: SendJob)
    requires k in jobs && row.idempotencyKey == jobs[k].idempotencyKey && after == ReapedJobs(jobs, t)[k := row]
    requires forall r <- jobs :: jobs[r].idempotencyKey == KeyText(r)
    ensures forall r <- after :: after[r].idempotencyKey == KeyText(r)
  {
  }

  lemma ExecuteKeepsTexts(cfg: Settings, db: Db, in_: Inputs)
    requires TextsOk(db) && (in_.pick.Some? ==> in_.pick.value in db.jobs)
    ensures TextsOk(WorkerSpec.Execute(cfg, db, in_))
  {
    if in_.pick.Some? {
      var k := in_.pick.value;
      var held := AfterClaim(ReapedJobs(db.jobs, in_.clock.reap)[k], in_.worker, in_.clock.claim, JOB_LEASE_SECONDS);
      Scheduling.ExecuteJobs(cfg, db, in_);
      OutcomeKeepsText(held, RulingOf(cfg, db, in_), in_);
      ReplaceKeepsTexts(db.jobs, WorkerSpec.Execute(cfg, db, in_).jobs, in_.clock.reap, k, RowAfter(held, RulingOf(cfg, db, in_), in_));
    }
  }

  lemma MaintainKeepsTexts(w: World, memory: Memory, clock: PassClock)
    requires TextsOk(w.db)
    ensures TextsOk(MaintainWorld(w, memory, clock).db)
  {
  }

  lemma StepKeepsTexts(cfg: Settings, w: World, step: Step)
    requires TextsOk(w.db) && Enabled(cfg, w, step)
    ensures TextsOk(Next(cfg, w, step).db)
  {
    match step
    case Execute(in_) => ExecuteKeepsTexts(cfg, w.db, in_);
    case EnqueuePending(org, c, records, at) => EnqueueAllKeepsTexts(w.db, org, c, records, at);
    case Maintain(memory, clock) => MaintainKeepsTexts(w, memory, clock);
    case _ =>
  }

  lemma {:induction false} EnqueueAllKeepsTexts(db: Db, org: int, c: int, records: seq<int>, at: int)
    requires TextsOk(db) && forall e <- records :: e in db.emails
    ensures TextsOk(EnqueueAll(db, org, c, records, at))
  {
    if records != [] {
      EnqueueAllKeepsTexts(db, org, c, records[..|records| - 1], at);
    }
  }

  /** Every stored row carries its printed key throughout every run, so that looking a row up by
      that text always finds the row of the same four ids and no other. */
  lemma {:induction false} RunKeepsTexts(cfg: Settings, w: World, steps: seq<Step>, k: JobKey)
    requires Fresh(w) && Legal(cfg, w, steps)
    ensures TextsOk(After(cfg, w, steps).db)
    ensures forall r <- After(cfg, w, steps).db.jobs :: After(cfg, w, steps).db.jobs[r].idempotencyKey == KeyText(k) ==> r == k
  {
    if steps != [] {
      RunKeepsTexts(cfg, w, steps[..|steps| - 1], k);
      StepKeepsTexts(cfg, After(cfg, w, steps[..|steps| - 1]), steps[|steps| - 1]);
    }
    LookupByText(After(cfg, w, steps).db, k);
  }

  /** In no reachable state does an execution find its message already transmitted: the branch
      that completes a job from the stored message id is never taken. */
  lemma NeverAlreadySent(cfg: Settings, w: World, steps: seq<Step>, end: World, in_: Inputs)
    requires Reaches(cfg, w, steps, end) && Possible(end.db, in_) && in_.pick.Some?
    ensures !RulingOf(cfg, end.db, in_).AlreadySent?
  {
    RunKeepsInv(cfg, w, steps);
    ClaimedRecordIsQueued(end, in_.pick.value, in_.clock.reap, in_.clock.claim);
    NotAlreadySent(cfg, end, in_);
  }

  /** In every reachable state a dispatch leaves from an account of the record's own organization. */
  lemma DispatchStaysInTenant(cfg: Settings, w: World, steps: seq<Step>, end: World, in_: Inputs)
    requires Reaches(cfg, w, steps, end) && Possible(end.db, in_) && Dispatches(cfg, end.db, in_)
    ensures in_.pick.value.email in end.db.emails && end.db.emails[in_.pick.value.email].org == in_.pick.value.org
    ensures in_.account.Some? ==> in_.account.value in end.db.accounts
                                  && end.db.accounts[in_.account.value].org == end.db.emails[in_.pick.value.email].org
  {
    RunKeepsInv(cfg, w, steps);
    ViewAt(end, in_.pick.value);
  }

  /** A job's row, stored or purged. */
  function RowOf(w: World, k: JobKey): SendJob
    requires k in w.db.jobs || k in w.ledger.purged
  {
    if k in w.db.jobs then w.db.jobs[k] else w.ledger.purged[k]
  }

  lemma RowAudited(w: World, k: JobKey)
    requires Inv(w) && (k in w.db.jobs || k in w.ledger.purged)
    ensures AuditOk(RowOf(w, k), Count(w.ledger.postponed, k), Count(w.ledger.expired, k))
  {
    assert KeyOf(k.email, w.db.emails[k.email]) == Some(k);
    assert ViewOk(ViewOf(w, k.email));
  }

  lemma RowDefaults(w: World, k: JobKey)
    requires Inv(w) && k in w.db.jobs
    ensures w.db.jobs[k].maxAttempts == DEFAULT_MAX_ATTEMPTS
  {
    assert KeyOf(k.email, w.db.emails[k.email]) == Some(k);
    assert ViewOk(ViewOf(w, k.email));
  }

  /** At most max(1, max_attempts) audit rows, and at most 15 * (2^(max_attempts - 1) - 1)
      seconds of retry delay. */
  predicate WithinBudget(row: SendJob)
  {
    && |row.attempts| <= Max(1, row.maxAttempts)
    && BackoffCharged(row.attempts, |row.attempts|) <= BACKOFF_BASE_SECONDS * (Pow2(Max(0, row.maxAttempts - 1)) - 1)
  }

  lemma EffortBounded(w: World, k: JobKey)
    requires Inv(w) && (k in w.db.jobs || k in w.ledger.purged)
    ensures WithinBudget(RowOf(w, k))
  {
    RowAudited(w, k);
    AuditBoundsWork(RowOf(w, k), Count(w.ledger.postponed, k), Count(w.ledger.expired, k));
    TotalBackoffBounded(RowOf(w, k), Count(w.ledger.postponed, k), Count(w.ledger.expired, k));
  }

  /** The audit log of every job, stored or purged, determines its state at every point of
      every run: strictly increasing numbers, only transient failures before the last row, the
      last a success iff SENT and a permanent failure iff FAILED, and the attempt counter equal
      to rows plus the run's postponements plus its lost leases of the job plus the execution
      in progress. */
  lemma AuditTrail(cfg: Settings, w: World, steps: seq<Step>, end: World, k: JobKey)
    requires Reaches(cfg, w, steps, end) && (k in end.db.jobs || k in end.ledger.purged)
    ensures AuditOk(RowOf(end, k), Postponements(cfg, w, steps, k), LostLeases(cfg, w, steps, k))
  {
    RunKeepsInv(cfg, w, steps);
    RunBooks(cfg, w, steps, k);
    RowAudited(end, k);
  }

  /** Over any run every job, stored or purged, stays within its budget of attempts and of
      retry delay. */
  lemma BoundedEffort(cfg: Settings, w: World, steps: seq<Step>, end: World, k: JobKey)
    requires Reaches(cfg, w, steps, end) && (k in end.db.jobs || k in end.ledger.purged)
    ensures WithinBudget(RowOf(end, k))
  {
    RunKeepsInv(cfg, w, steps);
    EffortBounded(end, k);
  }
}

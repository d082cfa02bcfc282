/** How jobs end, over whole runs: why a job is FAILED, and how many failures it takes. */
module OutcomeRuns {
  import opened Text
  import opened Records
  import opened JobRows
  import opened QueueSpec
  import opened WorkerSpec
  import opened MaintenanceSpec
  import opened World
  import opened Outcomes
  import Scheduling
  import SendRates
  import SendRuns

  // ---- Why a job is FAILED ----------------------------------------------------------------

  predicate FailedIn(jobs: map<JobKey, SendJob>, k: JobKey) { k in jobs && jobs[k].status == JobStatus.Failed }

  /** Stored or purged. */
  predicate IsFailed(w: World, k: JobKey) { FailedIn(w.db.jobs, k) || FailedIn(w.ledger.purged, k) }

  /** The execution gives the job up: for good, or with its attempts used up. */
  predicate GivesUp(cfg: Settings, db: Db, in_: Inputs)
    requires Meets(db, in_)
  {
    FailsForGood(cfg, db, in_) || (FailsForNow(cfg, db, in_) && !MayRetry(db, in_))
  }

  /** The step is an execution of `k` that gives it up. */
  predicate GivesUpOn(cfg: Settings, w: World, step: Step, k: JobKey)
  {
    step.Execute? && step.in_.pick == Some(k) && Meets(w.db, step.in_) && GivesUp(cfg, w.db, step.in_)
  }

  lemma ExecuteFails(cfg: Settings, w: World, in_: Inputs, k: JobKey)
    requires Possible(w.db, in_) && !IsFailed(w, k) && IsFailed(ExecuteWorld(cfg, w, in_), k)
    ensures GivesUpOn(cfg, w, Execute(in_), k)
  {
    if in_.pick.Some? {
      Scheduling.ExecuteJobs(cfg, w.db, in_);
      HowJobsEnd(cfg, w.db, in_);
    }
  }

  lemma StepFails(cfg: Settings, w: World, step: Step, k: JobKey)
    requires Enabled(cfg, w, step) && !IsFailed(w, k) && IsFailed(Next(cfg, w, step), k)
    ensures GivesUpOn(cfg, w, step, k)
  {
    match step
    case Execute(in_) => ExecuteFails(cfg, w, in_, k);
    case EnqueuePending(org, c, records, at) => Scheduling.EnqueueAllJobs(w.db, org, c, records, at);
    case _ =>
  }

  /** No job is FAILED without a reason: somewhere in the run an execution of it met one of the
      permanent causes, or a passing one with no attempt left. In particular no full counter, no
      pacing, no pause, no lost lease and no crash ever fails a job by itself. */
  lemma {:induction false} FailedHasCause(cfg: Settings, w: World, steps: seq<Step>, k: JobKey) returns (i: nat)
    requires Fresh(w) && Legal(cfg, w, steps) && IsFailed(After(cfg, w, steps), k)
    ensures i < |steps| && Legal(cfg, w, steps[..i]) && GivesUpOn(cfg, After(cfg, w, steps[..i]), steps[i], k)
  {
    var n := |steps| - 1;
    if IsFailed(After(cfg, w, steps[..n]), k) {
      i := FailedHasCause(cfg, w, steps[..n], k);
      assert steps[..n][..i] == steps[..i];
    } else {
      i := n;
      StepFails(cfg, After(cfg, w, steps[..n]), steps[n], k);
    }
  }

  // ---- How many failures it takes ---------------------------------------------------------

  /** A passing failure is the end of a job exactly when this attempt, the recorded ones, the
      postponements and the lost leases of the run together use up its three attempts: waiting
      for a counter costs a retry just as failing does. */
  lemma PassingFailureEndsIff(cfg: Settings, w: World, steps: seq<Step>, end: World, in_: Inputs)
    requires Reaches(cfg, w, steps, end) && Meets(end.db, in_) && FailsForNow(cfg, end.db, in_)
    ensures var k := in_.pick.value;
            var row := end.db.jobs[k];
            var used := |row.attempts| + SendRuns.Postponements(cfg, w, steps, k) + SendRuns.LostLeases(cfg, w, steps, k)
                        + One(row.status == JobStatus.Processing);
            && (JobAfter(cfg, end.db, in_).status == JobStatus.Failed <==> used + 1 >= 3)
            && (JobAfter(cfg, end.db, in_).status == JobStatus.RetryWait <==> used + 1 < 3)
  {
    var k := in_.pick.value;
    SendRuns.AuditTrail(cfg, w, steps, end, k);
    SendRuns.RunKeepsInv(cfg, w, steps);
    SendRuns.RowDefaults(end, k);
    HowJobsEnd(cfg, end.db, in_);
  }

  // ---- Starting a campaign ----------------------------------------------------------------

  /** Enqueuing changes neither who a record belongs to nor what it is for, and gives every listed
      record its job. */
  lemma {:induction false} EnqueueAllCovers(db: Db, org: int, c: int, records: seq<int>, at: int)
    requires forall e <- records :: e in db.emails
    ensures var after := EnqueueAll(db, org, c, records, at);
            && (forall e <- db.emails :: after.emails[e].org == db.emails[e].org && after.emails[e].campaign == db.emails[e].campaign)
            && (forall e <- records :: JobKey(org, c, db.emails[e].lead, e) in after.jobs)
  {
    if records != [] {
      EnqueueAllCovers(db, org, c, records[..|records| - 1], at);
    }
  }

  lemma PendingHasNoJob(cfg: Settings, w: World, steps: seq<Step>, end: World, e: int, k: JobKey)
    requires Reaches(cfg, w, steps, end) && e in end.db.emails && end.db.emails[e].status == EmailStatus.Pending
    requires var rec := end.db.emails[e]; rec.campaign.Some? && k == JobKey(rec.org, rec.campaign.value, rec.lead, e)
    ensures k !in end.db.jobs
  {
    SendRuns.RecordAndJobInLockstep(cfg, w, steps, end, e);
  }

  lemma NewJobIsClaimable(db: Db, org: int, c: int, records: seq<int>, at: int, e: int, t: int)
    requires (forall r <- records :: r in db.emails) && e in records
    requires c in db.campaigns && db.campaigns[c].status == CampaignStatus.Active
    requires JobKey(org, c, db.emails[e].lead, e) !in db.jobs
    ensures Eligible(EnqueueAll(db, org, c, records, at), JobKey(org, c, db.emails[e].lead, e), t) <==> at <= t
  {
    EnqueueAllCovers(db, org, c, records, at);
    Scheduling.EnqueueAllJobs(db, org, c, records, at);
    SendRates.EnqueueAllAccounts(db, org, c, records, at);
  }

  /** Starting a campaign works: whenever and however often it is started, every PENDING record of
      it can be claimed from the moment the start commits. */
  lemma StartMakesClaimable(cfg: Settings, w: World, steps: seq<Step>, end: World, org: int, c: int, at: int, records: seq<int>, at': int, e: int, t: int)
    requires Reaches(cfg, w, steps, end) && Enabled(cfg, end, Activate(org, c, at))
    requires Enabled(cfg, Next(cfg, end, Activate(org, c, at)), EnqueuePending(org, c, records, at'))
    requires e in end.db.emails
    requires var rec := end.db.emails[e]; rec.org == org && rec.campaign == Some(c) && rec.status == EmailStatus.Pending
    ensures var after := Next(cfg, Next(cfg, end, Activate(org, c, at)), EnqueuePending(org, c, records, at'));
            Eligible(after.db, JobKey(org, c, end.db.emails[e].lead, e), t) <==> at' <= t
  {
    var mid := Next(cfg, end, Activate(org, c, at));
    PendingHasNoJob(cfg, w, steps, end, e, JobKey(org, c, end.db.emails[e].lead, e));
    assert PendingFor(mid.db, org, c, e);
    NewJobIsClaimable(mid.db, org, c, records, at', e, t);
  }

  /** A generated email is sent like any other: its record is for the lead, PENDING, and can be
      claimed once its campaign is started. The lead is EMAIL_GENERATED; nothing else is written. */
  lemma GeneratedIsClaimable(cfg: Settings, w: World, steps: seq<Step>, end: World, e: int, l: int, c: int, at: int, records: seq<int>, at': int, t: int)
    requires Reaches(cfg, w, steps, end) && Enabled(cfg, end, Generate(e, l, Some(c)))
    requires var org, made := end.db.leads[l].org, Next(cfg, end, Generate(e, l, Some(c)));
             Enabled(cfg, made, Activate(org, c, at)) && Enabled(cfg, Next(cfg, made, Activate(org, c, at)), EnqueuePending(org, c, records, at'))
    ensures var org, made := end.db.leads[l].org, Next(cfg, end, Generate(e, l, Some(c)));
            && made.db.leads == end.db.leads[l := end.db.leads[l].(status := LeadStatus.EmailGenerated)]
            && made.db == end.db.(leads := made.db.leads, emails := made.db.emails) && made.db.emails - {e} == end.db.emails
            && var after := Next(cfg, Next(cfg, made, Activate(org, c, at)), EnqueuePending(org, c, records, at')).db;
               (Eligible(after, JobKey(org, c, l, e), t) <==> at' <= t)
  {
    var org, made := end.db.leads[l].org, Next(cfg, end, Generate(e, l, Some(c)));
    OneMore(cfg, w, steps, Generate(e, l, Some(c)));
    StartMakesClaimable(cfg, w, steps + [Generate(e, l, Some(c))], made, org, c, at, records, at', e, t);
  }

  // ---- Whose lead is contacted ------------------------------------------------------------

  /** Every record is for a lead of its own organization. */
  predicate LeadsOwned(db: Db)
  {
    forall e <- db.emails :: db.emails[e].lead in db.leads ==> db.leads[db.emails[e].lead].org == db.emails[e].org
  }

  /** Nothing is written that says whose a record or a lead is. */
  predicate SameOwners(before: Db, after: Db)
  {
    && after.emails.Keys == before.emails.Keys && after.leads.Keys == before.leads.Keys
    && (forall e <- before.emails :: after.emails[e].org == before.emails[e].org && after.emails[e].lead == before.emails[e].lead)
    && (forall l <- before.leads :: after.leads[l].org == before.leads[l].org)
  }

  lemma SameOwnersKeep(before: Db, after: Db)
    requires LeadsOwned(before) && SameOwners(before, after)
    ensures LeadsOwned(after)
  {
  }

  lemma ExecuteKeepsOwners(cfg: Settings, db: Db, in_: Inputs)
    requires Possible(db, in_)
    ensures SameOwners(db, WorkerSpec.Execute(cfg, db, in_))
  {
    if in_.pick.Some? {
      HowJobsEnd(cfg, db, in_);
      RecordsWritten(cfg, db, in_);
      LeadAndCampaignWritten(cfg, db, in_);
    }
  }

  lemma EnqueueKeepsOwners(db: Db, org: int, c: int, records: seq<int>, at: int)
    requires forall e <- records :: e in db.emails
    ensures SameOwners(db, EnqueueAll(db, org, c, records, at))
  {
    EnqueueAllCovers(db, org, c, records, at);
    SendRates.EnqueueAllAccounts(db, org, c, records, at);
  }

  lemma StepKeepsLeadsOwned(cfg: Settings, w: World, step: Step)
    requires Enabled(cfg, w, step) && LeadsOwned(w.db)
    ensures LeadsOwned(Next(cfg, w, step).db)
  {
    match step
    case Execute(in_) =>
      ExecuteKeepsOwners(cfg, w.db, in_);
      SameOwnersKeep(w.db, Next(cfg, w, step).db);
    case EnqueuePending(org, c, records, at) =>
      EnqueueKeepsOwners(w.db, org, c, records, at);
      SameOwnersKeep(w.db, Next(cfg, w, step).db);
    case _ =>
  }

  lemma {:induction false} RunKeepsLeadsOwned(cfg: Settings, w: World, steps: seq<Step>)
    requires Legal(cfg, w, steps) && LeadsOwned(w.db)
    ensures LeadsOwned(After(cfg, w, steps).db)
  {
    if steps != [] {
      var n := |steps| - 1;
      RunKeepsLeadsOwned(cfg, w, steps[..n]);
      StepKeepsLeadsOwned(cfg, After(cfg, w, steps[..n]), steps[n]);
    }
  }

  /** Where every record is for a lead of its own organization to begin with, no dispatch of any run
      reaches a lead of another one, generated records included. */
  lemma DispatchReachesOwnLead(cfg: Settings, w: World, steps: seq<Step>, end: World, in_: Inputs)
    requires Reaches(cfg, w, steps, end) && LeadsOwned(w.db) && Meets(end.db, in_) && Dispatches(cfg, end.db, in_)
    ensures in_.pick.value.lead in end.db.leads && end.db.leads[in_.pick.value.lead].org == in_.pick.value.org
  {
    RunKeepsLeadsOwned(cfg, w, steps);
    HowJobsEnd(cfg, end.db, in_);
    SendRuns.OneJobPerRecord(cfg, w, steps, end, in_.pick.value, in_.pick.value);
  }
}

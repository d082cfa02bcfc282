/** Concrete production runs against four promises of the documentation: a lost worker and a lost
    answer each make a provider take one email twice, an enrichment makes it contact a lead that
    has unsubscribed, and a passing failure is the end of a job that was held back before. */
module Counterexamples {
  import opened Text
  import opened Records
  import opened JobRows
  import opened QueueSpec
  import opened PolicySpec
  import opened WorkerSpec
  import opened World
  import opened MailRuns
  import opened RecordHistory
  import opened Outcomes
  import Resends
  import Scheduling
  import Suppression

  /** Production, with the default limits. */
  const CFG: Settings := Settings(true, 15, 50, 5.0, 30)

  const KEY: JobKey := JobKey(1, 1, 1, 1)

  const ENQUEUE: Step := EnqueuePending(1, 1, [1], 0)

  /** One lead, one active campaign, one PENDING record, one healthy account with credentials. */
  function Start(): World
  {
    World(Db(map[], map[1 := EmailRecord(1, 1, Some(1), EmailStatus.Pending, None, None)],
             map[1 := Lead(1, "lead@example.com", LeadStatus.EmailGenerated)],
             map[1 := Campaign(1, CampaignStatus.Active, 100, 0, 0)],
             map[1 := Account(1, true, true, true, 0, 0, None, None)], {}, map[]),
          Ledger(map[], map[], map[], map[], map[]), 0)
  }

  /** The world once the job is stored. */
  function Enqueued(): World { EnqueueWorld(Start(), 1, 1, [1], 0) }

  /** An execution at one instant whose message the provider takes. */
  function Attempt(at: int, reply: SendResult): Inputs
  {
    Inputs("worker", Clock(at, at, at, at), {}, Some(KEY), Some(1), true, reply, true)
  }

  lemma EnqueuedRow()
    ensures Enabled(CFG, Start(), ENQUEUE) && Next(CFG, Start(), ENQUEUE) == Enqueued()
    ensures Enqueued().db == Start().db.(
              jobs := map[KEY := NewJob(KEY, 0, 0, DEFAULT_MAX_ATTEMPTS)],
              emails := map[1 := EmailRecord(1, 1, Some(1), EmailStatus.Queued, None, None)])
  {
    var db := Start().db;
    assert [1][..0] == [];
    assert EnqueueAll(db, 1, 1, [], 0) == db;
    assert EnqueueAll(db, 1, 1, [1], 0) == Enqueue(db, KEY, 0, 0, DEFAULT_MAX_ATTEMPTS);
  }

  /** The start is fresh, and the enqueuing leads to the stored job. */
  lemma FirstStep()
    ensures Reaches(CFG, Start(), [ENQUEUE], Enqueued())
  {
    EnqueuedRow();
    OneMore(CFG, Start(), [], ENQUEUE);
    assert [] + [ENQUEUE] == [ENQUEUE];
  }

  /** The lead may be contacted in `db`, which differs from the enqueued world in its lead only. */
  lemma AttemptDispatches(db: Db, status: LeadStatus, at: int, reply: SendResult)
    requires db == Enqueued().db.(leads := map[1 := Lead(1, "lead@example.com", status)])
    requires !status.Unsubscribed? && !status.Bounced? && 0 <= at && ProviderReply(reply)
    ensures Possible(db, Attempt(at, reply)) && Dispatches(CFG, db, Attempt(at, reply))
  {
    EnqueuedRow();
    var in_ := Attempt(at, reply);
    assert ReapedJobs(db.jobs, at) == map[KEY := NewJob(KEY, 0, 0, DEFAULT_MAX_ATTEMPTS)];
    assert Eligible(Seen(db, in_), KEY, at);
    assert Limits(CFG, Rolled(db.accounts[1], at), db.campaigns[1], at).Allowed?;
  }

  lemma FirstAttempt(reply: SendResult)
    requires ProviderReply(reply)
    ensures Enabled(CFG, Enqueued(), Execute(Attempt(1, reply))) && Delivers(CFG, Enqueued().db, Attempt(1, reply))
  {
    EnqueuedRow();
    AttemptDispatches(Enqueued().db, LeadStatus.EmailGenerated, 1, reply);
  }

  const CONFIRMED: SendResult := SendResult(true, Some("id"), false)

  /** What the code makes of a connection that drops after the message went out. */
  const DROPPED: SendResult := SendResult(false, None, true)

  /** "Mid-flight worker kills never duplicate prospect emails" fails. */
  lemma LostWorkerDuplicates() returns (steps: seq<Step>)
    ensures Fresh(Start()) && Legal(CFG, Start(), steps)
    ensures RunTally(CFG, Start(), steps, 1).taken >= 2
  {
    FirstStep();
    FirstAttempt(CONFIRMED);
    var second := Resends.LostWorkerThenResent(CFG, Start(), [ENQUEUE], Enqueued(), Attempt(1, CONFIRMED));
    steps := [ENQUEUE] + [Killed(Attempt(1, CONFIRMED), true), Execute(second)];
  }

  lemma DroppedIsRetried()
    ensures Resends.WillRetry(Enqueued(), Attempt(1, DROPPED))
  {
    EnqueuedRow();
  }

  /** "Network timeouts never duplicate prospect emails" fails, with every worker surviving. */
  lemma LostAnswerDuplicates() returns (steps: seq<Step>)
    ensures Fresh(Start()) && Legal(CFG, Start(), steps)
    ensures RunTally(CFG, Start(), steps, 1).taken >= 2 && forall step <- steps :: !step.Killed?
  {
    FirstStep();
    FirstAttempt(DROPPED);
    DroppedIsRetried();
    steps := ResentAfterDrop([ENQUEUE], Attempt(1, DROPPED));
  }

  lemma ResentAfterDrop(before: seq<Step>, first: Inputs) returns (steps: seq<Step>)
    requires Reaches(CFG, Start(), before, Enqueued()) && forall step <- before :: !step.Killed?
    requires Enabled(CFG, Enqueued(), Execute(first)) && Delivers(CFG, Enqueued().db, first) && Resends.WillRetry(Enqueued(), first)
    ensures Legal(CFG, Start(), steps)
    ensures RunTally(CFG, Start(), steps, first.pick.value.email).taken >= 2 && forall step <- steps :: !step.Killed?
  {
    var second := Resends.LostAnswerThenResent(CFG, Start(), before, Enqueued(), first);
    steps := before + [Execute(first), Execute(second)];
  }

  // ---- An opt-out that does not last ------------------------------------------------------

  /** The fresh start, with a lead that has unsubscribed. */
  function OptedOutStart(): World
  {
    Start().(db := Start().db.(leads := map[1 := Lead(1, "lead@example.com", LeadStatus.Unsubscribed)]))
  }

  /** The enqueued world with another status of the lead. */
  function WithLead(status: LeadStatus): World
  {
    Enqueued().(db := Enqueued().db.(leads := map[1 := Lead(1, "lead@example.com", status)]))
  }

  lemma OptedOutEnqueued()
    ensures Enabled(CFG, OptedOutStart(), ENQUEUE) && Next(CFG, OptedOutStart(), ENQUEUE) == WithLead(LeadStatus.Unsubscribed)
  {
    EnqueuedRow();
    var db := OptedOutStart().db;
    assert [1][..0] == [];
    assert EnqueueAll(db, 1, 1, [], 0) == db;
    assert EnqueueAll(db, 1, 1, [1], 0) == Enqueue(db, KEY, 0, 0, DEFAULT_MAX_ATTEMPTS);
  }

  lemma OptOutReached(nothing: seq<Step>)
    requires nothing == []
    ensures Reaches(CFG, OptedOutStart(), nothing + [ENQUEUE], WithLead(LeadStatus.Unsubscribed))
  {
    OptedOutEnqueued();
    OneMore(CFG, OptedOutStart(), nothing, ENQUEUE);
  }

  lemma OptOutEnriched(steps: seq<Step>)
    requires Reaches(CFG, OptedOutStart(), steps, WithLead(LeadStatus.Unsubscribed))
    ensures Reaches(CFG, OptedOutStart(), steps + [Enrich(1)], WithLead(LeadStatus.Enriched))
  {
    OneMore(CFG, OptedOutStart(), steps, Enrich(1));
  }

  /** In a fresh database a lead has unsubscribed; its PENDING record is enqueued, and one
      enrichment later a worker has it contacted. */
  lemma UnsubscribedIsContacted() returns (steps: seq<Step>, optedOut: World, enriched: World, contact: Step)
    ensures Suppression.StatusBlocked(OptedOutStart().db, 1)
    ensures Reaches(CFG, OptedOutStart(), steps, optedOut) && Suppression.StatusBlocked(optedOut.db, 1)
    ensures Reaches(CFG, OptedOutStart(), steps + [Enrich(1)], enriched)
    ensures Enabled(CFG, enriched, contact) && Suppression.Contacts(CFG, enriched, contact, 1)
  {
    OptOutReached([]);
    steps, optedOut, enriched := [] + [ENQUEUE], WithLead(LeadStatus.Unsubscribed), WithLead(LeadStatus.Enriched);
    OptOutEnriched(steps);
    contact := Execute(Attempt(1, CONFIRMED));
    AttemptDispatches(enriched.db, LeadStatus.Enriched, 1, CONFIRMED);
  }

  // ---- Waiting uses up the retries --------------------------------------------------------

  /** The same settings with an hourly limit of 0, which stops all sending for a while. */
  const STOPPED: Settings := CFG.(hourlyLimit := 0)

  /** The one job is queued after `n` attempts, none of which failed. */
  predicate QueuedAfter(w: World, n: nat)
  {
    && w.db.jobs.Keys == {KEY} && w.db.accounts.Keys == {1}
    && (var row := w.db.jobs[KEY];
        row.status.Queued? && row.attemptCount == n && row.attempts == [] && row.maxAttempts == 3)
    && 1 in w.db.emails && 1 in w.db.campaigns
    && w.db.campaigns[1] == Campaign(1, CampaignStatus.Active, 100, 0, 0)
    && w.db.leads == map[1 := Lead(1, "lead@example.com", LeadStatus.EmailGenerated)] && w.db.suppressed == {}
    && (var account := w.db.accounts[1];
        account.org == 1 && account.active && account.healthy && account.hasCredentials && account.sendsToday == 0)
  }

  /** The next execution, as soon as the job is due. */
  function NextAttempt(w: World): Inputs
    requires KEY in w.db.jobs
  {
    Attempt(Max(w.now, w.db.jobs[KEY].scheduledFor), DROPPED)
  }

  lemma DueAgain(db: Db, w: World, n: nat)
    requires QueuedAfter(w, n) && db == w.db.(accounts := db.accounts) && db.accounts.Keys == {1}
    requires var account := db.accounts[1]; account.org == 1 && account.active && account.healthy
    ensures Meets(db, NextAttempt(w))
  {
    var in_ := NextAttempt(w);
    assert ReapedJobs(db.jobs, in_.clock.reap) == db.jobs;
    assert Eligible(Seen(db, in_), KEY, in_.clock.claim);
  }

  lemma HeldBackRow(w: World, n: nat)
    requires QueuedAfter(w, n) && Meets(w.db, NextAttempt(w))
    ensures Waits(STOPPED, w.db, NextAttempt(w))
    ensures var jobs := ExecuteWorld(STOPPED, w, NextAttempt(w)).db.jobs;
            && jobs.Keys == {KEY}
            && (var row := jobs[KEY]; row.status.Queued? && row.attemptCount == n + 1 && row.attempts == [] && row.maxAttempts == 3)
  {
    var in_ := NextAttempt(w);
    Scheduling.ExecuteJobs(STOPPED, w.db, in_);
    HowJobsEnd(STOPPED, w.db, in_);
    WhatIsAudited(STOPPED, w.db, in_);
  }

  /** The limit holds the job back, which counts as an attempt. */
  lemma HeldBackAgain(steps: seq<Step>, w: World, n: nat) returns (w': World)
    requires Reaches(STOPPED, Start(), steps, w) && QueuedAfter(w, n)
    ensures Reaches(STOPPED, Start(), steps + [Execute(NextAttempt(w))], w') && QueuedAfter(w', n + 1)
  {
    var in_ := NextAttempt(w);
    w' := ExecuteWorld(STOPPED, w, in_);
    DueAgain(w.db, w, n);
    HeldBackRow(w, n);
    RecordsWritten(STOPPED, w.db, in_);
    LeadAndCampaignWritten(STOPPED, w.db, in_);
    AccountsWritten(STOPPED, w.db, in_);
    OneMore(STOPPED, Start(), steps, Execute(in_));
  }

  lemma StoppedStart(nothing: seq<Step>)
    requires nothing == []
    ensures Reaches(STOPPED, Start(), nothing + [ENQUEUE], Enqueued()) && QueuedAfter(Enqueued(), 0)
  {
    EnqueuedRow();
    OneMore(STOPPED, Start(), nothing, ENQUEUE);
  }

  const NO_CREDENTIALS: Step := SetAccount(1, true, true, false)

  lemma GivenUp(steps: seq<Step>, w: World) returns (end: World)
    requires Reaches(STOPPED, Start(), steps, w) && QueuedAfter(w, 2)
    ensures Reaches(STOPPED, Start(), steps + [NO_CREDENTIALS] + [Execute(NextAttempt(w))], end)
    ensures KEY in end.db.jobs && end.db.jobs[KEY].status.Failed? && |end.db.jobs[KEY].attempts| == 1
  {
    var bare, in_ := Next(STOPPED, w, NO_CREDENTIALS), NextAttempt(w);
    OneMore(STOPPED, Start(), steps, NO_CREDENTIALS);
    DueAgain(bare.db, w, 2);
    HowJobsEnd(STOPPED, bare.db, in_);
    WhatIsAudited(STOPPED, bare.db, in_);
    OneMore(STOPPED, Start(), steps + [NO_CREDENTIALS], Execute(in_));
    end := ExecuteWorld(STOPPED, bare, in_);
  }

  /** A job is FAILED by its first failure, one that may pass (the account is without credentials
      for a while): an hourly limit had held it back twice before. */
  lemma FirstFailureEnds() returns (steps: seq<Step>, end: World)
    ensures Reaches(STOPPED, Start(), steps, end)
    ensures KEY in end.db.jobs && end.db.jobs[KEY].status.Failed? && |end.db.jobs[KEY].attempts| == 1
  {
    StoppedStart([]);
    steps := [] + [ENQUEUE];
    var once := HeldBackAgain(steps, Enqueued(), 0);
    steps := steps + [Execute(NextAttempt(Enqueued()))];
    var twice := HeldBackAgain(steps, once, 1);
    steps := steps + [Execute(NextAttempt(once))];
    end := GivenUp(steps, twice);
    steps := steps + [NO_CREDENTIALS] + [Execute(NextAttempt(twice))];
  }
}

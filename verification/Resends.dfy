/** The window between a provider's taking of a message and the commit of its answer is real for
    every job in every reachable state: a second execution of the same job can follow and is
    taken too. */
module Resends {
  import opened Text
  import opened Records
  import opened JobRows
  import opened QueueSpec
  import opened PolicySpec
  import opened WorkerSpec
  import opened World
  import opened RecordHistory
  import opened MailRuns
  import CampaignRuns
  import Scheduling
  import SendRates

  // ---- The gate stays open ----------------------------------------------------------------

  /** The counter rules only loosen with time, unless the stored reset day lies ahead. */
  lemma LimitsLoosen(cfg: Settings, account: Account, campaign: Campaign, t: int, later: int)
    requires t <= later && Limits(cfg, Rolled(account, t), campaign, t).Allowed?
    requires DayRolled(account, t) ==> DayRolled(account, later)
    ensures Limits(cfg, Rolled(account, later), campaign, later).Allowed?
  {
  }

  /** Two databases a worker's ruling on job `k` cannot tell apart. */
  predicate SameForRuling(db: Db, db': Db, k: JobKey, account: Option<int>)
  {
    && RefsPresent(db, k) && RefsPresent(db', k)
    && db'.leads[k.lead] == db.leads[k.lead] && db'.campaigns[k.campaign] == db.campaigns[k.campaign]
    && db'.suppressed == db.suppressed
    && db'.emails[k.email].status == db.emails[k.email].status && db'.emails[k.email].messageId == db.emails[k.email].messageId
    && (account.Some? ==> account.value in db.accounts && account.value in db'.accounts
                          && SameSender(db.accounts[account.value], db'.accounts[account.value]))
  }

  predicate SameSender(a: Account, b: Account)
  {
    a.active == b.active && a.healthy == b.healthy && a.hasCredentials == b.hasCredentials
  }

  /** The account's counters let a message through now and at `later`. */
  predicate LimitsPass(cfg: Settings, db: Db, k: JobKey, account: Option<int>, now: int)
    requires k.campaign in db.campaigns
  {
    account.Some? && account.value in db.accounts ==>
      Limits(cfg, Rolled(db.accounts[account.value], now), db.campaigns[k.campaign], now).Allowed?
  }

  lemma DispatchMeans(cfg: Settings, db: Db, k: JobKey, account: Option<int>, decrypts: bool, now: int)
    requires Rule(cfg, db, k, account, decrypts, now).Dispatch?
    requires account.Some? ==> account.value in db.accounts
    ensures RefsPresent(db, k) && LimitsPass(cfg, db, k, account, now)
  {
  }

  lemma SameRuling(cfg: Settings, db: Db, db': Db, k: JobKey, account: Option<int>, decrypts: bool, now: int, later: int)
    requires Rule(cfg, db, k, account, decrypts, now).Dispatch? && SameForRuling(db, db', k, account)
    requires LimitsPass(cfg, db', k, account, later)
    ensures Rule(cfg, db', k, account, decrypts, later).Dispatch?
  {
  }

  // ---- A second execution -----------------------------------------------------------------

  const DELIVERED: SendResult := SendResult(true, Some("id"), false)

  /** Another worker, at one instant, finds every other row locked, meets the same account, and
      the provider takes and confirms the message. */
  function Again(db: Db, first: Inputs, at: int): Inputs
    requires first.pick.Some?
  {
    Inputs(first.worker, Clock(at, at, at, at), db.jobs.Keys - {first.pick.value}, first.pick, first.account, first.decrypts,
           DELIVERED, true)
  }

  lemma AgainPossible(db: Db, first: Inputs, at: int)
    requires first.pick.Some? && first.pick.value in db.jobs && ActiveCampaign(db, first.pick.value.campaign)
    requires Due(Reaped(db.jobs[first.pick.value], at), at)
    requires IsAccountChoice(db, first.pick.value.org, first.account)
    ensures Possible(db, Again(db, first, at))
  {
    var second := Again(db, first, at);
    assert Eligible(Seen(db, second), first.pick.value, at);
  }

  lemma AgainDelivers(cfg: Settings, db: Db, first: Inputs, db': Db, at: int)
    requires first.pick.Some? && first.pick.value in db.jobs && first.pick.value in db'.jobs
    requires Dispatches(cfg, db, first)
    requires SameForRuling(db, db', first.pick.value, first.account)
    requires LimitsPass(cfg, db', first.pick.value, first.account, at)
    ensures Delivers(cfg, db', Again(db', first, at))
  {
    var k, second := first.pick.value, Again(db', first, at);
    SameRuling(cfg, Held(db, first), Held(db', second), k, first.account, first.decrypts, first.clock.policy, at);
  }

  /** The run goes on with two executions of the same job that the provider takes. */
  lemma TwoMore(cfg: Settings, w: World, steps: seq<Step>, a: Step, b: Step, e: int)
    requires Legal(cfg, w, steps) && Enabled(cfg, After(cfg, w, steps), a)
    requires Enabled(cfg, Next(cfg, After(cfg, w, steps), a), b)
    requires Takes(cfg, After(cfg, w, steps), a, e) && Takes(cfg, Next(cfg, After(cfg, w, steps), a), b, e)
    ensures Legal(cfg, w, steps + [a, b])
    ensures RunTally(cfg, w, steps + [a, b], e).taken == RunTally(cfg, w, steps, e).taken + 2
  {
    OneMore(cfg, w, steps, a);
    OneMore(cfg, w, steps + [a], b);
    OneMoreTally(cfg, w, steps, a, e);
    OneMoreTally(cfg, w, steps + [a], b, e);
    assert steps + [a] + [b] == steps + [a, b];
  }

  // ---- After a lost worker ----------------------------------------------------------------

  /** When the second worker comes: at once, or a day later if the account's stored reset day is
      the very day the first one finished on, but lay ahead of its policy check. */
  function RetryTime(db: Db, first: Inputs): int
  {
    var finish := first.clock.finish;
    if first.account.Some? && first.account.value in db.accounts
       && DayRolled(db.accounts[first.account.value], first.clock.policy) && !DayRolled(db.accounts[first.account.value], finish)
    then finish + DAY else finish
  }

  lemma RetryLimits(cfg: Settings, db: Db, first: Inputs)
    requires Possible(db, first) && Dispatches(cfg, db, first)
    ensures first.pick.value.campaign in db.campaigns
    ensures LimitsPass(cfg, db, first.pick.value, first.account, RetryTime(db, first))
  {
    var k, at := first.pick.value, RetryTime(db, first);
    DispatchMeans(cfg, Held(db, first), k, first.account, first.decrypts, first.clock.policy);
    if first.account.Some? {
      var account := db.accounts[first.account.value];
      assert DayRolled(account, first.clock.policy) ==> DayRolled(account, at);
      LimitsLoosen(cfg, account, db.campaigns[k.campaign], first.clock.policy, at);
    }
  }

  lemma StillDue(w: World, first: Inputs, at: int)
    requires Scheduling.ProcessingIsDue(w) && w.now <= first.clock.reap && Possible(w.db, first) && first.pick.Some?
    requires first.clock.finish <= at
    ensures first.pick.value in w.db.jobs && Due(Reaped(w.db.jobs[first.pick.value], at), at)
  {
  }

  /** Lost in that window, any job of any reachable state can be sent again: wherever an
      execution that the provider takes is possible and its worker is lost before the commit, a
      second execution of the job can follow, within a day, that the provider takes too. */
  lemma LostWorkerThenResent(cfg: Settings, w: World, steps: seq<Step>, end: World, first: Inputs) returns (second: Inputs)
    requires Reaches(cfg, w, steps, end) && Enabled(cfg, end, Execute(first)) && Delivers(cfg, end.db, first)
    ensures second.pick == first.pick && first.clock.finish <= second.clock.reap <= first.clock.finish + DAY
    ensures var more := steps + [Killed(first, true), Execute(second)];
            Legal(cfg, w, more)
            && RunTally(cfg, w, more, first.pick.value.email).taken == RunTally(cfg, w, steps, first.pick.value.email).taken + 2
  {
    var k, at := first.pick.value, RetryTime(end.db, first);
    Scheduling.RunKeepsProcessingDue(cfg, w, steps);
    StillDue(end, first, at);
    RetryLimits(cfg, end.db, first);
    second := Again(end.db, first, at);
    AgainPossible(end.db, first, at);
    AgainDelivers(cfg, end.db, first, end.db, at);
    TwoMore(cfg, w, steps, Killed(first, true), Execute(second), k.email);
  }

  // ---- After a lost answer ----------------------------------------------------------------

  /** The worker commits a failure with budget left, as after a dropped connection. */
  predicate WillRetry(w: World, in_: Inputs)
  {
    in_.pick.Some? && in_.pick.value in w.db.jobs && !in_.reply.success && Retries(HeldRow(w, in_), in_.reply.retryable)
  }

  lemma RetriedRow(cfg: Settings, w: World, first: Inputs)
    requires Possible(w.db, first) && Dispatches(cfg, w.db, first) && WillRetry(w, first)
    ensures var k, after := first.pick.value, WorkerSpec.Execute(cfg, w.db, first);
            && k in after.jobs && after.jobs[k] == AfterFailure(HeldRow(w, first), first.worker, true, first.clock.finish)
            && after.jobs[k].status.RetryWait? && after.jobs[k].scheduledFor > first.clock.finish
  {
    Scheduling.ExecuteJobs(cfg, w.db, first);
    Pow2Monotone(0, Max(0, HeldRow(w, first).attemptCount - 1));
  }

  /** A failed attempt leaves the lead, the campaign, the record and the suppression list as they
      were, and the account after its day rollover. */
  lemma RetriedRest(cfg: Settings, w: World, first: Inputs)
    requires Possible(w.db, first) && Dispatches(cfg, w.db, first) && WillRetry(w, first)
    ensures var after := WorkerSpec.Execute(cfg, w.db, first);
            && after.leads == w.db.leads && after.campaigns == w.db.campaigns && after.suppressed == w.db.suppressed
            && first.pick.value.email in w.db.emails && after.emails == w.db.emails
            && after.accounts == if first.account.None? then w.db.accounts
                                 else w.db.accounts[first.account.value := Rolled(w.db.accounts[first.account.value], first.clock.policy)]
  {
    CampaignRuns.ExecuteLeadsAndCampaigns(cfg, w.db, first);
    SendRates.ExecuteAccounts(cfg, w.db, first);
    if first.account.Some? {
      SendRates.DispatchWasAllowed(cfg, w.db, first);
    }
    DispatchMeans(cfg, Held(w.db, first), first.pick.value, first.account, first.decrypts, first.clock.policy);
    ExecuteWrites(cfg, w, first);
    assert WorkerSpec.Execute(cfg, w.db, first).emails == w.db.emails[first.pick.value.email := w.db.emails[first.pick.value.email]] by {
      assert RowAfter(HeldRow(w, first), RulingOf(cfg, w.db, first), first).status.RetryWait?;
    }
  }

  lemma RolledLimits(cfg: Settings, account: Account, campaign: Campaign, t: int, later: int)
    requires t <= later && Limits(cfg, Rolled(account, t), campaign, t).Allowed?
    ensures Limits(cfg, Rolled(Rolled(account, t), later), campaign, later).Allowed?
  {
    LimitsLoosen(cfg, Rolled(account, t), campaign, t, later);
  }

  /** The other half of the promise: wherever an execution that the provider takes is possible,
      its answer is lost and the job has an attempt left, the retry it commits can be taken too,
      with no worker lost. */
  lemma LostAnswerThenResent(cfg: Settings, w: World, steps: seq<Step>, end: World, first: Inputs) returns (second: Inputs)
    requires Reaches(cfg, w, steps, end) && Enabled(cfg, end, Execute(first)) && Delivers(cfg, end.db, first)
    requires WillRetry(end, first)
    ensures second.pick == first.pick
            && second.clock.reap == first.clock.finish + BackoffSeconds(HeldRow(end, first).attemptCount) * SECOND
    ensures var more := steps + [Execute(first), Execute(second)];
            Legal(cfg, w, more)
            && RunTally(cfg, w, more, first.pick.value.email).taken == RunTally(cfg, w, steps, first.pick.value.email).taken + 2
  {
    var k, after := first.pick.value, WorkerSpec.Execute(cfg, end.db, first);
    RetriedRow(cfg, end, first);
    RetriedRest(cfg, end, first);
    var at := after.jobs[k].scheduledFor;
    DispatchMeans(cfg, Held(end.db, first), k, first.account, first.decrypts, first.clock.policy);
    if first.account.Some? {
      RolledLimits(cfg, end.db.accounts[first.account.value], end.db.campaigns[k.campaign], first.clock.policy, at);
    }
    second := Again(after, first, at);
    AgainPossible(after, first, at);
    AgainDelivers(cfg, end.db, first, after, at);
    TwoMore(cfg, w, steps, Execute(first), Execute(second), k.email);
  }
}

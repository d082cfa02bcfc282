/** How the execution of a claimed job ends, read off the database before it and what the worker
    meets, with no reference to how the worker decides. */
module Outcomes {
  import opened Text
  import opened Records
  import opened JobRows
  import opened QueueSpec
  import opened PolicySpec
  import opened GateRules
  import opened WorkerSpec
  import opened World
  import Scheduling
  import CampaignRuns
  import SendRates
  import SendRuns
  import RecordHistory

  // ---- What the worker meets --------------------------------------------------------------

  /** A claimed job, and inputs that fit the database. */
  predicate Meets(db: Db, in_: Inputs)
  {
    Possible(db, in_) && in_.pick.Some?
  }

  predicate Unreferenced(db: Db, in_: Inputs)
    requires in_.pick.Some?
  {
    in_.pick.value.email !in db.emails || in_.pick.value.lead !in db.leads
  }

  /** The organization has no account to send from, or one without stored credentials. */
  predicate NoSender(db: Db, in_: Inputs)
  {
    in_.account.None? || in_.account.value !in db.accounts || !db.accounts[in_.account.value].hasCredentials
  }

  predicate Stranded(cfg: Settings, db: Db, in_: Inputs)
    requires in_.pick.Some?
  {
    !Unreferenced(db, in_) && NoSender(db, in_) && cfg.production
  }

  predicate Undecryptable(db: Db, in_: Inputs)
    requires in_.pick.Some?
  {
    !Unreferenced(db, in_) && !NoSender(db, in_) && !in_.decrypts
  }

  /** The gate is asked: whenever there is an account and the execution got that far. */
  predicate Gated(cfg: Settings, db: Db, in_: Inputs)
    requires in_.pick.Some?
  {
    && !Unreferenced(db, in_) && in_.account.Some? && in_.account.value in db.accounts
    && !Stranded(cfg, db, in_) && !Undecryptable(db, in_)
  }

  predicate OverBounceLimit(cfg: Settings, db: Db, in_: Inputs)
    requires Meets(db, in_)
  {
    Gated(cfg, db, in_) && !BouncesOk(cfg, db.campaigns[in_.pick.value.campaign])
  }

  predicate DoNotContact(cfg: Settings, db: Db, in_: Inputs)
    requires Meets(db, in_)
  {
    Gated(cfg, db, in_) && !MayContact(db, db.campaigns[in_.pick.value.campaign], db.leads[in_.pick.value.lead])
  }

  /** Refused for good by the gate. That the account is active and healthy and the campaign active
      is settled before: by the account query and by the claim. */
  predicate Barred(cfg: Settings, db: Db, in_: Inputs)
    requires Meets(db, in_)
  {
    DoNotContact(cfg, db, in_) || OverBounceLimit(cfg, db, in_)
  }

  /** Held back by a counter or by the pacing rule. */
  predicate Waits(cfg: Settings, db: Db, in_: Inputs)
    requires Meets(db, in_)
  {
    && Gated(cfg, db, in_) && !Barred(cfg, db, in_)
    && Holds(cfg, db.accounts[in_.account.value], db.campaigns[in_.pick.value.campaign], in_.clock.policy)
  }

  predicate Clear(cfg: Settings, db: Db, in_: Inputs)
    requires Meets(db, in_)
  {
    && !Unreferenced(db, in_) && !Stranded(cfg, db, in_) && !Undecryptable(db, in_)
    && !Barred(cfg, db, in_) && !Waits(cfg, db, in_)
  }

  predicate HasMessageId(rec: EmailRecord)
  {
    rec.status == EmailStatus.Sent && rec.messageId.Some? && rec.messageId.value != ""
  }

  /** The provider is asked. */
  predicate Asked(cfg: Settings, db: Db, in_: Inputs)
    requires Meets(db, in_)
  {
    Clear(cfg, db, in_) && !HasMessageId(db.emails[in_.pick.value.email])
  }

  predicate Accepts(reply: SendResult) { reply.success && reply.messageId.Some? && reply.messageId.value != "" }

  /** The number of this attempt, and whether another one may follow. */
  function Attempt(db: Db, in_: Inputs): nat
    requires Meets(db, in_)
  {
    db.jobs[in_.pick.value].attemptCount + 1
  }

  predicate MayRetry(db: Db, in_: Inputs)
    requires Meets(db, in_)
  {
    Attempt(db, in_) < db.jobs[in_.pick.value].maxAttempts
  }

  /** A failure that may pass: nothing to send from, or a provider that says so. */
  predicate FailsForNow(cfg: Settings, db: Db, in_: Inputs)
    requires Meets(db, in_)
  {
    Stranded(cfg, db, in_) || (Asked(cfg, db, in_) && !Accepts(in_.reply) && in_.reply.retryable)
  }

  predicate FailsForGood(cfg: Settings, db: Db, in_: Inputs)
    requires Meets(db, in_)
  {
    || Unreferenced(db, in_) || Undecryptable(db, in_) || Barred(cfg, db, in_)
    || (Asked(cfg, db, in_) && !Accepts(in_.reply) && !in_.reply.retryable)
  }

  predicate Succeeds(cfg: Settings, db: Db, in_: Inputs)
    requires Meets(db, in_)
  {
    Clear(cfg, db, in_) && (Asked(cfg, db, in_) ==> Accepts(in_.reply))
  }

  // ---- The ruling -------------------------------------------------------------------------

  lemma ClaimedRow(db: Db, in_: Inputs)
    requires Meets(db, in_)
    ensures var k, held := in_.pick.value, Held(db, in_);
            && k in db.jobs && k.campaign in db.campaigns && db.campaigns[k.campaign].status == CampaignStatus.Active
            && held == db.(jobs := held.jobs) && k in held.jobs
            && held.jobs[k].attemptCount == Attempt(db, in_) && held.jobs[k].maxAttempts == db.jobs[k].maxAttempts
            && held.jobs[k].attempts == db.jobs[k].attempts
  {
  }

  /** The gate's answer, when it is asked. */
  lemma GateAnswer(cfg: Settings, db: Db, in_: Inputs, seconds: int)
    requires Meets(db, in_) && Gated(cfg, db, in_) && seconds > 0
    ensures var k, held := in_.pick.value, Held(db, in_);
            && Consults(cfg, held, k, in_.account, in_.decrypts)
            && var decision := Consultation(cfg, held, k, in_.account.value, in_.clock.policy).decision;
            && (decision == Denied(0, false) <==> DoNotContact(cfg, db, in_))
            && (decision == Denied(0, true) <==> !DoNotContact(cfg, db, in_) && OverBounceLimit(cfg, db, in_))
            && (decision == Denied(seconds, false) <==>
                  !Barred(cfg, db, in_) && HeldFor(cfg, db.accounts[in_.account.value], db.campaigns[k.campaign], in_.clock.policy, seconds))
            && (decision == Allowed <==> !Barred(cfg, db, in_) && !Waits(cfg, db, in_))
            && (decision.Denied? ==> decision.delaySeconds >= 0 && (decision.delaySeconds > 0 ==> !decision.circuitBroken))
  {
    var k, held := in_.pick.value, Held(db, in_);
    ClaimedRow(db, in_);
    DecidingRule(cfg, held, held.accounts[in_.account.value], held.campaigns[k.campaign], held.leads[k.lead], in_.clock.policy, seconds);
  }

  lemma UngatedRuling(cfg: Settings, db: Db, in_: Inputs)
    requires Meets(db, in_) && !Gated(cfg, db, in_)
    ensures var ruling := RulingOf(cfg, db, in_);
            && (ruling == Missing <==> Unreferenced(db, in_))
            && (ruling == NoAccount <==> Stranded(cfg, db, in_))
            && (ruling == BadCredentials <==> Undecryptable(db, in_))
            && (ruling.AlreadySent? <==> Clear(cfg, db, in_) && !Asked(cfg, db, in_))
            && (ruling == Dispatch <==> Asked(cfg, db, in_))
            && !ruling.Delayed? && !ruling.Refused?
  {
    ClaimedRow(db, in_);
  }

  lemma GatedRuling(cfg: Settings, db: Db, in_: Inputs, seconds: int)
    requires Meets(db, in_) && Gated(cfg, db, in_) && seconds > 0
    ensures var ruling := RulingOf(cfg, db, in_);
            && (ruling == Refused(false) <==> DoNotContact(cfg, db, in_))
            && (ruling == Refused(true) <==> !DoNotContact(cfg, db, in_) && OverBounceLimit(cfg, db, in_))
            && (ruling == Delayed(seconds) <==>
                  !Barred(cfg, db, in_) && HeldFor(cfg, db.accounts[in_.account.value], db.campaigns[in_.pick.value.campaign], in_.clock.policy, seconds))
            && (ruling.AlreadySent? <==> Clear(cfg, db, in_) && !Asked(cfg, db, in_))
            && (ruling == Dispatch <==> Asked(cfg, db, in_))
            && (ruling.Delayed? <==> Waits(cfg, db, in_)) && (ruling.Delayed? ==> ruling.seconds > 0)
            && !ruling.Missing? && !ruling.NoAccount? && !ruling.BadCredentials?
  {
    GateAnswer(cfg, db, in_, seconds);
    ClaimedRow(db, in_);
  }

  lemma RulingMeans(cfg: Settings, db: Db, in_: Inputs)
    requires Meets(db, in_)
    ensures var ruling := RulingOf(cfg, db, in_);
            && (ruling.Delayed? <==> Waits(cfg, db, in_))
            && (ruling.NoAccount? <==> Stranded(cfg, db, in_))
            && (ruling.Dispatch? <==> Asked(cfg, db, in_))
            && (ruling.AlreadySent? <==> Clear(cfg, db, in_) && !Asked(cfg, db, in_))
            && (ruling == Refused(true) <==> !DoNotContact(cfg, db, in_) && OverBounceLimit(cfg, db, in_))
            && (ruling.Missing? || ruling.BadCredentials? || ruling.Refused? <==> Unreferenced(db, in_) || Undecryptable(db, in_) || Barred(cfg, db, in_))
  {
    if Gated(cfg, db, in_) {
      GatedRuling(cfg, db, in_, 1);
    } else {
      UngatedRuling(cfg, db, in_);
    }
  }

  // ---- The job ----------------------------------------------------------------------------

  /** The claimed job after the execution. */
  function JobAfter(cfg: Settings, db: Db, in_: Inputs): SendJob
    requires Meets(db, in_)
  {
    Scheduling.ExecuteJobs(cfg, db, in_);
    WorkerSpec.Execute(cfg, db, in_).jobs[in_.pick.value]
  }

  /** How every execution of a claimed job ends. A job fails for good at once if its lead or record
      is gone, its credentials do not decrypt, the gate bars it or the provider says so; it fails
      for now if there is nothing to send from or the provider says so, and then comes back as
      long as attempts are left; it is queued again if a counter or the pacing rule holds it back. */
  lemma HowJobsEnd(cfg: Settings, db: Db, in_: Inputs)
    requires Meets(db, in_)
    ensures var status := JobAfter(cfg, db, in_).status;
            && (status == JobStatus.Failed <==> FailsForGood(cfg, db, in_) || (FailsForNow(cfg, db, in_) && !MayRetry(db, in_)))
            && (status == JobStatus.RetryWait <==> FailsForNow(cfg, db, in_) && MayRetry(db, in_))
            && (status == JobStatus.Queued <==> Waits(cfg, db, in_))
            && (status == JobStatus.Sent <==> Succeeds(cfg, db, in_))
    ensures Dispatches(cfg, db, in_) <==> Asked(cfg, db, in_)
  {
    ClaimedRow(db, in_);
    RulingMeans(cfg, db, in_);
    Scheduling.ExecuteJobs(cfg, db, in_);
  }

  /** When it comes back: a retry after 15 seconds, doubled with every further attempt; a job that
      is held back after the delay of the rule that holds it. */
  lemma WhenJobsComeBack(cfg: Settings, db: Db, in_: Inputs, seconds: int)
    requires Meets(db, in_) && seconds > 0
    ensures var after := JobAfter(cfg, db, in_);
            && (after.status == JobStatus.RetryWait ==>
                  after.scheduledFor == in_.clock.finish + 15_000_000 * Pow2(Max(0, Attempt(db, in_) - 1)))
            && (after.status == JobStatus.Queued && after.scheduledFor == in_.clock.finish + seconds * 1_000_000 <==>
                  Gated(cfg, db, in_) && !Barred(cfg, db, in_)
                  && HeldFor(cfg, db.accounts[in_.account.value], db.campaigns[in_.pick.value.campaign], in_.clock.policy, seconds))
  {
    ClaimedRow(db, in_);
    HowJobsEnd(cfg, db, in_);
    Scheduling.ExecuteJobs(cfg, db, in_);
    if Gated(cfg, db, in_) {
      GatedRuling(cfg, db, in_, seconds);
    } else {
      UngatedRuling(cfg, db, in_);
    }
  }

  /** Its audit log: one row with the number of the attempt, unless the job was held back. */
  lemma WhatIsAudited(cfg: Settings, db: Db, in_: Inputs)
    requires Meets(db, in_)
    ensures var after, before, n := JobAfter(cfg, db, in_), db.jobs[in_.pick.value], Attempt(db, in_);
            && after.attemptCount == n && after.leaseWorker == None && after.leaseExpires == None
            && after.attempts ==
                 if Waits(cfg, db, in_) then before.attempts
                 else before.attempts + [
                   if Succeeds(cfg, db, in_)
                   then SendAttempt(n, in_.worker, Success,
                          if Asked(cfg, db, in_) then in_.reply.messageId else db.emails[in_.pick.value.email].messageId)
                   else SendAttempt(n, in_.worker,
                          if FailsForNow(cfg, db, in_) && MayRetry(db, in_) then TransientFailure else PermanentFailure, None)]
  {
    ClaimedRow(db, in_);
    RulingMeans(cfg, db, in_);
    Scheduling.ExecuteJobs(cfg, db, in_);
    if Gated(cfg, db, in_) {
      GatedRuling(cfg, db, in_, 1);
    } else {
      UngatedRuling(cfg, db, in_);
    }
  }

  // ---- Everything else --------------------------------------------------------------------

  /** The job's record: SENT with its message id, FAILED with its job, untouched while the job can
      still come back. No other record is written. */
  lemma RecordsWritten(cfg: Settings, db: Db, in_: Inputs)
    requires Meets(db, in_)
    ensures var e, after := in_.pick.value.email, WorkerSpec.Execute(cfg, db, in_).emails;
            && (Succeeds(cfg, db, in_) ==>
                  e in db.emails && after == db.emails[e := db.emails[e].(status := EmailStatus.Sent, sentAt := Some(in_.clock.finish),
                    messageId := if Asked(cfg, db, in_) then in_.reply.messageId else db.emails[e].messageId)])
            && (JobAfter(cfg, db, in_).status == JobStatus.Failed ==>
                  after == if e in db.emails then db.emails[e := db.emails[e].(status := EmailStatus.Failed)] else db.emails)
            && (Waits(cfg, db, in_) || JobAfter(cfg, db, in_).status == JobStatus.RetryWait ==> after == db.emails)
  {
    var k := in_.pick.value;
    var consulted := Consulted(cfg, Held(db, in_), k, in_.account, in_.decrypts, in_.clock.policy);
    var ruling := RulingOf(cfg, db, in_);
    ClaimedRow(db, in_);
    HowJobsEnd(cfg, db, in_);
    RulingMeans(cfg, db, in_);
    Scheduling.ExecuteJobs(cfg, db, in_);
    if k.email in db.emails {
      SettleEmails(consulted, k, ruling, in_);
      if Gated(cfg, db, in_) {
        GatedRuling(cfg, db, in_, 1);
      } else {
        UngatedRuling(cfg, db, in_);
      }
    }
  }

  /** The lead and the campaign: a success makes the lead EMAILED and counts in the campaign, a
      trip of the breaker pauses the campaign. Nothing else is written there. */
  lemma LeadAndCampaignWritten(cfg: Settings, db: Db, in_: Inputs)
    requires Meets(db, in_)
    ensures var k, after := in_.pick.value, WorkerSpec.Execute(cfg, db, in_);
            && (Succeeds(cfg, db, in_) ==>
                  && k.lead in db.leads && after.leads == db.leads[k.lead := db.leads[k.lead].(status := LeadStatus.Emailed)]
                  && after.campaigns == db.campaigns[k.campaign := db.campaigns[k.campaign].(totalSent := db.campaigns[k.campaign].totalSent + 1)])
            && (!Succeeds(cfg, db, in_) ==>
                  && after.leads == db.leads
                  && after.campaigns == if OverBounceLimit(cfg, db, in_) && !DoNotContact(cfg, db, in_)
                                        then db.campaigns[k.campaign := db.campaigns[k.campaign].(status := CampaignStatus.Paused)]
                                        else db.campaigns)
            && after.suppressed == db.suppressed
  {
    ClaimedRow(db, in_);
    RulingMeans(cfg, db, in_);
    CampaignRuns.ExecuteLeadsAndCampaigns(cfg, db, in_);
  }

  /** The account: the day rollover when rules 1 to 4 passed, and one more send, now, when the
      provider took the message and named it. No other account is written. */
  lemma AccountsWritten(cfg: Settings, db: Db, in_: Inputs)
    requires Meets(db, in_)
    ensures WorkerSpec.Execute(cfg, db, in_).accounts ==
              if !Gated(cfg, db, in_) || Barred(cfg, db, in_) then db.accounts
              else
                var a, now := in_.account.value, in_.clock.policy;
                var account := db.accounts[a];
                var sent := if Asked(cfg, db, in_) && Accepts(in_.reply) then 1 else 0;
                db.accounts[a := account.(
                  sendsToday := Today(account, now) + sent, sendsThisHour := ThisHour(account, now) + sent,
                  lastResetDay := Some(now / 86_400_000_000),
                  lastSendAt := if sent == 1 then Some(in_.clock.finish) else account.lastSendAt)]
  {
    ClaimedRow(db, in_);
    RulingMeans(cfg, db, in_);
    SendRates.ExecuteAccounts(cfg, db, in_);
    ConsultedAccount(cfg, db, in_);
  }

  /** The account as the gate leaves it. */
  lemma ConsultedAccount(cfg: Settings, db: Db, in_: Inputs)
    requires Meets(db, in_)
    ensures Consulted(cfg, Held(db, in_), in_.pick.value, in_.account, in_.decrypts, in_.clock.policy).accounts ==
              if !Gated(cfg, db, in_) || Barred(cfg, db, in_) then db.accounts
              else
                var a, now := in_.account.value, in_.clock.policy;
                db.accounts[a := db.accounts[a].(sendsToday := Today(db.accounts[a], now), sendsThisHour := ThisHour(db.accounts[a], now),
                                                 lastResetDay := Some(now / 86_400_000_000))]
  {
    var k, held := in_.pick.value, Held(db, in_);
    ClaimedRow(db, in_);
    if Gated(cfg, db, in_) {
      GateAnswer(cfg, db, in_, 1);
      GateWrites(cfg, held, held.accounts[in_.account.value], held.campaigns[k.campaign], held.leads[k.lead], in_.clock.policy);
    }
  }

  /** The other jobs: a lease that had run out is taken back, and the job queued again. */
  lemma OtherJobsKept(cfg: Settings, db: Db, in_: Inputs, other: JobKey)
    requires Meets(db, in_) && other in db.jobs && other != in_.pick.value
    ensures WorkerSpec.Execute(cfg, db, in_).jobs.Keys == db.jobs.Keys
    ensures var row := db.jobs[other];
            WorkerSpec.Execute(cfg, db, in_).jobs[other] ==
              if row.status == JobStatus.Processing && row.leaseExpires.Some? && row.leaseExpires.value < in_.clock.reap
              then row.(status := JobStatus.Queued, leaseWorker := None, leaseExpires := None)
              else row
  {
    Scheduling.ExecuteJobs(cfg, db, in_);
  }
}

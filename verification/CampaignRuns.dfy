/** Pausing, the bounce breaker and the sent counter over whole runs. */
module CampaignRuns {
  import opened Text
  import opened Records
  import opened JobRows
  import opened QueueSpec
  import opened PolicySpec
  import opened WorkerSpec
  import opened MaintenanceSpec
  import opened World
  import RecordHistory
  import Scheduling
  import SendRates
  import SendRuns

  // ---- What an execution does to leads and campaigns ---------------------------------------

  predicate Succeeds(ruling: Ruling, in_: Inputs)
  {
    ruling.AlreadySent? || (ruling.Dispatch? && Confirmed(in_.reply))
  }

  /** The lead of a job that counts as sent becomes EMAILED. */
  function LeadsAfter(db: Db, k: JobKey, ruling: Ruling, in_: Inputs): map<int, Lead>
  {
    if Succeeds(ruling, in_) && k.lead in db.leads then db.leads[k.lead := db.leads[k.lead].(status := LeadStatus.Emailed)]
    else db.leads
  }

  /** Its campaign counts it; a tripped breaker pauses the campaign instead. */
  function CampaignsAfter(db: Db, k: JobKey, ruling: Ruling, in_: Inputs): map<int, Campaign>
    requires k.campaign in db.campaigns
  {
    var campaign := db.campaigns[k.campaign];
    if Succeeds(ruling, in_) then db.campaigns[k.campaign := campaign.(totalSent := campaign.totalSent + 1)]
    else if ruling == Refused(true) then db.campaigns[k.campaign := campaign.(status := CampaignStatus.Paused)]
    else db.campaigns
  }

  lemma SettleLeads(db: Db, k: JobKey, ruling: Ruling, in_: Inputs)
    requires k in db.jobs && k.campaign in db.campaigns
    ensures Settle(db, k, ruling, in_).suppressed == db.suppressed
    ensures Settle(db, k, ruling, in_).leads == LeadsAfter(db, k, ruling, in_)
  {
    var now, after := in_.clock.finish, Settle(db, k, ruling, in_);
    match ruling
    case AlreadySent(messageId) => assert after.leads == Complete(db, k, in_.worker, messageId, now).leads;
    case Dispatch =>
      if Confirmed(in_.reply) {
        assert after.leads == Complete(db, k, in_.worker, in_.reply.messageId, now).leads;
      } else {
        assert after.leads == db.leads;
      }
    case _ =>
  }

  lemma SettleCampaigns(db: Db, k: JobKey, ruling: Ruling, in_: Inputs)
    requires k in db.jobs && k.campaign in db.campaigns
    ensures Settle(db, k, ruling, in_).campaigns == CampaignsAfter(db, k, ruling, in_)
  {
    var now, after := in_.clock.finish, Settle(db, k, ruling, in_);
    match ruling
    case AlreadySent(messageId) => assert after.campaigns == Complete(db, k, in_.worker, messageId, now).campaigns;
    case Dispatch =>
      if Confirmed(in_.reply) {
        assert after.campaigns == Complete(db, k, in_.worker, in_.reply.messageId, now).campaigns;
      } else {
        assert after.campaigns == db.campaigns;
      }
    case _ =>
  }

  lemma ExecuteLeadsAndCampaigns(cfg: Settings, db: Db, in_: Inputs)
    requires in_.pick.Some? && in_.pick.value in db.jobs && in_.pick.value.campaign in db.campaigns
    ensures var k, ruling, after := in_.pick.value, RulingOf(cfg, db, in_), WorkerSpec.Execute(cfg, db, in_);
            && after.suppressed == db.suppressed
            && after.leads == LeadsAfter(db, k, ruling, in_)
            && after.campaigns == CampaignsAfter(db, k, ruling, in_)
  {
    var consulted := Consulted(cfg, Held(db, in_), in_.pick.value, in_.account, in_.decrypts, in_.clock.policy);
    SettleLeads(consulted, in_.pick.value, RulingOf(cfg, db, in_), in_);
    SettleCampaigns(consulted, in_.pick.value, RulingOf(cfg, db, in_), in_);
  }

  /** In production the gate stands before every outcome that counts as sent. */
  lemma ProductionConsults(cfg: Settings, db: Db, in_: Inputs)
    requires cfg.production && in_.pick.Some? && in_.pick.value in db.jobs
    requires RulingOf(cfg, db, in_).AlreadySent? || RulingOf(cfg, db, in_).Dispatch?
    ensures RefsPresent(db, in_.pick.value)
    ensures !Suppressed(db, db.campaigns[in_.pick.value.campaign], db.leads[in_.pick.value.lead])
    ensures !BreakerTrips(cfg, db.campaigns[in_.pick.value.campaign])
  {
  }

  // ---- Pause and breaker ------------------------------------------------------------------

  /** The campaign of the job the step claims or dispatches. */
  predicate WorksOn(step: Step, c: int)
  {
    || ((step.Execute? || step.Killed?) && step.in_.pick.Some? && step.in_.pick.value.campaign == c)
    || (step.Abandon? && step.k.campaign == c)
  }

  lemma ExecuteKeepsPaused(cfg: Settings, w: World, in_: Inputs, c: int)
    requires Possible(w.db, in_) && c in w.db.campaigns && !w.db.campaigns[c].status.Active?
    ensures !WorksOn(Execute(in_), c)
    ensures c in ExecuteWorld(cfg, w, in_).db.campaigns && !ExecuteWorld(cfg, w, in_).db.campaigns[c].status.Active?
  {
    if in_.pick.Some? {
      ExecuteLeadsAndCampaigns(cfg, w.db, in_);
    }
  }

  lemma StepKeepsPaused(cfg: Settings, w: World, step: Step, c: int)
    requires Enabled(cfg, w, step) && c in w.db.campaigns && !w.db.campaigns[c].status.Active?
    requires !(step.Activate? && step.c == c)
    ensures !WorksOn(step, c)
    ensures c in Next(cfg, w, step).db.campaigns && !Next(cfg, w, step).db.campaigns[c].status.Active?
  {
    match step
    case Execute(in_) => ExecuteKeepsPaused(cfg, w, in_, c);
    case EnqueuePending(org, c', records, at) => SendRates.EnqueueAllAccounts(w.db, org, c', records, at);
    case _ =>
  }

  predicate NeverWorksOn(steps: seq<Step>, c: int)
  {
    forall i :: 0 <= i < |steps| ==> !WorksOn(steps[i], c)
  }

  /** A campaign that is not active, be it paused by a user or by the breaker, stays so and has
      none of its jobs claimed, let alone dispatched, until it is started again. */
  lemma {:induction false} PausedUntilStarted(cfg: Settings, w: World, steps: seq<Step>, c: int)
    requires c in w.db.campaigns && !w.db.campaigns[c].status.Active? && Legal(cfg, w, steps)
    requires forall i :: 0 <= i < |steps| ==> !(steps[i].Activate? && steps[i].c == c)
    ensures NeverWorksOn(steps, c)
    ensures c in After(cfg, w, steps).db.campaigns && !After(cfg, w, steps).db.campaigns[c].status.Active?
  {
    if steps != [] {
      var n := |steps| - 1;
      PausedUntilStarted(cfg, w, steps[..n], c);
      StepKeepsPaused(cfg, After(cfg, w, steps[..n]), steps[n], c);
      assert forall i :: 0 <= i < n ==> steps[i] == steps[..n][i];
    }
  }

  /** Pausing works: the campaign is PAUSED, and whatever runs on, nothing of it is claimed until it
      is started again. */
  lemma PauseStopsCampaign(cfg: Settings, w: World, org: int, c: int, at: int, steps: seq<Step>)
    requires Enabled(cfg, w, Pause(org, c, at)) && Legal(cfg, Next(cfg, w, Pause(org, c, at)), steps)
    requires forall i :: 0 <= i < |steps| ==> !(steps[i].Activate? && steps[i].c == c)
    ensures c in w.db.campaigns && Next(cfg, w, Pause(org, c, at)).db.campaigns[c] == w.db.campaigns[c].(status := CampaignStatus.Paused)
    ensures NeverWorksOn(steps, c)
  {
    PausedUntilStarted(cfg, Next(cfg, w, Pause(org, c, at)), steps, c);
  }

  /** The breaker: in production an execution meets a campaign over the bounce limit only to
      pause it (unless an earlier rule already rejects or postpones the job), and a dispatch
      proves the campaign was within the limit. */
  lemma BreakerGuardsDispatch(cfg: Settings, w: World, in_: Inputs)
    requires cfg.production && Possible(w.db, in_) && in_.pick.Some?
    ensures in_.pick.value.campaign in w.db.campaigns
    ensures var c := in_.pick.value.campaign;
            var campaign := w.db.campaigns[c];
            && (Dispatches(cfg, w.db, in_) && campaign.totalSent >= 20 ==>
                  100.0 * campaign.totalBounces as real <= cfg.maxBounceRate * campaign.totalSent as real)
            && (RulingOf(cfg, w.db, in_) == Refused(true) ==>
                  BreakerTrips(cfg, campaign) && ExecuteWorld(cfg, w, in_).db.campaigns[c].status == CampaignStatus.Paused)
  {
    ExecuteLeadsAndCampaigns(cfg, w.db, in_);
    if Dispatches(cfg, w.db, in_) {
      ProductionConsults(cfg, w.db, in_);
    }
  }

  /** After the breaker has tripped, in whatever run, no job of the campaign is claimed, let alone
      dispatched, until the campaign is started again. */
  lemma BreakerStopsCampaign(cfg: Settings, w: World, in_: Inputs, steps: seq<Step>, c: int)
    requires cfg.production && Enabled(cfg, w, Execute(in_)) && in_.pick.Some? && in_.pick.value.campaign == c
    requires RulingOf(cfg, w.db, in_) == Refused(true)
    requires Legal(cfg, ExecuteWorld(cfg, w, in_), steps)
    requires forall i :: 0 <= i < |steps| ==> !(steps[i].Activate? && steps[i].c == c)
    ensures c in w.db.campaigns && BreakerTrips(cfg, w.db.campaigns[c])
    ensures NeverWorksOn(steps, c)
  {
    BreakerGuardsDispatch(cfg, w, in_);
    PausedUntilStarted(cfg, ExecuteWorld(cfg, w, in_), steps, c);
  }

  // ---- Conservation of the sent counter ---------------------------------------------------

  /** The campaign's jobs that ended as SENT, stored or purged. */
  function SentJobs(jobs: map<JobKey, SendJob>, c: int): set<JobKey>
  {
    set k | k in jobs && k.campaign == c && jobs[k].status.Sent?
  }

  /** Every stored job's campaign exists. */
  predicate CampaignsExist(w: World)
  {
    forall k <- w.db.jobs :: k.campaign in w.db.campaigns
  }

  predicate CountsSent(w: World, c: int)
    requires c in w.db.campaigns
  {
    w.db.campaigns[c].totalSent == |SentJobs(w.db.jobs, c)| + |SentJobs(w.ledger.purged, c)|
  }

  predicate Conserved(w: World)
  {
    CampaignsExist(w) && forall c <- w.db.campaigns :: CountsSent(w, c)
  }

  lemma SentAfterReplace(jobs: map<JobKey, SendJob>, t: int, k: JobKey, row: SendJob, c: int)
    requires k in jobs && !Terminal(jobs[k])
    ensures |SentJobs(ReapedJobs(jobs, t)[k := row], c)| == |SentJobs(jobs, c)| + if row.status.Sent? && k.campaign == c then 1 else 0
  {
    var after := SentJobs(ReapedJobs(jobs, t)[k := row], c);
    if row.status.Sent? && k.campaign == c {
      assert after == SentJobs(jobs, c) + {k};
    } else {
      assert after == SentJobs(jobs, c);
    }
  }

  lemma SameSent(a: map<JobKey, SendJob>, b: map<JobKey, SendJob>, c: int)
    requires forall k <- a :: a[k].status.Sent? ==> k in b && b[k].status.Sent?
    requires forall k <- b :: b[k].status.Sent? ==> k in a && a[k].status.Sent?
    ensures SentJobs(a, c) == SentJobs(b, c)
  {
  }

  lemma SentTaken(jobs: map<JobKey, SendJob>, moved: map<JobKey, SendJob>, c: int)
    requires forall k <- moved :: k in jobs && moved[k] == jobs[k]
    ensures SentJobs(jobs - moved.Keys, c) == SentJobs(jobs, c) - SentJobs(moved, c)
    ensures SentJobs(moved, c) <= SentJobs(jobs, c)
  {
  }

  lemma SentGiven(jobs: map<JobKey, SendJob>, purged: map<JobKey, SendJob>, moved: map<JobKey, SendJob>, c: int)
    requires jobs.Keys !! purged.Keys && forall k <- moved :: k in jobs
    ensures SentJobs(purged + moved, c) == SentJobs(purged, c) + SentJobs(moved, c)
    ensures SentJobs(moved, c) !! SentJobs(purged, c)
  {
  }

  /** Moving finished rows from the table to the purge log keeps the number of SENT ones. */
  lemma SentAfterMove(jobs: map<JobKey, SendJob>, purged: map<JobKey, SendJob>, moved: map<JobKey, SendJob>, c: int)
    requires jobs.Keys !! purged.Keys
    requires forall k <- moved :: k in jobs && moved[k] == jobs[k]
    ensures |SentJobs(jobs - moved.Keys, c)| + |SentJobs(purged + moved, c)| == |SentJobs(jobs, c)| + |SentJobs(purged, c)|
  {
    var m := SentJobs(moved, c);
    SentTaken(jobs, moved, c);
    SentGiven(jobs, purged, moved, c);
    MoveCounts(SentJobs(jobs, c), SentJobs(purged, c), m);
  }

  lemma MoveCounts(from: set<JobKey>, to: set<JobKey>, moved: set<JobKey>)
    requires moved <= from && moved !! to
    ensures |from - moved| + |to + moved| == |from| + |to|
  {
    assert from - moved + moved == from;
  }

  lemma SentIffSucceeds(row: SendJob, ruling: Ruling, in_: Inputs)
    ensures RowAfter(row, ruling, in_).status.Sent? <==> Succeeds(ruling, in_)
  {
  }

  /** The sent counter of campaign `own` grows by one if `counts`, and no other one moves. */
  predicate CountedOne(before: map<int, Campaign>, after: map<int, Campaign>, own: int, counts: bool)
  {
    && after.Keys == before.Keys
    && forall c <- before :: after[c].totalSent == before[c].totalSent + if counts && c == own then 1 else 0
  }

  lemma ReplaceConserves(w: World, w': World, t: int, k: JobKey, row: SendJob)
    requires Conserved(w) && k in w.db.jobs && !Terminal(w.db.jobs[k])
    requires w'.db.jobs == ReapedJobs(w.db.jobs, t)[k := row] && w'.ledger.purged == w.ledger.purged
    requires CountedOne(w.db.campaigns, w'.db.campaigns, k.campaign, row.status.Sent?)
    ensures Conserved(w')
  {
    forall c <- w'.db.campaigns
      ensures CountsSent(w', c)
    {
      assert CountsSent(w, c);
      SentAfterReplace(w.db.jobs, t, k, row, c);
    }
  }

  /** An execution replaces the claimed row and counts it in its campaign exactly if it is SENT. */
  lemma ExecutedRow(cfg: Settings, w: World, in_: Inputs, w': World) returns (row: SendJob)
    requires CampaignsExist(w) && Possible(w.db, in_) && in_.pick.Some? && w' == ExecuteWorld(cfg, w, in_)
    ensures var k := in_.pick.value;
            && k in w.db.jobs && !Terminal(w.db.jobs[k])
            && w'.db.jobs == ReapedJobs(w.db.jobs, in_.clock.reap)[k := row] && w'.ledger.purged == w.ledger.purged
            && CountedOne(w.db.campaigns, w'.db.campaigns, k.campaign, row.status.Sent?)
  {
    var k := in_.pick.value;
    var held := AfterClaim(ReapedJobs(w.db.jobs, in_.clock.reap)[k], in_.worker, in_.clock.claim, JOB_LEASE_SECONDS);
    var ruling := RulingOf(cfg, w.db, in_);
    row := RowAfter(held, ruling, in_);
    Scheduling.ExecuteJobs(cfg, w.db, in_);
    ExecuteLeadsAndCampaigns(cfg, w.db, in_);
    SentIffSucceeds(held, ruling, in_);
  }

  lemma ExecuteConserves(cfg: Settings, w: World, in_: Inputs, w': World)
    requires Conserved(w) && Possible(w.db, in_) && w' == ExecuteWorld(cfg, w, in_)
    ensures Conserved(w')
  {
    if in_.pick.None? {
      UnchangedConserves(w, w');
    } else {
      var row := ExecutedRow(cfg, w, in_, w');
      ReplaceConserves(w, w', in_.clock.reap, in_.pick.value, row);
    }
  }

  /** Nothing becomes SENT, nothing is purged, no counter moves. */
  lemma UnchangedConserves(w: World, w': World)
    requires Conserved(w) && w'.ledger.purged == w.ledger.purged
    requires forall k <- w.db.jobs :: w.db.jobs[k].status.Sent? ==> k in w'.db.jobs && w'.db.jobs[k].status.Sent?
    requires forall k <- w'.db.jobs :: k.campaign in w.db.campaigns && (w'.db.jobs[k].status.Sent? ==> k in w.db.jobs && w.db.jobs[k].status.Sent?)
    requires w'.db.campaigns.Keys == w.db.campaigns.Keys
    requires forall c <- w.db.campaigns :: w'.db.campaigns[c].totalSent == w.db.campaigns[c].totalSent
    ensures Conserved(w')
  {
    forall c <- w'.db.campaigns
      ensures CountsSent(w', c)
    {
      assert CountsSent(w, c);
      SameSent(w.db.jobs, w'.db.jobs, c);
    }
  }

  lemma Disjoint(w: World)
    requires RecordHistory.Inv(w)
    ensures w.db.jobs.Keys !! w.ledger.purged.Keys
  {
    forall k | k in w.db.jobs
      ensures k !in w.ledger.purged
    {
      RecordHistory.StoredIsNotPurged(w, k);
    }
  }

  lemma MaintainConserves(w: World, memory: Memory, clock: PassClock, w': World)
    requires Conserved(w) && w.db.jobs.Keys !! w.ledger.purged.Keys && w' == MaintainWorld(w, memory, clock)
    ensures Conserved(w')
  {
    var reaped := ReapedJobs(w.db.jobs, clock.reap);
    var moved := PurgedRows(reaped, clock.purge);
    assert w'.db.jobs == reaped - moved.Keys;
    forall c <- w'.db.campaigns
      ensures CountsSent(w', c)
    {
      assert CountsSent(w, c);
      SameSent(w.db.jobs, reaped, c);
      SentAfterMove(reaped, w.ledger.purged, moved, c);
    }
  }

  lemma {:induction false} EnqueuedKeysBelong(db: Db, org: int, c: int, records: seq<int>, at: int)
    requires forall e <- records :: e in db.emails
    ensures forall k <- EnqueueAll(db, org, c, records, at).jobs :: k in db.jobs || (k.org == org && k.campaign == c)
  {
    if records != [] {
      EnqueuedKeysBelong(db, org, c, records[..|records| - 1], at);
    }
  }

  lemma EnqueueConserves(cfg: Settings, w: World, step: Step, w': World)
    requires Conserved(w) && step.EnqueuePending? && Enabled(cfg, w, step) && w' == Next(cfg, w, step)
    ensures Conserved(w')
  {
    SendRates.EnqueueAllAccounts(w.db, step.org, step.c, step.records, step.at);
    Scheduling.EnqueueAllJobs(w.db, step.org, step.c, step.records, step.at);
    EnqueuedKeysBelong(w.db, step.org, step.c, step.records, step.at);
    UnchangedConserves(w, w');
  }

  lemma OtherConserves(cfg: Settings, w: World, step: Step, w': World)
    requires Conserved(w) && Enabled(cfg, w, step) && w' == Next(cfg, w, step)
    requires !step.Execute? && !step.Maintain? && !step.EnqueuePending?
    ensures Conserved(w')
  {
    UnchangedConserves(w, w');
  }

  lemma StepConserves(cfg: Settings, w: World, step: Step, w': World)
    requires Conserved(w) && w.db.jobs.Keys !! w.ledger.purged.Keys && Enabled(cfg, w, step) && w' == Next(cfg, w, step)
    ensures Conserved(w')
  {
    match step
    case Execute(in_) => ExecuteConserves(cfg, w, in_, w');
    case Maintain(memory, clock) => MaintainConserves(w, memory, clock, w');
    case EnqueuePending(org, c, records, at) => EnqueueConserves(cfg, w, step, w');
    case _ => OtherConserves(cfg, w, step, w');
  }

  /** Conservation: at every point of every run a campaign's total_sent is the number of its
      jobs that ended as SENT, the purged ones included. */
  lemma {:induction false} TotalSentConserved(cfg: Settings, w: World, steps: seq<Step>)
    requires Fresh(w) && Legal(cfg, w, steps)
    ensures Conserved(After(cfg, w, steps))
  {
    if steps == [] {
      forall c <- w.db.campaigns
        ensures CountsSent(w, c)
      {
        assert SentJobs(w.db.jobs, c) == {} && SentJobs(w.ledger.purged, c) == {};
      }
    } else {
      var n := |steps| - 1;
      TotalSentConserved(cfg, w, steps[..n]);
      SendRuns.RunKeepsInv(cfg, w, steps[..n]);
      Disjoint(After(cfg, w, steps[..n]));
      StepConserves(cfg, After(cfg, w, steps[..n]), steps[n], After(cfg, w, steps));
    }
  }
}

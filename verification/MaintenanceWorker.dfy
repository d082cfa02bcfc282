/** workers/maintenance_worker.py: reaping, counter resets and the retention purge, without
    the DNS refresh. */
module MaintenanceWorker {
  import opened Text
  import opened Records
  import opened JobRows
  import opened QueueSpec
  import opened MaintenanceSpec
  import opened Store
  import opened DurableQueue

  class MaintenanceWorker {
    const queue: DurableQueue
    var lastHourReset: int
    var lastDailyResetDate: Option<int>

    constructor ()
      ensures Memory(lastHourReset, lastDailyResetDate) == NO_MEMORY
    {
      queue := new DurableQueue("maintenance-worker");
      lastHourReset, lastDailyResetDate := -1, None;
    }

    function Recalls(): Memory
      reads this
    {
      Memory(lastHourReset, lastDailyResetDate)
    }

    method ReapAllExpiredLeases(session: Session, clock: PassClock) returns (total: nat)
      modifies session
      ensures session.Rows() == ReapAll(old(session.Rows()), clock)
      ensures total == |set k | k in old(session.jobs) && Expired(old(session.jobs)[k], clock.reap)|
                       + |set j | j in old(session.enrichment) && EnrichmentExpired(old(session.enrichment)[j], clock.enrichment)|
    {
      var reapedSend := queue.ReapOrphanedJobs(session, clock.reap);
      var expired := set j | j in session.enrichment && EnrichmentExpired(session.enrichment[j], clock.enrichment);
      var todo := expired;
      while todo != {}
        invariant todo <= expired && session.enrichment.Keys == old(session.enrichment).Keys
        invariant forall j <- session.enrichment :: session.enrichment[j] ==
                    if j in expired - todo
                    then old(session.enrichment)[j].(status := JobStatus.Queued, leaseWorker := None, leaseExpires := None)
                    else old(session.enrichment)[j]
        invariant session.Rows() == Reap(old(session.Rows()), clock.reap).(enrichment := session.enrichment)
      {
        EmptyOrInhabited(todo);
        var j :| j in todo;
        var row := session.enrichment[j];
        session.enrichment := session.enrichment[j := row.(status := JobStatus.Queued, leaseWorker := None, leaseExpires := None)];
        todo := todo - {j};
      }
      assert session.enrichment.Keys == ReapedEnrichment(old(session.enrichment), clock.enrichment).Keys;
      assert forall j <- session.enrichment :: session.enrichment[j] == ReapedEnrichment(old(session.enrichment), clock.enrichment)[j];
      assert session.enrichment == ReapedEnrichment(old(session.enrichment), clock.enrichment);
      total := reapedSend + |expired|;
    }

    /** The bulk updates of the counters, guarded by what this process remembers. */
    method ResetProviderRateLimits(session: Session, now: int)
      modifies this`lastHourReset, this`lastDailyResetDate, session`accounts
      ensures session.Rows() == ResetRates(old(session.Rows()), old(Recalls()), now)
      ensures Recalls() == Remembered(old(Recalls()), now)
    {
      var currentDay, currentHour := DayOf(now), HourOf(now);
      if currentHour != lastHourReset {
        session.accounts := map a | a in session.accounts :: session.accounts[a].(sendsThisHour := 0);
        lastHourReset := currentHour;
      }
      if lastDailyResetDate != Some(currentDay) {
        session.accounts := map a | a in session.accounts :: session.accounts[a].(sendsToday := 0, lastResetDay := Some(currentDay));
        lastDailyResetDate := Some(currentDay);
      }
      assert session.accounts.Keys == old(session.accounts).Keys;
      assert forall a <- session.accounts :: session.accounts[a] ==
               ResetAccount(old(session.accounts)[a], HourRolled(old(Recalls()), now), DateRolled(old(Recalls()), now), now);
      assert session.accounts == ResetAccounts(old(session.accounts), HourRolled(old(Recalls()), now), DateRolled(old(Recalls()), now), now);
    }

    /** Deletes finished jobs, with their audit rows, beyond the retention window. */
    method PurgeRetentionData(session: Session, now: int) returns (deleted: nat)
      modifies session`jobs
      ensures session.Rows() == Purge(old(session.Rows()), now)
      ensures deleted == |PurgedKeys(old(session.jobs), now)|
    {
      var cutoff := now - RETENTION_DAYS * DAY;
      var finished := set k | k in session.jobs
                          && (session.jobs[k].status.Sent? || session.jobs[k].status.Failed? || session.jobs[k].status.Cancelled?)
                          && session.jobs[k].createdAt < cutoff;
      assert finished == PurgedKeys(session.jobs, now);
      session.jobs := session.jobs - finished;
      deleted := |finished|;
    }

    /** One pass in one transaction. */
    method RunMaintenanceCycle(database: Database, clock: PassClock)
      modifies this`lastHourReset, this`lastDailyResetDate, database
      ensures database.committed == Pass(old(database.committed), old(Recalls()), clock)
      ensures Recalls() == Remembered(old(Recalls()), clock.reset)
    {
      var session := database.Begin();
      var total := ReapAllExpiredLeases(session, clock);
      ResetProviderRateLimits(session, clock.reset);
      var deleted := PurgeRetentionData(session, clock.purge);
      database.Commit(session);
    }
  }
}

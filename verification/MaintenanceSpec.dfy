/** One maintenance pass (workers/maintenance_worker.py) as a function of the database and
    of the worker's process-local reset memory. */
module MaintenanceSpec {
  import opened Text
  import opened Records
  import opened JobRows
  import opened QueueSpec

  /** `_last_hour_reset` and `_last_daily_reset_date`; a new process starts with NO_MEMORY. */
  datatype Memory = Memory(lastHour: int, lastDay: Option<int>)

  const NO_MEMORY := Memory(-1, None)

  /** The clock readings of one pass, in the order the code takes them. */
  datatype PassClock = PassClock(enrichment: int, reap: int, reset: int, purge: int)

  predicate PassOrdered(c: PassClock) { c.enrichment <= c.reap <= c.reset <= c.purge }

  predicate EnrichmentExpired(row: EnrichmentJob, now: int)
  {
    row.status.Processing? && row.leaseExpires.Some? && row.leaseExpires.value < now
  }

  function ReapedEnrichment(rows: map<int, EnrichmentJob>, now: int): map<int, EnrichmentJob>
  {
    map j | j in rows :: if EnrichmentExpired(rows[j], now)
                         then rows[j].(status := JobStatus.Queued, leaseWorker := None, leaseExpires := None)
                         else rows[j]
  }

  predicate HourRolled(m: Memory, now: int) { HourOf(now) != m.lastHour }

  predicate DateRolled(m: Memory, now: int) { m.lastDay != Some(DayOf(now)) }

  /** One account after the bulk updates of `reset_provider_rate_limits`. */
  function ResetAccount(account: Account, hour: bool, day: bool, now: int): Account
  {
    account.(sendsThisHour := if hour then 0 else account.sendsThisHour,
             sendsToday := if day then 0 else account.sendsToday,
             lastResetDay := if day then Some(DayOf(now)) else account.lastResetDay)
  }

  function ResetAccounts(accounts: map<int, Account>, hour: bool, day: bool, now: int): map<int, Account>
  {
    map a | a in accounts :: ResetAccount(accounts[a], hour, day, now)
  }

  function Remembered(m: Memory, now: int): Memory
  {
    Memory(if HourRolled(m, now) then HourOf(now) else m.lastHour,
           if DateRolled(m, now) then Some(DayOf(now)) else m.lastDay)
  }

  function ReapAll(db: Db, clock: PassClock): Db
  {
    Reap(db, clock.reap).(enrichment := ReapedEnrichment(db.enrichment, clock.enrichment))
  }

  function ResetRates(db: Db, m: Memory, now: int): Db
  {
    db.(accounts := ResetAccounts(db.accounts, HourRolled(m, now), DateRolled(m, now), now))
  }

  function Pass(db: Db, m: Memory, clock: PassClock): Db
  {
    Purge(ResetRates(ReapAll(db, clock), m, clock.reset), clock.purge)
  }
}

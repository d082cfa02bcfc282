/** The pre-flight gate of services/sending_policy.py as a function. */
module PolicySpec {
  import opened Text
  import opened Records

  const DAILY_LIMIT_DELAY: int := 3600
  const HOURLY_LIMIT_DELAY: int := 600
  const BREAKER_MIN_SENT: int := 20

  /** A denial carries the suggested delay in seconds (0: none) and the breaker flag. */
  datatype Decision = Allowed | Denied(delaySeconds: int, circuitBroken: bool)

  /** The decision together with the account row as the evaluation leaves it. */
  datatype Evaluation = Evaluation(decision: Decision, account: Account)

  predicate Suppressed(db: Db, campaign: Campaign, lead: Lead)
  {
    || lead.status.Unsubscribed? || lead.status.Bounced?
    || (campaign.org, lead.email) in db.suppressed
  }

  /** bounces / sent * 100 > limit, once 20 messages were sent. */
  predicate BreakerTrips(cfg: Settings, campaign: Campaign)
  {
    && campaign.totalSent >= BREAKER_MIN_SENT
    && 100.0 * campaign.totalBounces as real > cfg.maxBounceRate * campaign.totalSent as real
  }

  /** Rules 1 to 4: none of them looks at the counters. */
  function Screening(cfg: Settings, db: Db, account: Account, campaign: Campaign, lead: Lead): Decision
  {
    if !account.active || !account.healthy then Denied(0, false)
    else if Suppressed(db, campaign, lead) then Denied(0, false)
    else if !campaign.status.Active? then Denied(0, false)
    else if BreakerTrips(cfg, campaign) then Denied(0, true)
    else Allowed
  }

  /** The stored reset date is set and is not today. */
  predicate DayRolled(account: Account, now: int)
  {
    account.lastResetDay.Some? && account.lastResetDay.value != DayOf(now)
  }

  function Rolled(account: Account, now: int): Account
  {
    (if DayRolled(account, now) then account.(sendsToday := 0, sendsThisHour := 0) else account)
      .(lastResetDay := Some(DayOf(now)))
  }

  /** `min(daily_limit, campaign.daily_limit or daily_limit)`. */
  function DailyCap(cfg: Settings, campaign: Campaign): int
  {
    Min(cfg.dailyLimit, if campaign.dailyLimit != 0 then campaign.dailyLimit else cfg.dailyLimit)
  }

  /** Seconds to wait: the whole seconds still missing, plus one. */
  function PacingWait(cfg: Settings, lastSend: int, now: int): int
  {
    (cfg.minDelaySeconds * SECOND - (now - lastSend)) / SECOND + 1
  }

  /** Rules 5 to 7, on the account after the day rollover. */
  function Limits(cfg: Settings, account: Account, campaign: Campaign, now: int): Decision
  {
    if account.sendsToday >= DailyCap(cfg, campaign) then Denied(DAILY_LIMIT_DELAY, false)
    else if account.sendsThisHour >= cfg.hourlyLimit then Denied(HOURLY_LIMIT_DELAY, false)
    else if account.lastSendAt.Some? && now - account.lastSendAt.value < cfg.minDelaySeconds * SECOND
    then Denied(PacingWait(cfg, account.lastSendAt.value, now), false)
    else Allowed
  }

  function Evaluate(cfg: Settings, db: Db, account: Account, campaign: Campaign, lead: Lead, now: int): Evaluation
  {
    var screening := Screening(cfg, db, account, campaign, lead);
    if screening.Denied? then Evaluation(screening, account)
    else Evaluation(Limits(cfg, Rolled(account, now), campaign, now), Rolled(account, now))
  }

  function AfterSend(account: Account, now: int): Account
  {
    account.(sendsToday := account.sendsToday + 1, sendsThisHour := account.sendsThisHour + 1, lastSendAt := Some(now))
  }

  /** The gate opens exactly when every rule holds. */
  lemma AllowedMeansEveryRule(cfg: Settings, db: Db, account: Account, campaign: Campaign, lead: Lead, now: int)
    ensures var today := if DayRolled(account, now) then 0 else account.sendsToday;
            var hour := if DayRolled(account, now) then 0 else account.sendsThisHour;
      Evaluate(cfg, db, account, campaign, lead, now).decision.Allowed? <==>
        && account.active && account.healthy
        && !lead.status.Unsubscribed? && !lead.status.Bounced? && (campaign.org, lead.email) !in db.suppressed
        && campaign.status.Active?
        && (campaign.totalSent >= 20 ==> 100.0 * campaign.totalBounces as real <= cfg.maxBounceRate * campaign.totalSent as real)
        && today < cfg.dailyLimit && (campaign.dailyLimit != 0 ==> today < campaign.dailyLimit)
        && hour < cfg.hourlyLimit
        && (account.lastSendAt.Some? ==> now - account.lastSendAt.value >= cfg.minDelaySeconds * SECOND)
  {
  }

  /** A job that the pacing rule postpones passes that rule at its new time, unless another
      send is recorded meanwhile: the suggested wait is enough, whenever the reschedule is
      written. */
  lemma PacingWaitSuffices(cfg: Settings, lastSend: int, now: int, writtenAt: int, later: int)
    requires now - lastSend < cfg.minDelaySeconds * SECOND
    requires now <= writtenAt
    requires writtenAt + PacingWait(cfg, lastSend, now) * SECOND <= later
    ensures later - lastSend >= cfg.minDelaySeconds * SECOND
    ensures PacingWait(cfg, lastSend, now) >= 1
    // The wait is also tight: a second less would not do for the instant it was computed at.
    ensures now + (PacingWait(cfg, lastSend, now) - 1) * SECOND - lastSend <= cfg.minDelaySeconds * SECOND
  {
  }
}

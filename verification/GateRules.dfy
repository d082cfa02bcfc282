/** What the gate of services/sending_policy.py answers, rule by rule, with the numbers it
    promises: which rule decides, how long a held-back job has to wait, what is written. */
module GateRules {
  import opened Text
  import opened Records
  import opened PolicySpec

  /** The stored reset date is set and is another day than that of `now`. */
  predicate NewDay(account: Account, now: int)
  {
    account.lastResetDay.Some? && account.lastResetDay.value != now / 86_400_000_000
  }

  /** The counters as the limits see them: both start again on a new day. */
  function Today(account: Account, now: int): nat { if NewDay(account, now) then 0 else account.sendsToday }

  function ThisHour(account: Account, now: int): nat { if NewDay(account, now) then 0 else account.sendsThisHour }

  predicate MayContact(db: Db, campaign: Campaign, lead: Lead)
  {
    && lead.status != LeadStatus.Unsubscribed && lead.status != LeadStatus.Bounced
    && (campaign.org, lead.email) !in db.suppressed
  }

  predicate BouncesOk(cfg: Settings, campaign: Campaign)
  {
    campaign.totalSent >= 20 ==> 100.0 * campaign.totalBounces as real <= cfg.maxBounceRate * campaign.totalSent as real
  }

  /** Rules 1 to 3. */
  predicate Addressable(db: Db, account: Account, campaign: Campaign, lead: Lead)
  {
    account.active && account.healthy && MayContact(db, campaign, lead) && campaign.status == CampaignStatus.Active
  }

  predicate DayFull(cfg: Settings, account: Account, campaign: Campaign, now: int)
  {
    Today(account, now) >= cfg.dailyLimit || (campaign.dailyLimit != 0 && Today(account, now) >= campaign.dailyLimit)
  }

  predicate HourFull(cfg: Settings, account: Account, now: int) { ThisHour(account, now) >= cfg.hourlyLimit }

  /** Microseconds that the pacing rule still wants to pass. */
  function Lacking(cfg: Settings, account: Account, now: int): int
  {
    if account.lastSendAt.Some? then cfg.minDelaySeconds * 1_000_000 - (now - account.lastSendAt.value) else 0
  }

  predicate TooSoon(cfg: Settings, account: Account, now: int) { Lacking(cfg, account, now) > 0 }

  /** The delay of a job that a counter or the pacing rule holds back: an hour, ten minutes, or
      what the pacing rule lacks, rounded up to the next full second. */
  predicate HeldFor(cfg: Settings, account: Account, campaign: Campaign, now: int, seconds: int)
  {
    || (DayFull(cfg, account, campaign, now) && seconds == 3600)
    || (!DayFull(cfg, account, campaign, now) && HourFull(cfg, account, now) && seconds == 600)
    || (!DayFull(cfg, account, campaign, now) && !HourFull(cfg, account, now) && TooSoon(cfg, account, now)
        && (seconds - 1) * 1_000_000 <= Lacking(cfg, account, now) < seconds * 1_000_000)
  }

  predicate Holds(cfg: Settings, account: Account, campaign: Campaign, now: int)
  {
    DayFull(cfg, account, campaign, now) || HourFull(cfg, account, now) || TooSoon(cfg, account, now)
  }

  lemma SamePicture(cfg: Settings, db: Db, account: Account, campaign: Campaign, lead: Lead, now: int)
    ensures NewDay(account, now) <==> DayRolled(account, now)
    ensures Addressable(db, account, campaign, lead) <==>
              account.active && account.healthy && !Suppressed(db, campaign, lead) && campaign.status.Active?
    ensures BouncesOk(cfg, campaign) <==> !BreakerTrips(cfg, campaign)
    ensures DayFull(cfg, account, campaign, now) <==> Rolled(account, now).sendsToday >= DailyCap(cfg, campaign)
    ensures HourFull(cfg, account, now) <==> Rolled(account, now).sendsThisHour >= cfg.hourlyLimit
  {
  }

  lemma PacingSeconds(cfg: Settings, account: Account, now: int, seconds: int)
    requires TooSoon(cfg, account, now)
    ensures seconds == PacingWait(cfg, account.lastSendAt.value, now) <==> (seconds - 1) * 1_000_000 <= Lacking(cfg, account, now) < seconds * 1_000_000
    ensures PacingWait(cfg, account.lastSendAt.value, now) >= 1
  {
  }

  lemma LimitsHold(cfg: Settings, account: Account, campaign: Campaign, now: int, seconds: int)
    ensures Limits(cfg, Rolled(account, now), campaign, now).Allowed? <==> !Holds(cfg, account, campaign, now)
    ensures Limits(cfg, Rolled(account, now), campaign, now) == Denied(seconds, false) <==> HeldFor(cfg, account, campaign, now, seconds)
    ensures Limits(cfg, Rolled(account, now), campaign, now).Denied? ==>
              var denial := Limits(cfg, Rolled(account, now), campaign, now); denial.delaySeconds > 0 && !denial.circuitBroken
  {
    if TooSoon(cfg, account, now) {
      PacingSeconds(cfg, account, now, seconds);
    }
  }

  /** The rule that decides. The gate refuses for good, with no delay, exactly when one of rules 1
      to 4 fails, and trips the breaker exactly when the bounce rule is the first to fail. It asks
      for `seconds` of delay exactly when rules 1 to 4 pass and a full day counter (3600), a full
      hour counter (600) or the pacing rule holds the job back. */
  lemma DecidingRule(cfg: Settings, db: Db, account: Account, campaign: Campaign, lead: Lead, now: int, seconds: int)
    requires seconds > 0
    ensures var decision := Evaluate(cfg, db, account, campaign, lead, now).decision;
            var passes := Addressable(db, account, campaign, lead) && BouncesOk(cfg, campaign);
            && (decision == Denied(0, false) <==> !Addressable(db, account, campaign, lead))
            && (decision == Denied(0, true) <==> Addressable(db, account, campaign, lead) && !BouncesOk(cfg, campaign))
            && (decision == Denied(seconds, false) <==> passes && HeldFor(cfg, account, campaign, now, seconds))
            && (decision == Allowed <==> passes && !Holds(cfg, account, campaign, now))
            && (decision.Denied? ==> decision.delaySeconds >= 0 && (decision.delaySeconds > 0 ==> !decision.circuitBroken))
  {
    SamePicture(cfg, db, account, campaign, lead, now);
    LimitsHold(cfg, account, campaign, now, seconds);
  }

  /** What the evaluation writes: nothing when one of rules 1 to 4 fails, otherwise the day of the
      evaluation and, on a new day, zero counters. */
  lemma GateWrites(cfg: Settings, db: Db, account: Account, campaign: Campaign, lead: Lead, now: int)
    ensures Evaluate(cfg, db, account, campaign, lead, now).account ==
              if Addressable(db, account, campaign, lead) && BouncesOk(cfg, campaign)
              then account.(sendsToday := Today(account, now), sendsThisHour := ThisHour(account, now),
                            lastResetDay := Some(now / 86_400_000_000))
              else account
  {
    SamePicture(cfg, db, account, campaign, lead, now);
  }
}

/** services/sending_policy.py: the gate as a decision list that resets and counts on the
    account row it is given. */
module SendingPolicy {
  import opened Text
  import opened Records
  import opened PolicySpec
  import opened Store

  class PolicyEngine {
    const cfg: Settings

    constructor (cfg: Settings)
      ensures this.cfg == cfg
    {
      this.cfg := cfg;
    }

    /** Evaluates account `a` for a campaign and a lead of the session; the only write is the
        account's day rollover. */
    method Evaluate(session: Session, a: int, campaign: Campaign, lead: Lead, now: int) returns (decision: Decision)
      requires a in session.accounts
      modifies session`accounts
      ensures var evaluation := PolicySpec.Evaluate(cfg, old(session.Rows()), old(session.accounts)[a], campaign, lead, now);
              && decision == evaluation.decision
              && session.accounts == old(session.accounts)[a := evaluation.account]
    {
      var account := session.accounts[a];
      if !account.active {
        return Denied(0, false);
      }
      if !account.healthy {
        return Denied(0, false);
      }
      if lead.status.Unsubscribed? || lead.status.Bounced? {
        return Denied(0, false);
      }
      if (campaign.org, lead.email) in session.suppressed {
        return Denied(0, false);
      }
      if !campaign.status.Active? {
        return Denied(0, false);
      }
      if campaign.totalSent != 0 && campaign.totalSent >= BREAKER_MIN_SENT {
        if 100.0 * campaign.totalBounces as real > cfg.maxBounceRate * campaign.totalSent as real {
          return Denied(0, true);
        }
      }
      var today := DayOf(now);
      if account.lastResetDay.Some? && account.lastResetDay.value != today {
        account := account.(sendsToday := 0);
        account := account.(sendsThisHour := 0);
      }
      account := account.(lastResetDay := Some(today));
      session.accounts := session.accounts[a := account];

      var dailyCap := Min(cfg.dailyLimit, if campaign.dailyLimit != 0 then campaign.dailyLimit else cfg.dailyLimit);
      if account.sendsToday >= dailyCap {
        return Denied(DAILY_LIMIT_DELAY, false);
      }
      if account.sendsThisHour >= cfg.hourlyLimit {
        return Denied(HOURLY_LIMIT_DELAY, false);
      }
      if account.lastSendAt.Some? {
        var elapsed := now - account.lastSendAt.value;
        if elapsed < cfg.minDelaySeconds * SECOND {
          return Denied((cfg.minDelaySeconds * SECOND - elapsed) / SECOND + 1, false);
        }
      }
      return Allowed;
    }

    method RecordSend(session: Session, a: int, now: int)
      requires a in session.accounts
      modifies session`accounts
      ensures session.accounts == old(session.accounts)[a := AfterSend(old(session.accounts)[a], now)]
    {
      var account := session.accounts[a];
      account := account.(sendsToday := account.sendsToday + 1);
      account := account.(sendsThisHour := account.sendsThisHour + 1);
      account := account.(lastSendAt := Some(now));
      session.accounts := session.accounts[a := account];
    }
  }
}

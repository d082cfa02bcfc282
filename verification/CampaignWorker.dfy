/** workers/campaign_worker.py: one execution, and the transaction around it. */
module CampaignWorker {
  import opened Text
  import opened Records
  import opened JobRows
  import opened QueueSpec
  import opened PolicySpec
  import opened WorkerSpec
  import opened Store
  import opened DurableQueue
  import opened SendingPolicy

  /** The outside world: what was asked of the provider, and what it took. Nothing a
      session does ever takes a request back. */
  class Provider {
    var requests: seq<JobKey>
    var taken: seq<JobKey>

    constructor ()
      ensures requests == [] && taken == []
    {
      requests, taken := [], [];
    }

    /** What the worker gets to see is the answer alone; `takes` is whether the message went out. */
    method Send(k: JobKey, answer: SendResult, takes: bool) returns (reply: SendResult)
      modifies this
      ensures reply == answer && requests == old(requests) + [k]
      ensures taken == old(taken) + if takes then [k] else []
    {
      reply := answer;
      requests := requests + [k];
      if takes {
        taken := taken + [k];
      }
    }
  }

  class CampaignWorker {
    const cfg: Settings
    const queue: DurableQueue
    const policy: PolicyEngine

    constructor (cfg: Settings, workerId: string)
      ensures this.cfg == cfg && queue.workerId == workerId && policy.cfg == cfg
      ensures fresh(queue) && fresh(policy)
    {
      this.cfg := cfg;
      queue := new DurableQueue(workerId);
      policy := new PolicyEngine(cfg);
    }

    /** Any active, healthy account of the organization. */
    method SelectAccount(session: Session, org: int) returns (choice: Option<int>)
      ensures IsAccountChoice(session.Rows(), org, choice)
    {
      if a :| a in session.accounts && session.accounts[a].org == org && session.accounts[a].active && session.accounts[a].healthy {
        choice := Some(a);
      } else {
        choice := None;
      }
    }

    /** The rest of an execution once a job is claimed and its account chosen: rule on it,
        dispatch it, write the outcome. */
    method HandleClaimed(session: Session, provider: Provider, k: JobKey, met: Inputs) returns (ruling: Ruling)
      requires policy.cfg == cfg && queue.workerId == met.worker
      requires k in session.jobs && met.pick == Some(k)
      requires IsAccountChoice(session.Rows(), k.org, met.account)
      modifies session, provider
      ensures ruling == Rule(cfg, old(session.Rows()), k, met.account, met.decrypts, met.clock.policy)
      ensures session.Rows() == Settle(Consulted(cfg, old(session.Rows()), k, met.account, met.decrypts, met.clock.policy), k, ruling, met)
      ensures provider.requests == old(provider.requests) + if ruling.Dispatch? then [k] else []
      ensures provider.taken == old(provider.taken) + if ruling.Dispatch? && met.taken then [k] else []
    {
      if k.email !in session.emails || k.lead !in session.leads || k.campaign !in session.campaigns {
        queue.FailSendJob(session, k, false, met.clock.finish);
        return Missing;
      }
      if met.account.None? || !session.accounts[met.account.value].hasCredentials {
        if cfg.production {
          queue.FailSendJob(session, k, true, met.clock.finish);
          return NoAccount;
        }
      } else if !met.decrypts {
        queue.FailSendJob(session, k, false, met.clock.finish);
        return BadCredentials;
      }
      if met.account.Some? {
        var decision := policy.Evaluate(session, met.account.value, session.campaigns[k.campaign], session.leads[k.lead], met.clock.policy);
        if decision.Denied? {
          ruling := Reject(session, k, decision, met);
          return;
        }
      }
      ruling := SendUnlessSent(session, provider, k, met);
    }

    /** The idempotency check, then the dispatch. */
    method SendUnlessSent(session: Session, provider: Provider, k: JobKey, met: Inputs) returns (ruling: Ruling)
      requires policy.cfg == cfg && queue.workerId == met.worker
      requires k in session.jobs && k.email in session.emails
      requires met.account.Some? ==> met.account.value in session.accounts
      modifies session, provider
      ensures var rec := old(session.emails)[k.email];
              ruling == if rec.status.Sent? && Truthy(rec.messageId) then AlreadySent(rec.messageId) else Dispatch
      ensures session.Rows() == Settle(old(session.Rows()), k, ruling, met)
      ensures provider.requests == old(provider.requests) + if ruling.Dispatch? then [k] else []
      ensures provider.taken == old(provider.taken) + if ruling.Dispatch? && met.taken then [k] else []
    {
      var rec := session.emails[k.email];
      if rec.status.Sent? && Truthy(rec.messageId) {
        queue.CompleteSendJob(session, k, rec.messageId, met.clock.finish);
        return AlreadySent(rec.messageId);
      }
      var reply := provider.Send(k, met.reply, met.taken);
      Persist(session, k, reply, met);
      return Dispatch;
    }

    /** A denied job: trip the breaker, then postpone or fail it. */
    method Reject(session: Session, k: JobKey, decision: Decision, met: Inputs) returns (ruling: Ruling)
      requires decision.Denied? && queue.workerId == met.worker && k in session.jobs && k.campaign in session.campaigns
      requires decision.circuitBroken ==> decision.delaySeconds <= 0
      modifies session
      ensures ruling == RuleByPolicy(decision)
      ensures session.Rows() == Settle(old(session.Rows()), k, ruling, met)
    {
      if decision.circuitBroken {
        session.campaigns := session.campaigns[k.campaign := session.campaigns[k.campaign].(status := CampaignStatus.Paused)];
      }
      if decision.delaySeconds > 0 {
        var job := session.jobs[k];
        job := job.(status := JobStatus.Queued, scheduledFor := met.clock.finish + decision.delaySeconds * SECOND);
        session.jobs := session.jobs[k := job.(leaseWorker := None, leaseExpires := None)];
        return Delayed(decision.delaySeconds);
      }
      queue.FailSendJob(session, k, false, met.clock.finish);
      return Refused(decision.circuitBroken);
    }

    /** Writes the provider's answer. */
    method Persist(session: Session, k: JobKey, reply: SendResult, met: Inputs)
      requires reply == met.reply && queue.workerId == met.worker && k in session.jobs
      requires met.account.Some? ==> met.account.value in session.accounts
      modifies session
      ensures session.Rows() == Settle(old(session.Rows()), k, Dispatch, met)
    {
      if reply.success && Truthy(reply.messageId) {
        queue.CompleteSendJob(session, k, reply.messageId, met.clock.finish);
        if met.account.Some? {
          policy.RecordSend(session, met.account.value, met.clock.finish);
        }
      } else {
        queue.FailSendJob(session, k, reply.retryable, met.clock.finish);
      }
    }

    /** One execution on an open session. `met` describes what the queries returned; with it
        the whole effect is `Execute`. */
    method ExecuteJob(session: Session, provider: Provider, clock: Clock, locked: set<JobKey>, decrypts: bool, answer: SendResult, taken: bool)
      returns (processed: bool, ghost met: Inputs)
      requires policy.cfg == cfg && Ordered(clock) && ProviderReply(answer) && (answer.success ==> taken)
      modifies session, provider
      ensures met.worker == queue.workerId && met.clock == clock && met.locked == locked && met.decrypts == decrypts
      ensures met.reply == answer && met.taken == taken
      ensures Possible(old(session.Rows()), met) && processed == met.pick.Some?
      ensures session.Rows() == Execute(cfg, old(session.Rows()), met)
      ensures provider.requests == old(provider.requests) + if Dispatches(cfg, old(session.Rows()), met) then [met.pick.value] else []
      ensures provider.taken == old(provider.taken) + if Delivers(cfg, old(session.Rows()), met) then [met.pick.value] else []
    {
      var reaped := queue.ReapOrphanedJobs(session, clock.reap);
      var claimed := queue.ClaimSendJob(session, JOB_LEASE_SECONDS, locked, clock.claim);
      if claimed.None? {
        met := Inputs(queue.workerId, clock, locked, None, None, decrypts, answer, taken);
        return false, met;
      }
      var k := claimed.value;
      var account := SelectAccount(session, k.org);
      var inputs := Inputs(queue.workerId, clock, locked, Some(k), account, decrypts, answer, taken);
      var ruling := HandleClaimed(session, provider, k, inputs);
      return true, inputs;
    }

    /** `process_next_job`: the execution in its own transaction. When the process survives,
        the execution is committed; when it is lost after the provider was asked, the database
        is as before and what the provider took stays taken. */
    method ProcessNextJob(database: Database, provider: Provider, clock: Clock, locked: set<JobKey>,
                          decrypts: bool, answer: SendResult, taken: bool, survives: bool)
      returns (processed: bool, ghost met: Inputs)
      requires policy.cfg == cfg && Ordered(clock) && ProviderReply(answer) && (answer.success ==> taken)
      modifies database, provider
      ensures met.clock == clock && met.worker == queue.workerId && met.reply == answer && met.taken == taken
      ensures Possible(old(database.committed), met) && processed == met.pick.Some?
      ensures database.committed == if survives then Execute(cfg, old(database.committed), met) else old(database.committed)
      ensures provider.taken == old(provider.taken) + if Delivers(cfg, old(database.committed), met) then [met.pick.value] else []
    {
      var session := database.Begin();
      processed, met := ExecuteJob(session, provider, clock, locked, decrypts, answer, taken);
      if survives {
        database.Commit(session);
      }
    }
  }
}

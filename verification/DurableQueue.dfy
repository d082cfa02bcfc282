/** core/queue.py: the operations of the durable queue, working on a session's rows. */
module DurableQueue {
  import opened Text
  import opened Records
  import opened IdempotencyKey
  import opened JobRows
  import opened QueueSpec
  import opened Store

  /** A nonempty set of rows has an earliest one. */
  lemma {:induction false} EarliestExists(jobs: map<JobKey, SendJob>, keys: set<JobKey>)
    requires keys != {} && keys <= jobs.Keys
    ensures exists k <- keys :: forall other <- keys :: jobs[k].scheduledFor <= jobs[other].scheduledFor
  {
    var k :| k in keys;
    if keys != {k} {
      EarliestExists(jobs, keys - {k});
      var best :| best in keys - {k} && forall other <- keys - {k} :: jobs[best].scheduledFor <= jobs[other].scheduledFor;
      var first := if jobs[k].scheduledFor <= jobs[best].scheduledFor then k else best;
      assert forall other <- keys :: other == k || other in keys - {k};
      assert forall other <- keys :: jobs[first].scheduledFor <= jobs[other].scheduledFor;
    }
  }

  class DurableQueue {
    const workerId: string

    constructor (workerId: string)
      ensures this.workerId == workerId
    {
      this.workerId := workerId;
    }

    /** Idempotent per key: an existing row is returned as it is. */
    method EnqueueSendJob(session: Session, org: int, campaign: int, lead: int, email: int,
                          scheduledFor: Option<int>, maxAttempts: int, now: int) returns (k: JobKey)
      requires TextsOk(session.Rows())
      modifies session
      ensures k == JobKey(org, campaign, lead, email) && k in session.jobs
      ensures session.Rows() == Enqueue(old(session.Rows()), k, now, (if scheduledFor.Some? then scheduledFor.value else now), maxAttempts)
      ensures TextsOk(session.Rows())
    {
      k := JobKey(org, campaign, lead, email);
      var key := KeyText(k);
      var sched := if scheduledFor.Some? then scheduledFor.value else now;
      LookupByText(session.Rows(), k);
      if exists r <- session.jobs :: session.jobs[r].idempotencyKey == key {
        return;
      }
      var job := SendJob(key, JobStatus.Queued, None, None, 0, maxAttempts, sched, now, []);
      session.jobs := session.jobs[k := job];
      if email in session.emails {
        session.emails := session.emails[email := session.emails[email].(status := EmailStatus.Queued)];
      }
    }

    /** Claims an earliest eligible row no other transaction has locked, if there is one. */
    method ClaimSendJob(session: Session, leaseSeconds: int, locked: set<JobKey>, now: int) returns (claimed: Option<JobKey>)
      modifies session
      ensures IsPick(old(session.Rows()), now, locked, claimed)
      ensures session.Rows() == match claimed
                                case None => old(session.Rows())
                                case Some(k) => Claim(old(session.Rows()), k, workerId, now, leaseSeconds)
    {
      var rows := session.Rows();
      var eligible := set k | k in session.jobs && k !in locked && Eligible(rows, k, now);
      assert forall k <- rows.jobs :: k !in locked && Eligible(rows, k, now) ==> k in eligible;
      if eligible == {} {
        return None;
      }
      EarliestExists(session.jobs, eligible);
      var k :| k in eligible && forall other <- eligible :: session.jobs[k].scheduledFor <= session.jobs[other].scheduledFor;
      var job := session.jobs[k];
      job := job.(status := JobStatus.Processing);
      job := job.(leaseWorker := Some(workerId));
      job := job.(leaseExpires := Some(now + leaseSeconds * SECOND));
      job := job.(attemptCount := job.attemptCount + 1);
      session.jobs := session.jobs[k := job];
      claimed := Some(k);
    }

    /** Appends an audit row; the earlier ones stay as they are. */
    method RecordAttempt(session: Session, k: JobKey, outcome: Outcome, messageId: Option<string>)
      requires k in session.jobs
      modifies session`jobs
      ensures session.jobs == old(session.jobs)[k := Recorded(old(session.jobs)[k], workerId, outcome, messageId)]
    {
      var job := session.jobs[k];
      var attempt := SendAttempt(job.attemptCount, workerId, outcome, messageId);
      session.jobs := session.jobs[k := job.(attempts := job.attempts + [attempt])];
    }

    method CompleteSendJob(session: Session, k: JobKey, messageId: Option<string>, now: int)
      modifies session
      ensures session.Rows() == Complete(old(session.Rows()), k, workerId, messageId, now)
    {
      if k !in session.jobs {
        return;
      }
      var job := session.jobs[k];
      session.jobs := session.jobs[k := job.(status := JobStatus.Sent, leaseWorker := None, leaseExpires := None)];
      if k.email in session.emails {
        var email := session.emails[k.email];
        session.emails := session.emails[k.email := email.(status := EmailStatus.Sent, messageId := messageId, sentAt := Some(now))];
      }
      CountDelivery(session, k);
      RecordAttempt(session, k, Success, messageId);
      assert session.jobs == old(session.jobs)[k := AfterSuccess(job, workerId, messageId)];
    }

    /** The lead and campaign side of a completion. */
    method CountDelivery(session: Session, k: JobKey)
      modifies session`leads, session`campaigns
      ensures session.leads == if k.lead in old(session.leads)
                               then old(session.leads)[k.lead := old(session.leads)[k.lead].(status := LeadStatus.Emailed)]
                               else old(session.leads)
      ensures session.campaigns == if k.campaign in old(session.campaigns)
                                   then var c := old(session.campaigns)[k.campaign];
                                        old(session.campaigns)[k.campaign := c.(totalSent := c.totalSent + 1)]
                                   else old(session.campaigns)
    {
      if k.lead in session.leads {
        session.leads := session.leads[k.lead := session.leads[k.lead].(status := LeadStatus.Emailed)];
      }
      if k.campaign in session.campaigns {
        var campaign := session.campaigns[k.campaign];
        session.campaigns := session.campaigns[k.campaign := campaign.(totalSent := campaign.totalSent + 1)];
      }
    }

    method FailSendJob(session: Session, k: JobKey, retryable: bool, now: int)
      modifies session
      ensures session.Rows() == Fail(old(session.Rows()), k, workerId, retryable, now)
    {
      if k !in session.jobs {
        return;
      }
      var job := session.jobs[k];
      var outcome;
      if retryable && job.attemptCount < job.maxAttempts {
        var delay := BACKOFF_BASE_SECONDS * Pow2(Max(0, job.attemptCount - 1));
        job := job.(status := JobStatus.RetryWait, scheduledFor := now + delay * SECOND);
        outcome := TransientFailure;
      } else {
        job := job.(status := JobStatus.Failed);
        outcome := PermanentFailure;
        if k.email in session.emails {
          session.emails := session.emails[k.email := session.emails[k.email].(status := EmailStatus.Failed)];
        }
      }
      session.jobs := session.jobs[k := job.(leaseWorker := None, leaseExpires := None)];
      RecordAttempt(session, k, outcome, None);
    }

    /** Resets every row whose lease ran out, and counts them. */
    method ReapOrphanedJobs(session: Session, now: int) returns (reaped: nat)
      modifies session`jobs
      ensures session.Rows() == Reap(old(session.Rows()), now)
      ensures reaped == |set k | k in old(session.jobs) && Expired(old(session.jobs)[k], now)|
    {
      var orphaned := set k | k in session.jobs && Expired(session.jobs[k], now);
      var todo := orphaned;
      reaped := 0;
      while todo != {}
        invariant todo <= orphaned && reaped == |orphaned| - |todo|
        invariant session.jobs.Keys == old(session.jobs).Keys
        invariant forall k <- session.jobs :: session.jobs[k] ==
                    if k in orphaned - todo then AfterReap(old(session.jobs)[k]) else old(session.jobs)[k]
      {
        var k :| k in todo;
        var job := session.jobs[k];
        session.jobs := session.jobs[k := job.(status := JobStatus.Queued, leaseWorker := None, leaseExpires := None)];
        todo := todo - {k};
        reaped := reaped + 1;
      }
    }
  }
}

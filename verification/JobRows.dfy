/** The life of one send job row (core/queue.py): what a claim, a success, a failure, a
    postponement and the reaper do to it, and what its audit rows say about it. */
module JobRows {
  import opened Text
  import opened Records
  import opened IdempotencyKey

  const BACKOFF_BASE_SECONDS: int := 15

  predicate Terminal(row: SendJob)
  {
    row.status.Sent? || row.status.Failed? || row.status.Cancelled?
  }

  /** The holder's lease has run out. */
  predicate Expired(row: SendJob, now: int)
  {
    row.status.Processing? && row.leaseExpires.Some? && row.leaseExpires.value < now
  }

  predicate Due(row: SendJob, now: int)
  {
    (row.status.Queued? || row.status.RetryWait?) && row.scheduledFor <= now
  }

  predicate Claimable(row: SendJob, now: int)
  {
    Due(row, now) || Expired(row, now)
  }

  function NewJob(k: JobKey, now: int, scheduledFor: int, maxAttempts: int): SendJob
  {
    SendJob(KeyText(k), JobStatus.Queued, None, None, 0, maxAttempts, scheduledFor, now, [])
  }

  function AfterClaim(row: SendJob, worker: string, now: int, leaseSeconds: int): SendJob
  {
    row.(status := JobStatus.Processing, leaseWorker := Some(worker),
         leaseExpires := Some(now + leaseSeconds * SECOND), attemptCount := row.attemptCount + 1)
  }

  function Released(row: SendJob, status: JobStatus): SendJob
  {
    row.(status := status, leaseWorker := None, leaseExpires := None)
  }

  function Recorded(row: SendJob, worker: string, outcome: Outcome, messageId: Option<string>): SendJob
  {
    row.(attempts := row.attempts + [SendAttempt(row.attemptCount, worker, outcome, messageId)])
  }

  function AfterSuccess(row: SendJob, worker: string, messageId: Option<string>): SendJob
  {
    Recorded(Released(row, JobStatus.Sent), worker, Success, messageId)
  }

  function Pow2(n: nat): (p: nat)
    ensures p >= 1
  {
    if n == 0 then 1 else 2 * Pow2(n - 1)
  }

  /** `int(base * 2 ** max(0, attempt - 1))`. */
  function BackoffSeconds(attempt: int): int
  {
    BACKOFF_BASE_SECONDS * Pow2(Max(0, attempt - 1))
  }

  predicate Retries(row: SendJob, retryable: bool)
  {
    retryable && row.attemptCount < row.maxAttempts
  }

  function AfterFailure(row: SendJob, worker: string, retryable: bool, now: int): SendJob
  {
    if Retries(row, retryable) then
      Recorded(Released(row, JobStatus.RetryWait).(scheduledFor := now + BackoffSeconds(row.attemptCount) * SECOND),
               worker, TransientFailure, None)
    else
      Recorded(Released(row, JobStatus.Failed), worker, PermanentFailure, None)
  }

  function AfterPostponement(row: SendJob, at: int): SendJob
  {
    Released(row, JobStatus.Queued).(scheduledFor := at)
  }

  function AfterReap(row: SendJob): SendJob
  {
    Released(row, JobStatus.Queued)
  }

  /** The row as `reap_orphaned_jobs` leaves it. */
  function Reaped(row: SendJob, now: int): SendJob
  {
    if Expired(row, now) then AfterReap(row) else row
  }

  // ---- What the audit rows say ------------------------------------------------------------

  predicate Numbered(attempts: seq<SendAttempt>, bound: nat)
  {
    && (forall i :: 0 <= i < |attempts| ==> 1 <= attempts[i].number <= bound)
    && (forall i, j :: 0 <= i < j < |attempts| ==> attempts[i].number < attempts[j].number)
  }

  /** Both lease fields are set while the job is being processed, and only then. */
  predicate LeaseMatchesStatus(row: SendJob)
  {
    && (row.status.Processing? <==> row.leaseWorker.Some?)
    && (row.status.Processing? <==> row.leaseExpires.Some?)
  }

  function LastOutcome(row: SendJob): Option<Outcome>
  {
    if row.attempts == [] then None else Some(row.attempts[|row.attempts| - 1].outcome)
  }

  /** Only the last row can be anything but a transient failure, and a transient failure leaves
      budget. */
  predicate OutcomesOk(a: seq<SendAttempt>, maxAttempts: int)
  {
    && (forall i :: 0 <= i < |a| - 1 ==> a[i].outcome.TransientFailure?)
    && (forall i :: 0 <= i < |a| && a[i].outcome.TransientFailure? ==> a[i].number < maxAttempts)
  }

  /** What the last row says about the status. */
  predicate LastOk(row: SendJob)
  {
    && (row.status.Queued? || row.status.Processing? || row.status.RetryWait? || row.status.Sent? || row.status.Failed?)
    && (row.status.Sent? <==> LastOutcome(row) == Some(Success))
    && (row.status.Failed? <==> LastOutcome(row) == Some(PermanentFailure))
    && (row.status.RetryWait? ==> LastOutcome(row) == Some(TransientFailure))
  }

  /** The audit log determines the state of the row; `postponed` and `expired` count the
      executions that ended in a policy postponement or in a lost lease. */
  predicate AuditOk(row: SendJob, postponed: nat, expired: nat)
  {
    var a := row.attempts;
    && LeaseMatchesStatus(row) && LastOk(row)
    && Numbered(a, row.attemptCount) && OutcomesOk(a, row.maxAttempts)
    && (row.status.Processing? && a != [] ==> a[|a| - 1].number < row.attemptCount)
    && row.attemptCount == |a| + postponed + expired + (if row.status.Processing? then 1 else 0)
  }

  lemma NewJobAudit(k: JobKey, now: int, scheduledFor: int, maxAttempts: int)
    ensures AuditOk(NewJob(k, now, scheduledFor, maxAttempts), 0, 0)
  {
  }

  lemma ReapKeepsAudit(row: SendJob, postponed: nat, expired: nat, now: int)
    requires AuditOk(row, postponed, expired)
    ensures AuditOk(Reaped(row, now), postponed, expired + if Expired(row, now) then 1 else 0)
  {
  }

  lemma ClaimKeepsAudit(row: SendJob, postponed: nat, expired: nat, worker: string, now: int, lease: int)
    requires AuditOk(row, postponed, expired) && Claimable(row, now)
    ensures AuditOk(AfterClaim(row, worker, now, lease), postponed, expired + if Expired(row, now) then 1 else 0)
  {
  }

  lemma AppendKeepsNumbers(a: seq<SendAttempt>, next: SendAttempt, bound: nat)
    requires Numbered(a, bound) && 1 <= next.number <= bound && (a != [] ==> a[|a| - 1].number < next.number)
    ensures Numbered(a + [next], bound)
  {
  }

  /** While a row is being processed all its audit rows are transient failures. */
  lemma AllTransient(row: SendJob)
    requires LastOk(row) && OutcomesOk(row.attempts, row.maxAttempts) && row.status.Processing?
    ensures forall i :: 0 <= i < |row.attempts| ==> row.attempts[i].outcome.TransientFailure?
  {
    if row.attempts != [] {
      assert LastOutcome(row) == Some(row.attempts[|row.attempts| - 1].outcome);
    }
  }

  lemma AppendKeepsOutcomes(a: seq<SendAttempt>, next: SendAttempt, maxAttempts: int)
    requires OutcomesOk(a, maxAttempts) && forall i :: 0 <= i < |a| ==> a[i].outcome.TransientFailure?
    requires next.outcome.TransientFailure? ==> next.number < maxAttempts
    ensures OutcomesOk(a + [next], maxAttempts)
  {
  }

  /** Finishing an execution: the lease is cleared and one audit row appended that fits the new
      status. */
  lemma FinishKeepsAudit(row: SendJob, postponed: nat, expired: nat, after: SendJob, next: SendAttempt)
    requires AuditOk(row, postponed, expired) && row.status.Processing?
    requires after.attempts == row.attempts + [next] && next.number == row.attemptCount == after.attemptCount
    requires after.maxAttempts == row.maxAttempts && after.leaseWorker.None? && after.leaseExpires.None?
    requires match next.outcome
             case Success => after.status.Sent?
             case PermanentFailure => after.status.Failed?
             case TransientFailure => after.status.RetryWait? && row.attemptCount < row.maxAttempts
    ensures AuditOk(after, postponed, expired)
  {
    AllTransient(row);
    AppendKeepsNumbers(row.attempts, next, row.attemptCount);
    AppendKeepsOutcomes(row.attempts, next, row.maxAttempts);
    assert LastOutcome(after) == Some(next.outcome);
  }

  lemma SuccessKeepsAudit(row: SendJob, postponed: nat, expired: nat, worker: string, messageId: Option<string>)
    requires AuditOk(row, postponed, expired) && row.status.Processing?
    ensures AuditOk(AfterSuccess(row, worker, messageId), postponed, expired)
  {
    var next := SendAttempt(row.attemptCount, worker, Success, messageId);
    FinishKeepsAudit(row, postponed, expired, AfterSuccess(row, worker, messageId), next);
  }

  lemma FailureKeepsAudit(row: SendJob, postponed: nat, expired: nat, worker: string, retryable: bool, now: int)
    requires AuditOk(row, postponed, expired) && row.status.Processing?
    ensures AuditOk(AfterFailure(row, worker, retryable, now), postponed, expired)
  {
    var outcome := if Retries(row, retryable) then TransientFailure else PermanentFailure;
    var next := SendAttempt(row.attemptCount, worker, outcome, None);
    FinishKeepsAudit(row, postponed, expired, AfterFailure(row, worker, retryable, now), next);
  }

  lemma PostponementKeepsAudit(row: SendJob, postponed: nat, expired: nat, at: int)
    requires AuditOk(row, postponed, expired) && row.status.Processing?
    ensures AuditOk(AfterPostponement(row, at), postponed + 1, expired)
  {
  }

  // ---- Bounded work -----------------------------------------------------------------------

  lemma {:induction false} NumbersGrow(attempts: seq<SendAttempt>, bound: nat, i: nat)
    requires Numbered(attempts, bound) && i < |attempts|
    ensures i + 1 <= attempts[i].number
  {
    if i > 0 {
      NumbersGrow(attempts, bound, i - 1);
    }
  }

  /** A job never collects more than max(1, max_attempts) audit rows, although its attempt
      counter may pass max_attempts. */
  lemma AuditBoundsWork(row: SendJob, postponed: nat, expired: nat)
    requires AuditOk(row, postponed, expired)
    ensures |row.attempts| <= Max(1, row.maxAttempts)
    ensures !Terminal(row) ==> |row.attempts| <= Max(0, row.maxAttempts - 1)
  {
    var a := row.attempts;
    if |a| > 1 {
      NumbersGrow(a, row.attemptCount, |a| - 2);
      NumbersGrow(a, row.attemptCount, |a| - 1);
    } else if |a| == 1 {
      NumbersGrow(a, row.attemptCount, 0);
    }
  }

  // ---- Total backoff ----------------------------------------------------------------------

  /** Seconds of retry delay charged by the first `n` audit rows. */
  function BackoffCharged(attempts: seq<SendAttempt>, n: nat): int
    requires n <= |attempts|
  {
    if n == 0 then 0
    else BackoffCharged(attempts, n - 1) +
         (if attempts[n - 1].outcome.TransientFailure? then BackoffSeconds(attempts[n - 1].number) else 0)
  }

  lemma {:induction false} Pow2Monotone(a: nat, b: nat)
    requires a <= b
    ensures Pow2(a) <= Pow2(b)
  {
    if a < b {
      Pow2Monotone(a, b - 1);
    }
  }

  lemma {:induction false} BackoffUpTo(attempts: seq<SendAttempt>, bound: nat, n: nat)
    requires Numbered(attempts, bound) && n <= |attempts|
    ensures BackoffCharged(attempts, n) <= if n == 0 then 0 else BACKOFF_BASE_SECONDS * (Pow2(attempts[n - 1].number) - 1)
  {
    if n > 0 {
      BackoffUpTo(attempts, bound, n - 1);
      var last := attempts[n - 1].number;
      assert Pow2(last) == 2 * Pow2(last - 1);
      if n > 1 {
        Pow2Monotone(attempts[n - 2].number, last - 1);
      }
    }
  }

  /** However many postponements and lost leases skip attempt numbers, all the retry delays
      charged to a job together stay within 15 * (2^(max_attempts - 1) - 1) seconds. */
  lemma TotalBackoffBounded(row: SendJob, postponed: nat, expired: nat)
    requires AuditOk(row, postponed, expired)
    ensures BackoffCharged(row.attempts, |row.attempts|)
              <= BACKOFF_BASE_SECONDS * (Pow2(Max(0, row.maxAttempts - 1)) - 1)
  {
    var a := row.attempts;
    var n := if a != [] && !a[|a| - 1].outcome.TransientFailure? then |a| - 1 else |a|;
    assert BackoffCharged(a, |a|) == BackoffCharged(a, n);
    BackoffUpTo(a, row.attemptCount, n);
    if n > 0 {
      Pow2Monotone(a[n - 1].number, row.maxAttempts - 1);
    } else {
      Pow2Monotone(0, Max(0, row.maxAttempts - 1));
    }
  }

  /** A retry waits exactly what its audit row charges: the rescheduled time is the failure
      time plus the growth of the charged backoff. How much that is, FirstRetryWaits and
      NextRetryWaitsTwice say. */
  lemma RetryWaitsWhatItCharges(row: SendJob, worker: string, now: int)
    requires Retries(row, true)
    ensures var after := AfterFailure(row, worker, true, now);
            && after.status == JobStatus.RetryWait
            && after.scheduledFor - now
                 == SECOND * (BackoffCharged(after.attempts, |after.attempts|) - BackoffCharged(row.attempts, |row.attempts|))
            && after.scheduledFor >= now + BACKOFF_BASE_SECONDS * SECOND
  {
    var after := AfterFailure(row, worker, true, now);
    ChargedPrefix(row.attempts, after.attempts, |row.attempts|);
    Pow2Monotone(0, Max(0, row.attemptCount - 1));
  }

  /** Exponential backoff in numbers: the first retry is due 15 seconds after the failure. */
  lemma FirstRetryWaits(row: SendJob, worker: string, now: int)
    requires row.attemptCount <= 1 && row.attemptCount < row.maxAttempts
    ensures AfterFailure(row, worker, true, now).status == JobStatus.RetryWait
    ensures AfterFailure(row, worker, true, now).scheduledFor == now + 15_000_000
  {
    assert Max(0, row.attemptCount - 1) == 0;
  }

  /** And every further attempt waits exactly twice as long as the one before it. */
  lemma NextRetryWaitsTwice(row: SendJob, next: SendJob, worker: string, now: int, worker': string, now': int)
    requires 1 <= row.attemptCount && row.attemptCount < row.maxAttempts
    requires next.attemptCount == row.attemptCount + 1 && next.attemptCount < next.maxAttempts
    ensures AfterFailure(next, worker', true, now').scheduledFor - now' == 2 * (AfterFailure(row, worker, true, now).scheduledFor - now)
  {
    assert Max(0, next.attemptCount - 1) == Max(0, row.attemptCount - 1) + 1;
  }

  /** The bound on the total is attained: transient failures of the attempts 1 to n, with none
      skipped, are charged exactly 15 * (2^n - 1) seconds. */
  lemma {:induction false} BackoffAttained(attempts: seq<SendAttempt>, n: nat)
    requires n <= |attempts|
    requires forall i :: 0 <= i < n ==> attempts[i].number == i + 1 && attempts[i].outcome == TransientFailure
    ensures BackoffCharged(attempts, n) == 15 * (Pow2(n) - 1)
  {
    if n > 0 {
      BackoffAttained(attempts, n - 1);
      assert Max(0, n - 1) == n - 1 && Pow2(n) == 2 * Pow2(n - 1);
    }
  }

  lemma {:induction false} ChargedPrefix(a: seq<SendAttempt>, b: seq<SendAttempt>, n: nat)
    requires n <= |a| <= |b| && b[..|a|] == a
    ensures BackoffCharged(a, n) == BackoffCharged(b, n)
  {
    if n > 0 {
      assert a[n - 1] == b[..|a|][n - 1];
      ChargedPrefix(a, b, n - 1);
    }
  }

  // ---- Remaining work ---------------------------------------------------------------------

  /** How much work a job can still cause: nothing when terminal, otherwise one final
      execution plus the unused retry budget. */
  function Remaining(row: SendJob): nat
  {
    if Terminal(row) then 0 else 1 + Max(0, row.maxAttempts - row.attemptCount)
  }
}

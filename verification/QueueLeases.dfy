/** The send queue at the granularity of its operations: enqueue, claim, complete, fail and
    reap as separate committed steps of any number of workers. Completing and failing do not
    look at the lease holder, as in core/queue.py. */
module QueueLeases {
  import opened Text
  import opened Records
  import opened JobRows
  import opened QueueSpec
  import Leases

  datatype QueueOp =
    | Enqueue(k: JobKey, at: int, scheduledFor: int, maxAttempts: int)
    | Claim(k: JobKey, worker: string, at: int, leaseSeconds: int, locked: set<JobKey>)
    | Complete(k: JobKey, worker: string, messageId: Option<string>, at: int)
    | Fail(k: JobKey, worker: string, retryable: bool, at: int)
    | Reap(at: int)

  datatype QueueState = QueueState(db: Db, now: int)

  predicate Enabled(s: QueueState, op: QueueOp)
  {
    && s.now <= op.at
    && (op.Enqueue? ==> op.k !in s.db.jobs)
    && (op.Claim? ==> IsPick(s.db, op.at, op.locked, Some(op.k)) && op.leaseSeconds >= 0)
    && (op.Complete? || op.Fail? ==> op.k in s.db.jobs)
  }

  function Next(s: QueueState, op: QueueOp): QueueState
    requires Enabled(s, op)
  {
    match op
    case Enqueue(k, at, scheduledFor, maxAttempts) => QueueState(QueueSpec.Enqueue(s.db, k, at, scheduledFor, maxAttempts), at)
    case Claim(k, worker, at, leaseSeconds, _) => QueueState(QueueSpec.Claim(s.db, k, worker, at, leaseSeconds), at)
    case Complete(k, worker, messageId, at) => QueueState(QueueSpec.Complete(s.db, k, worker, messageId, at), at)
    case Fail(k, worker, retryable, at) => QueueState(QueueSpec.Fail(s.db, k, worker, retryable, at), at)
    case Reap(at) => QueueState(QueueSpec.Reap(s.db, at), at)
  }

  predicate Legal(s: QueueState, ops: seq<QueueOp>)
    decreases |ops|, 0
  {
    ops == [] || (Legal(s, ops[..|ops| - 1]) && Enabled(After(s, ops[..|ops| - 1]), ops[|ops| - 1]))
  }

  function After(s: QueueState, ops: seq<QueueOp>): QueueState
    requires Legal(s, ops)
    decreases |ops|, 1
  {
    if ops == [] then s else Next(After(s, ops[..|ops| - 1]), ops[|ops| - 1])
  }

  /** Both lease fields of every row are set exactly while it is being processed. */
  predicate LeasesOk(db: Db)
  {
    forall k <- db.jobs :: LeaseMatchesStatus(db.jobs[k])
  }

  lemma NextKeepsLeases(s: QueueState, op: QueueOp)
    requires LeasesOk(s.db) && Enabled(s, op)
    ensures LeasesOk(Next(s, op).db)
  {
  }

  // ---- The queue is a lease table ---------------------------------------------------------

  function SlotOf(row: SendJob): Option<int>
  {
    if row.status.Processing? then row.leaseExpires else None
  }

  function TableOf(s: QueueState): Leases.Table<JobKey>
  {
    Leases.Table(map k | k in s.db.jobs :: SlotOf(s.db.jobs[k]), s.now)
  }

  function EventOf(op: QueueOp): Leases.Event<JobKey>
  {
    match op
    case Enqueue(k, at, _, _) => Leases.Add(k, at)
    case Claim(k, _, at, leaseSeconds, _) => Leases.Take(k, at, at + leaseSeconds * SECOND)
    case Complete(k, _, _, at) => Leases.Finish(k, at)
    case Fail(k, _, _, at) => Leases.Finish(k, at)
    case Reap(at) => Leases.Reap(at)
  }

  function Trace(ops: seq<QueueOp>): seq<Leases.Event<JobKey>>
  {
    seq(|ops|, i requires 0 <= i < |ops| => EventOf(ops[i]))
  }

  /** Writing one row sets one slot. */
  lemma OneRow(s: QueueState, db: Db, k: JobKey, row: SendJob, at: int)
    requires db.jobs == s.db.jobs[k := row]
    ensures TableOf(QueueState(db, at)) == Leases.Table(TableOf(s).slots[k := SlotOf(row)], at)
  {
  }

  lemma ReapedSlots(jobs: map<JobKey, SendJob>, k: JobKey, at: int)
    requires k in jobs && LeaseMatchesStatus(jobs[k])
    ensures SlotOf(Reaped(jobs[k], at)) == var slot := SlotOf(jobs[k]); if slot.Some? && slot.value < at then None else slot
  {
  }

  lemma ReapRefinesLease(s: QueueState, at: int)
    requires LeasesOk(s.db)
    ensures TableOf(QueueState(QueueSpec.Reap(s.db, at), at)) == Leases.Apply(TableOf(s), Leases.Reap(at))
  {
    var after, applied := TableOf(QueueState(QueueSpec.Reap(s.db, at), at)).slots, Leases.Apply(TableOf(s), Leases.Reap(at)).slots;
    assert after.Keys == applied.Keys;
    forall k <- after
      ensures after[k] == applied[k]
    {
      ReapedSlots(s.db.jobs, k, at);
    }
  }

  /** No claim succeeds while a lease is live. */
  lemma ClaimIsAllowed(s: QueueState, op: QueueOp)
    requires LeasesOk(s.db) && Enabled(s, op) && op.Claim?
    ensures Leases.Allowed(TableOf(s), EventOf(op))
  {
    assert LeaseMatchesStatus(s.db.jobs[op.k]);
  }

  /** Every queue operation is the corresponding lease event; in particular no claim succeeds
      while a lease is live. */
  lemma OperationRefinesLease(s: QueueState, op: QueueOp)
    requires LeasesOk(s.db) && Enabled(s, op)
    ensures Leases.Allowed(TableOf(s), EventOf(op))
    ensures TableOf(Next(s, op)) == Leases.Apply(TableOf(s), EventOf(op))
  {
    var after := Next(s, op).db;
    match op
    case Enqueue(k, at, _, _) => OneRow(s, after, k, after.jobs[k], at);
    case Claim(k, _, at, _, _) =>
      ClaimIsAllowed(s, op);
      OneRow(s, after, k, after.jobs[k], at);
    case Complete(k, _, _, at) => OneRow(s, after, k, after.jobs[k], at);
    case Fail(k, _, _, at) => OneRow(s, after, k, after.jobs[k], at);
    case Reap(at) => ReapRefinesLease(s, at);
  }

  lemma {:induction false} RunRefinesLeases(s: QueueState, ops: seq<QueueOp>)
    requires LeasesOk(s.db) && Legal(s, ops)
    ensures LeasesOk(After(s, ops).db)
    ensures Leases.Possible(TableOf(s), Trace(ops))
    ensures TableOf(After(s, ops)) == Leases.Run(TableOf(s), Trace(ops))
  {
    if ops != [] {
      var n := |ops| - 1;
      var before := After(s, ops[..n]);
      RunRefinesLeases(s, ops[..n]);
      NextKeepsLeases(before, ops[n]);
      OperationRefinesLease(before, ops[n]);
      Leases.OneMore(TableOf(s), Trace(ops[..n]), EventOf(ops[n]));
      assert Trace(ops) == Trace(ops[..n]) + [EventOf(ops[n])];
    }
  }

  /** Lease exclusion: in every run of queue operations by any number of workers, two claims of
      one job with neither a completion nor a failure between them have disjoint validity
      intervals, and a job is PROCESSING exactly while both lease fields are set. */
  lemma ClaimsExclude(s: QueueState, ops: seq<QueueOp>, k: JobKey, i: nat, j: nat)
    requires LeasesOk(s.db) && Legal(s, ops) && i < j < |ops|
    requires ops[i].Claim? && ops[i].k == k && ops[j].Claim? && ops[j].k == k
    requires forall n :: i < n < j ==> !((ops[n].Complete? || ops[n].Fail?) && ops[n].k == k)
    ensures ops[i].at + ops[i].leaseSeconds * SECOND < ops[j].at
    ensures LeasesOk(After(s, ops).db)
  {
    RunRefinesLeases(s, ops);
    Leases.LeasesExclude(TableOf(s), Trace(ops), k, i, j);
  }
}

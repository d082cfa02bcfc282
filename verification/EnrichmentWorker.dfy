/** workers/enrichment_worker.py: the second instance of the lease protocol. */
module EnrichmentWorker {
  import opened Text
  import opened Records
  import opened MaintenanceSpec
  import opened Store
  import opened LeadEnricher
  import Leases

  const LEASE_SECONDS: int := 120

  predicate Claimable(row: EnrichmentJob, now: int)
  {
    row.status.Queued? || EnrichmentExpired(row, now)
  }

  /** A claimable row that was created first and that nobody has locked. */
  predicate IsPick(rows: map<int, EnrichmentJob>, now: int, locked: set<int>, pick: Option<int>)
  {
    match pick
    case None => forall j <- rows :: j !in locked ==> !Claimable(rows[j], now)
    case Some(j) =>
      && j in rows && j !in locked && Claimable(rows[j], now)
      && forall other <- rows :: other !in locked && Claimable(rows[other], now) ==> rows[j].createdAt <= rows[other].createdAt
  }

  function Claimed(row: EnrichmentJob, worker: string, now: int): EnrichmentJob
  {
    row.(status := JobStatus.Processing, leaseWorker := Some(worker),
         leaseExpires := Some(now + LEASE_SECONDS * SECOND), attemptCount := row.attemptCount + 1)
  }

  function Finished(row: EnrichmentJob, success: bool): EnrichmentJob
  {
    row.(status := if success then JobStatus.Sent else JobStatus.Failed, leaseWorker := None, leaseExpires := None)
  }

  lemma {:induction false} OldestExists(rows: map<int, EnrichmentJob>, keys: set<int>)
    requires keys != {} && keys <= rows.Keys
    ensures exists j <- keys :: forall other <- keys :: rows[j].createdAt <= rows[other].createdAt
  {
    EmptyOrInhabited(keys);
    var j :| j in keys;
    if keys != {j} {
      OldestExists(rows, keys - {j});
      var best :| best in keys - {j} && forall other <- keys - {j} :: rows[best].createdAt <= rows[other].createdAt;
      var first := if rows[j].createdAt <= rows[best].createdAt then j else best;
      assert forall other <- keys :: other == j || other in keys - {j};
      assert forall other <- keys :: rows[first].createdAt <= rows[other].createdAt;
    }
  }

  class EnrichmentWorker {
    const workerId: string

    constructor (workerId: string)
      ensures this.workerId == workerId
    {
      this.workerId := workerId;
    }

    method ClaimEnrichmentJob(session: Session, locked: set<int>, now: int) returns (claimed: Option<int>)
      modifies session`enrichment
      ensures IsPick(old(session.enrichment), now, locked, claimed)
      ensures session.enrichment == match claimed
                                    case None => old(session.enrichment)
                                    case Some(j) => old(session.enrichment)[j := Claimed(old(session.enrichment)[j], workerId, now)]
    {
      var claimable := set j | j in session.enrichment && j !in locked && Claimable(session.enrichment[j], now);
      assert forall j <- session.enrichment :: j !in locked && Claimable(session.enrichment[j], now) ==> j in claimable;
      if claimable == {} {
        return None;
      }
      OldestExists(session.enrichment, claimable);
      var j :| j in claimable && forall other <- claimable :: session.enrichment[j].createdAt <= session.enrichment[other].createdAt;
      var job := session.enrichment[j];
      job := job.(status := JobStatus.Processing);
      job := job.(leaseWorker := Some(workerId));
      job := job.(leaseExpires := Some(now + LEASE_SECONDS * SECOND));
      job := job.(attemptCount := job.attemptCount + 1);
      session.enrichment := session.enrichment[j := job];
      claimed := Some(j);
    }

    /** An executed claim always ends SENT or FAILED with the lease cleared; an exception in the
        enricher ends FAILED. The enricher writes the lead in a transaction of its own, which is
        committed before this one and stays whatever becomes of it. */
    method ExecuteJob(session: Session, database: Database, enricher: LeadEnricher, locked: set<int>, now: int, finds: Enrichment)
      returns (processed: bool, ghost claimed: Option<int>)
      modifies session`enrichment, database
      ensures IsPick(old(session.enrichment), now, locked, claimed) && processed == claimed.Some?
      ensures claimed.None? ==> database.committed == old(database.committed)
      ensures claimed.Some? ==>
                var lead := old(session.enrichment)[claimed.value].lead;
                database.committed == AfterEnriching(old(database.committed), lead, finds)
      ensures session.enrichment == match claimed
                                    case None => old(session.enrichment)
                                    case Some(j) =>
                                      old(session.enrichment)[j := Finished(Claimed(old(session.enrichment)[j], workerId, now),
                                        Result(old(database.committed), old(session.enrichment)[j].lead, finds) == Verdict(true))]
    {
      var job := ClaimEnrichmentJob(session, locked, now);
      claimed := job;
      if job.None? {
        return false, claimed;
      }
      var outcome := enricher.EnrichLead(database, session.enrichment[job.value].lead, finds);
      var row := session.enrichment[job.value];
      match outcome {
        case Verdict(success) =>
          row := row.(status := if success then JobStatus.Sent else JobStatus.Failed);
        case Raised =>
          row := row.(status := JobStatus.Failed);
      }
      row := row.(leaseWorker := None, leaseExpires := None);
      session.enrichment := session.enrichment[job.value := row];
      processed := true;
    }

    /** `process_next_job`: the job's row is committed, or rolled back when the worker is lost; the
        lead keeps what the enricher wrote in both cases. */
    method ProcessNextJob(database: Database, enricher: LeadEnricher, locked: set<int>, now: int, finds: Enrichment, survives: bool)
      returns (processed: bool, ghost claimed: Option<int>)
      modifies database
      ensures IsPick(old(database.committed).enrichment, now, locked, claimed) && processed == claimed.Some?
      ensures claimed.None? ==> database.committed == old(database.committed)
      ensures claimed.Some? ==>
                var was, j := old(database.committed), claimed.value;
                var row := Finished(Claimed(was.enrichment[j], workerId, now), Result(was, was.enrichment[j].lead, finds) == Verdict(true));
                database.committed == AfterEnriching(was, was.enrichment[j].lead, finds).(
                  enrichment := if survives then was.enrichment[j := row] else was.enrichment)
    {
      var session := database.Begin();
      processed, claimed := ExecuteJob(session, database, enricher, locked, now, finds);
      if survives {
        database.CommitEnrichment(session);
      }
    }
  }

  // ---- Enrichment jobs are a lease table too ----------------------------------------------

  datatype Op =
    | Create(j: int, lead: int, status: JobStatus, at: int)
    | Claim(j: int, worker: string, at: int, locked: set<int>)
    | Finish(j: int, success: bool, at: int)
    | Reap(at: int)

  datatype State = State(rows: map<int, EnrichmentJob>, now: int)

  predicate Enabled(s: State, op: Op)
  {
    && s.now <= op.at
    && (op.Create? ==> op.j !in s.rows && (op.status.Pending? || op.status.Queued?))
    && (op.Claim? ==> IsPick(s.rows, op.at, op.locked, Some(op.j)))
    && (op.Finish? ==> op.j in s.rows)
  }

  function Next(s: State, op: Op): State
    requires Enabled(s, op)
  {
    match op
    case Create(j, lead, status, at) => State(s.rows[j := EnrichmentJob(lead, status, None, None, 0, at)], at)
    case Claim(j, worker, at, _) => State(s.rows[j := Claimed(s.rows[j], worker, at)], at)
    case Finish(j, success, at) => State(s.rows[j := Finished(s.rows[j], success)], at)
    case Reap(at) => State(ReapedEnrichment(s.rows, at), at)
  }

  predicate Legal(s: State, ops: seq<Op>)
    decreases |ops|, 0
  {
    ops == [] || (Legal(s, ops[..|ops| - 1]) && Enabled(After(s, ops[..|ops| - 1]), ops[|ops| - 1]))
  }

  function After(s: State, ops: seq<Op>): State
    requires Legal(s, ops)
    decreases |ops|, 1
  {
    if ops == [] then s else Next(After(s, ops[..|ops| - 1]), ops[|ops| - 1])
  }

  predicate LeasesOk(rows: map<int, EnrichmentJob>)
  {
    forall j <- rows ::
      && (rows[j].status.Processing? <==> rows[j].leaseWorker.Some?)
      && (rows[j].status.Processing? <==> rows[j].leaseExpires.Some?)
  }

  function SlotOf(row: EnrichmentJob): Option<int> { if row.status.Processing? then row.leaseExpires else None }

  function TableOf(s: State): Leases.Table<int>
  {
    Leases.Table(map j | j in s.rows :: SlotOf(s.rows[j]), s.now)
  }

  function EventOf(op: Op): Leases.Event<int>
  {
    match op
    case Create(j, _, _, at) => Leases.Add(j, at)
    case Claim(j, _, at, _) => Leases.Take(j, at, at + LEASE_SECONDS * SECOND)
    case Finish(j, _, at) => Leases.Finish(j, at)
    case Reap(at) => Leases.Reap(at)
  }

  function Trace(ops: seq<Op>): seq<Leases.Event<int>>
  {
    seq(|ops|, i requires 0 <= i < |ops| => EventOf(ops[i]))
  }

  lemma OneRow(s: State, j: int, row: EnrichmentJob, at: int)
    ensures TableOf(State(s.rows[j := row], at)) == Leases.Table(TableOf(s).slots[j := SlotOf(row)], at)
  {
    var after, slots := TableOf(State(s.rows[j := row], at)).slots, TableOf(s).slots[j := SlotOf(row)];
    assert after.Keys == slots.Keys;
    assert forall i <- after :: after[i] == slots[i];
  }

  lemma ReapRefinesLease(s: State, at: int)
    requires LeasesOk(s.rows)
    ensures TableOf(State(ReapedEnrichment(s.rows, at), at)) == Leases.Apply(TableOf(s), Leases.Reap(at))
  {
    var after, applied := TableOf(State(ReapedEnrichment(s.rows, at), at)).slots, Leases.Apply(TableOf(s), Leases.Reap(at)).slots;
    assert after.Keys == applied.Keys;
    assert forall j <- after :: after[j] == applied[j];
  }

  lemma OperationKeepsLeases(s: State, op: Op)
    requires LeasesOk(s.rows) && Enabled(s, op)
    ensures LeasesOk(Next(s, op).rows)
  {
  }

  /** Every operation is the corresponding lease event; in particular no claim succeeds while a
      lease is live. */
  lemma OperationRefinesLease(s: State, op: Op)
    requires LeasesOk(s.rows) && Enabled(s, op)
    ensures Leases.Allowed(TableOf(s), EventOf(op))
    ensures TableOf(Next(s, op)) == Leases.Apply(TableOf(s), EventOf(op))
  {
    match op
    case Create(j, _, _, at) => OneRow(s, j, Next(s, op).rows[j], at);
    case Claim(j, _, at, _) => OneRow(s, j, Next(s, op).rows[j], at);
    case Finish(j, _, at) => OneRow(s, j, Next(s, op).rows[j], at);
    case Reap(at) => ReapRefinesLease(s, at);
  }

  lemma {:induction false} RunRefinesLeases(s: State, ops: seq<Op>)
    requires LeasesOk(s.rows) && Legal(s, ops)
    ensures LeasesOk(After(s, ops).rows)
    ensures Leases.Possible(TableOf(s), Trace(ops))
    ensures TableOf(After(s, ops)) == Leases.Run(TableOf(s), Trace(ops))
  {
    if ops != [] {
      var n := |ops| - 1;
      var before := After(s, ops[..n]);
      RunRefinesLeases(s, ops[..n]);
      OperationKeepsLeases(before, ops[n]);
      OperationRefinesLease(before, ops[n]);
      Leases.OneMore(TableOf(s), Trace(ops[..n]), EventOf(ops[n]));
      assert Trace(ops) == Trace(ops[..n]) + [EventOf(ops[n])];
    }
  }

  /** Two claims of one enrichment job with no finish between them never overlap. */
  lemma ClaimsExclude(s: State, ops: seq<Op>, k: int, i: nat, j: nat)
    requires LeasesOk(s.rows) && Legal(s, ops) && i < j < |ops|
    requires ops[i].Claim? && ops[i].j == k && ops[j].Claim? && ops[j].j == k
    requires forall n :: i < n < j ==> !(ops[n].Finish? && ops[n].j == k)
    ensures ops[i].at + LEASE_SECONDS * SECOND < ops[j].at
    ensures LeasesOk(After(s, ops).rows)
  {
    RunRefinesLeases(s, ops);
    Leases.LeasesExclude(TableOf(s), Trace(ops), k, i, j);
  }

  /** The default status of a new row is PENDING, and the claim only takes QUEUED rows: such a job
      is never claimed, however long the queue runs. */
  lemma {:induction false} PendingIsNeverClaimed(s: State, ops: seq<Op>, j: int)
    requires Legal(s, ops) && j in s.rows && s.rows[j].status.Pending?
    requires forall n :: 0 <= n < |ops| ==> !(ops[n].Finish? && ops[n].j == j)
    ensures j in After(s, ops).rows && After(s, ops).rows[j].status.Pending?
    ensures forall n :: 0 <= n < |ops| ==> !(ops[n].Claim? && ops[n].j == j)
  {
    if ops != [] {
      var n := |ops| - 1;
      assert forall i :: 0 <= i < n ==> ops[..n][i] == ops[i];
      PendingIsNeverClaimed(s, ops[..n], j);
    }
  }

  // ---- What the status tells --------------------------------------------------------------

  /** The verdict of the last finish of `j` since its last claim, if there was one. */
  function LastFinish(ops: seq<Op>, j: int): Option<bool>
  {
    if ops == [] then None
    else
      var last := ops[|ops| - 1];
      if last.Finish? && last.j == j then Some(last.success)
      else if (last.Claim? || last.Create?) && last.j == j then None
      else LastFinish(ops[..|ops| - 1], j)
  }

  /** In every run from an empty table a job is SENT exactly if its last execution ended well, and
      FAILED exactly if it ended badly. */
  lemma {:induction false} StatusTellsVerdict(s: State, ops: seq<Op>, j: int)
    requires s.rows == map[] && Legal(s, ops) && j in After(s, ops).rows
    ensures var row := After(s, ops).rows[j];
            && (row.status == JobStatus.Sent <==> LastFinish(ops, j) == Some(true))
            && (row.status == JobStatus.Failed <==> LastFinish(ops, j) == Some(false))
  {
    if ops != [] {
      var n := |ops| - 1;
      if j in After(s, ops[..n]).rows {
        StatusTellsVerdict(s, ops[..n], j);
      }
    }
  }

  /** A waiting job that nobody has locked is passed over for an older one only. */
  lemma PassedOverByOlder(s: State, op: Op, j: int)
    requires Enabled(s, op) && op.Claim? && op.j != j
    requires j in s.rows && j !in op.locked && s.rows[j].status == JobStatus.Queued
    ensures op.j in s.rows && s.rows[op.j].createdAt <= s.rows[j].createdAt
  {
  }

  /** Nobody else claims a row for two minutes after a claim; then anybody may. */
  lemma ClaimHidesRow(row: EnrichmentJob, worker: string, now: int, t: int)
    ensures Claimable(Claimed(row, worker, now), t) <==> t - now > 120_000_000
  {
  }
}

/** A measure of the work left in the queue: every committed execution that is not a policy
    postponement uses some of it up. */
module RemainingWork {
  import opened Text
  import opened Records
  import opened JobRows
  import opened QueueSpec
  import opened WorkerSpec
  import opened MaintenanceSpec
  import opened World
  import Scheduling

  ghost function TotalRemaining(jobs: map<JobKey, SendJob>): nat
  {
    if jobs == map[] then 0
    else var k :| k in jobs; Remaining(jobs[k]) + TotalRemaining(jobs - {k})
  }

  lemma {:induction false} TakeOut(jobs: map<JobKey, SendJob>, k: JobKey)
    requires k in jobs
    ensures TotalRemaining(jobs) == Remaining(jobs[k]) + TotalRemaining(jobs - {k})
  {
    var first :| first in jobs && TotalRemaining(jobs) == Remaining(jobs[first]) + TotalRemaining(jobs - {first});
    if first != k {
      TakeOut(jobs - {first}, k);
      TakeOut(jobs - {k}, first);
      assert jobs - {first} - {k} == jobs - {k} - {first};
    }
  }

  lemma {:induction false} SameRemaining(a: map<JobKey, SendJob>, b: map<JobKey, SendJob>)
    requires a.Keys == b.Keys && forall k <- a :: Remaining(a[k]) == Remaining(b[k])
    ensures TotalRemaining(a) == TotalRemaining(b)
  {
    if a != map[] {
      var k :| k in a;
      TakeOut(a, k);
      TakeOut(b, k);
      SameRemaining(a - {k}, b - {k});
    }
  }

  lemma ReapKeepsRemaining(jobs: map<JobKey, SendJob>, now: int)
    ensures TotalRemaining(ReapedJobs(jobs, now)) == TotalRemaining(jobs)
  {
    SameRemaining(ReapedJobs(jobs, now), jobs);
  }

  lemma ReplaceRemaining(jobs: map<JobKey, SendJob>, k: JobKey, row: SendJob)
    requires k in jobs
    ensures TotalRemaining(jobs[k := row]) + Remaining(jobs[k]) == TotalRemaining(jobs) + Remaining(row)
  {
    TakeOut(jobs, k);
    TakeOut(jobs[k := row], k);
    assert jobs[k := row] - {k} == jobs - {k};
  }

  lemma OutcomeUsesWork(row: SendJob, ruling: Ruling, in_: Inputs, claimed: SendJob)
    requires !Terminal(row) && claimed == AfterClaim(row, in_.worker, in_.clock.claim, JOB_LEASE_SECONDS)
    ensures Remaining(RowAfter(claimed, ruling, in_)) <= Remaining(row)
    ensures !ruling.Delayed? ==> Remaining(RowAfter(claimed, ruling, in_)) < Remaining(row)
  {
  }

  /** Every committed execution of a job that the policy does not postpone strictly lowers the
      work left in the whole queue; a postponement never raises it. */
  lemma ExecutionUsesWork(cfg: Settings, w: World, in_: Inputs, w': World)
    requires Possible(w.db, in_) && in_.pick.Some? && w' == ExecuteWorld(cfg, w, in_)
    ensures TotalRemaining(w'.db.jobs) <= TotalRemaining(w.db.jobs)
    ensures !RulingOf(cfg, w.db, in_).Delayed? ==> TotalRemaining(w'.db.jobs) < TotalRemaining(w.db.jobs)
  {
    var k := in_.pick.value;
    var seen := ReapedJobs(w.db.jobs, in_.clock.reap);
    var claimed := AfterClaim(seen[k], in_.worker, in_.clock.claim, JOB_LEASE_SECONDS);
    Scheduling.ExecuteJobs(cfg, w.db, in_);
    ReapKeepsRemaining(w.db.jobs, in_.clock.reap);
    ReplaceRemaining(seen, k, RowAfter(claimed, RulingOf(cfg, w.db, in_), in_));
    OutcomeUsesWork(seen[k], RulingOf(cfg, w.db, in_), in_, claimed);
  }

  // ---- Over whole runs --------------------------------------------------------------------

  lemma InsertRemaining(jobs: map<JobKey, SendJob>, k: JobKey, row: SendJob)
    requires k !in jobs
    ensures TotalRemaining(jobs[k := row]) == TotalRemaining(jobs) + Remaining(row)
  {
    TakeOut(jobs[k := row], k);
    assert jobs[k := row] - {k} == jobs;
  }

  lemma {:induction false} RemoveRemaining(jobs: map<JobKey, SendJob>, keys: set<JobKey>)
    requires keys <= jobs.Keys
    ensures TotalRemaining(jobs - keys) <= TotalRemaining(jobs)
    decreases |keys|
  {
    if keys == {} {
      assert jobs - keys == jobs;
    } else {
      var k :| k in keys;
      RemoveRemaining(jobs, keys - {k});
      TakeOut(jobs - (keys - {k}), k);
      assert jobs - (keys - {k}) - {k} == jobs - keys;
    }
  }

  /** What a new job may cost: its attempts and one last failure. */
  const PER_JOB: nat := 4

  lemma {:induction false} EnqueueRemaining(db: Db, org: int, c: int, records: seq<int>, at: int)
    requires forall e <- records :: e in db.emails
    ensures TotalRemaining(EnqueueAll(db, org, c, records, at).jobs) <= TotalRemaining(db.jobs) + PER_JOB * |records|
  {
    if records != [] {
      var last := |records| - 1;
      var before := EnqueueAll(db, org, c, records[..last], at);
      var k := KeyFor(before, org, c, records[last]);
      EnqueueRemaining(db, org, c, records[..last], at);
      if k !in before.jobs {
        InsertRemaining(before.jobs, k, NewJob(k, at, at, DEFAULT_MAX_ATTEMPTS));
      }
    }
  }

  /** The step commits an execution that the policy does not postpone. */
  predicate Works(cfg: Settings, w: World, step: Step)
  {
    step.Execute? && step.in_.pick.Some? && step.in_.pick.value in w.db.jobs && !RulingOf(cfg, w.db, step.in_).Delayed?
  }

  function Enqueues(step: Step): nat { if step.EnqueuePending? then |step.records| else 0 }

  lemma MaintainUsesWork(w: World, memory: Memory, clock: PassClock)
    ensures TotalRemaining(MaintainWorld(w, memory, clock).db.jobs) <= TotalRemaining(w.db.jobs)
  {
    var reaped := ReapedJobs(w.db.jobs, clock.reap);
    ReapKeepsRemaining(w.db.jobs, clock.reap);
    RemoveRemaining(reaped, PurgedKeys(reaped, clock.purge));
  }

  lemma ExecuteUsesWork(cfg: Settings, w: World, in_: Inputs, w': World)
    requires Possible(w.db, in_) && w' == ExecuteWorld(cfg, w, in_)
    ensures TotalRemaining(w'.db.jobs) + One(Works(cfg, w, Execute(in_))) <= TotalRemaining(w.db.jobs)
  {
    if in_.pick.Some? {
      ExecutionUsesWork(cfg, w, in_, w');
    } else {
      ReapKeepsRemaining(w.db.jobs, in_.clock.reap);
    }
  }

  lemma StepUsesWork(cfg: Settings, w: World, step: Step)
    requires Enabled(cfg, w, step)
    ensures TotalRemaining(Next(cfg, w, step).db.jobs) + One(Works(cfg, w, step)) <= TotalRemaining(w.db.jobs) + PER_JOB * Enqueues(step)
  {
    match step
    case Execute(in_) => ExecuteUsesWork(cfg, w, in_, Next(cfg, w, step));
    case Maintain(memory, clock) => MaintainUsesWork(w, memory, clock);
    case EnqueuePending(org, c, records, at) => EnqueueRemaining(w.db, org, c, records, at);
    case Abandon(worker, at, _, k) =>
      ReplaceRemaining(w.db.jobs, k, AfterClaim(w.db.jobs[k], worker, at, JOB_LEASE_SECONDS));
    case _ =>
  }

  function Worked(cfg: Settings, w: World, steps: seq<Step>): nat
    requires Legal(cfg, w, steps)
  {
    if steps == [] then 0
    else Worked(cfg, w, steps[..|steps| - 1]) + One(Works(cfg, After(cfg, w, steps[..|steps| - 1]), steps[|steps| - 1]))
  }

  function Enqueued(steps: seq<Step>): nat
  {
    if steps == [] then 0 else Enqueued(steps[..|steps| - 1]) + Enqueues(steps[|steps| - 1])
  }

  /** Over any run the committed executions that are not postponed number at most the work that
      was in the queue, plus four for every record enqueued since, less what is still left. */
  lemma {:induction false} RunUsesWork(cfg: Settings, w: World, steps: seq<Step>)
    requires Legal(cfg, w, steps)
    ensures Worked(cfg, w, steps) + TotalRemaining(After(cfg, w, steps).db.jobs) <= TotalRemaining(w.db.jobs) + PER_JOB * Enqueued(steps)
  {
    if steps != [] {
      var n := |steps| - 1;
      RunUsesWork(cfg, w, steps[..n]);
      StepUsesWork(cfg, After(cfg, w, steps[..n]), steps[n]);
    }
  }
}

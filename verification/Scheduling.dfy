/** Who is claimed when: maintenance does not change what a claim can return, and no due job
    is passed over more often than there are jobs scheduled no later than it. */
module Scheduling {
  import opened Text
  import opened Records
  import opened JobRows
  import opened QueueSpec
  import opened PolicySpec
  import opened WorkerSpec
  import opened MaintenanceSpec
  import opened World

  // ---- Maintenance is invisible to claiming -----------------------------------------------

  /** A job being processed was due when it was claimed. */
  predicate ProcessingIsDue(w: World)
  {
    forall k <- w.db.jobs :: w.db.jobs[k].status.Processing? ==> w.db.jobs[k].scheduledFor <= w.now
  }

  lemma OutcomeIsNotProcessing(row: SendJob, ruling: Ruling, in_: Inputs)
    ensures !RowAfter(row, ruling, in_).status.Processing?
  {
  }

  lemma ExecuteJobs(cfg: Settings, db: Db, in_: Inputs)
    requires in_.pick.Some? && in_.pick.value in db.jobs
    ensures var seen := ReapedJobs(db.jobs, in_.clock.reap);
            WorkerSpec.Execute(cfg, db, in_).jobs
              == seen[in_.pick.value :=
                   RowAfter(AfterClaim(seen[in_.pick.value], in_.worker, in_.clock.claim, JOB_LEASE_SECONDS), RulingOf(cfg, db, in_), in_)]
  {
    var held := Held(db, in_);
    SettleJobs(Consulted(cfg, held, in_.pick.value, in_.account, in_.decrypts, in_.clock.policy), in_.pick.value, RulingOf(cfg, db, in_), in_);
  }

  /** New rows are due from the moment they are enqueued; stored rows stay as they are. */
  lemma {:induction false} EnqueueAllJobs(db: Db, org: int, c: int, records: seq<int>, at: int)
    requires forall e <- records :: e in db.emails
    ensures var after := EnqueueAll(db, org, c, records, at).jobs;
            && (forall k <- db.jobs :: k in after && after[k] == db.jobs[k])
            && (forall k <- after :: k !in db.jobs ==> after[k].status.Queued? && after[k].scheduledFor == at)
  {
    if records != [] {
      EnqueueAllJobs(db, org, c, records[..|records| - 1], at);
    }
  }

  lemma ExecuteKeepsProcessingDue(cfg: Settings, w: World, in_: Inputs)
    requires ProcessingIsDue(w) && Enabled(cfg, w, Execute(in_))
    ensures ProcessingIsDue(ExecuteWorld(cfg, w, in_)) && w.now <= ExecuteWorld(cfg, w, in_).now
  {
    if in_.pick.Some? {
      ExecuteJobs(cfg, w.db, in_);
      var held := AfterClaim(ReapedJobs(w.db.jobs, in_.clock.reap)[in_.pick.value], in_.worker, in_.clock.claim, JOB_LEASE_SECONDS);
      OutcomeIsNotProcessing(held, RulingOf(cfg, w.db, in_), in_);
    }
  }

  lemma StepKeepsProcessingDue(cfg: Settings, w: World, step: Step)
    requires ProcessingIsDue(w) && Enabled(cfg, w, step)
    ensures ProcessingIsDue(Next(cfg, w, step)) && w.now <= Next(cfg, w, step).now
  {
    match step
    case Execute(in_) => ExecuteKeepsProcessingDue(cfg, w, in_);
    case EnqueuePending(org, c, records, at) => EnqueueAllJobs(w.db, org, c, records, at);
    case _ =>
  }

  lemma {:induction false} RunKeepsProcessingDue(cfg: Settings, w: World, steps: seq<Step>)
    requires Fresh(w) && Legal(cfg, w, steps)
    ensures ProcessingIsDue(After(cfg, w, steps))
  {
    if steps != [] {
      RunKeepsProcessingDue(cfg, w, steps[..|steps| - 1]);
      StepKeepsProcessingDue(cfg, After(cfg, w, steps[..|steps| - 1]), steps[|steps| - 1]);
    }
  }

  predicate NoneProcessing(w: World)
  {
    forall k <- w.db.jobs :: !w.db.jobs[k].status.Processing?
  }

  lemma StepLeavesNoneProcessing(cfg: Settings, w: World, step: Step)
    requires NoneProcessing(w) && Enabled(cfg, w, step) && !step.Abandon?
    ensures NoneProcessing(Next(cfg, w, step))
  {
    match step
    case Execute(in_) =>
      if in_.pick.Some? {
        ExecuteJobs(cfg, w.db, in_);
        var held := AfterClaim(ReapedJobs(w.db.jobs, in_.clock.reap)[in_.pick.value], in_.worker, in_.clock.claim, JOB_LEASE_SECONDS);
        OutcomeIsNotProcessing(held, RulingOf(cfg, w.db, in_), in_);
      }
    case EnqueuePending(org, c, records, at) => EnqueueAllJobs(w.db, org, c, records, at);
    case _ =>
  }

  /** As long as a claim is committed only together with its outcome, no committed row is ever
      PROCESSING, however many workers crash: the rollback takes the claim back at once, and no
      lease has to run out. */
  lemma {:induction false} CrashLeavesNoneProcessing(cfg: Settings, w: World, steps: seq<Step>)
    requires Fresh(w) && Legal(cfg, w, steps) && forall i :: 0 <= i < |steps| ==> !steps[i].Abandon?
    ensures NoneProcessing(After(cfg, w, steps))
  {
    if steps != [] {
      var n := |steps| - 1;
      assert forall i :: 0 <= i < n ==> steps[..n][i] == steps[i];
      CrashLeavesNoneProcessing(cfg, w, steps[..n]);
      StepLeavesNoneProcessing(cfg, After(cfg, w, steps[..n]), steps[n]);
    }
  }

  /** A committed claim whose worker dies keeps the job for sixty seconds, and not longer: after
      that any worker may claim it, whether it was reaped meanwhile or not. */
  lemma AbandonedComesBack(cfg: Settings, w: World, step: Step, reapedAt: int, t: int)
    requires Enabled(cfg, w, step) && step.Abandon?
    ensures var after := Next(cfg, w, step).db;
            && (Eligible(after, step.k, t) <==> ActiveCampaign(w.db, step.k.campaign) && t > step.at + 60_000_000)
            && (reapedAt <= t && w.db.jobs[step.k].scheduledFor <= t ==> (Eligible(Reap(after, reapedAt), step.k, t) <==> Eligible(after, step.k, t)))
  {
  }

  /** The reaper changes neither what can be claimed at any later time, nor the order, nor the
      row a claim produces. */
  lemma ReapIsInvisible(jobs: map<JobKey, SendJob>, reapedAt: int, now: int, k: JobKey, worker: string, t: int)
    requires k in jobs && (jobs[k].status.Processing? ==> jobs[k].scheduledFor <= now) && now <= t && reapedAt <= t
    ensures var row, reaped := jobs[k], ReapedJobs(jobs, reapedAt)[k];
            && (Claimable(reaped, t) <==> Claimable(row, t))
            && reaped.scheduledFor == row.scheduledFor
            && (Claimable(row, t) ==> AfterClaim(reaped, worker, t, JOB_LEASE_SECONDS) == AfterClaim(row, worker, t, JOB_LEASE_SECONDS))
  {
  }

  /** A whole maintenance pass leaves the possible results of every later claim exactly as they
      were, and the claimed row too. */
  lemma MaintenanceInvisibleToClaims(w: World, memory: Memory, clock: PassClock, t: int, locked: set<JobKey>, pick: Option<JobKey>, worker: string)
    requires ProcessingIsDue(w) && w.now <= clock.enrichment && PassOrdered(clock) && clock.purge <= t
    ensures var after := MaintainWorld(w, memory, clock).db;
            && (IsPick(after, t, locked, pick) <==> IsPick(w.db, t, locked, pick))
            && (IsPick(w.db, t, locked, pick) && pick.Some? ==>
                  Claim(after, pick.value, worker, t, JOB_LEASE_SECONDS).jobs[pick.value]
                    == Claim(w.db, pick.value, worker, t, JOB_LEASE_SECONDS).jobs[pick.value])
  {
    var after := MaintainWorld(w, memory, clock).db;
    forall k <- w.db.jobs
      ensures Eligible(after, k, t) <==> Eligible(w.db, k, t)
      ensures Eligible(w.db, k, t) ==>
                after.jobs[k].scheduledFor == w.db.jobs[k].scheduledFor
                && AfterClaim(after.jobs[k], worker, t, JOB_LEASE_SECONDS) == AfterClaim(w.db.jobs[k], worker, t, JOB_LEASE_SECONDS)
    {
      ReapIsInvisible(w.db.jobs, clock.reap, w.now, k, worker, t);
    }
  }

  // ---- Bounded bypass ---------------------------------------------------------------------

  /** The unfinished jobs other than `j` that are scheduled no later than it. */
  function Ahead(jobs: map<JobKey, SendJob>, j: JobKey): set<JobKey>
    requires j in jobs
  {
    set k | k in jobs && k != j && !Terminal(jobs[k]) && jobs[k].scheduledFor <= jobs[j].scheduledFor
  }

  /** `j` waits: it was due before now, queued, to be retried, or taken by a worker whose lease
      has run out. */
  predicate Waiting(w: World, j: JobKey)
  {
    && j in w.db.jobs && Due(Reaped(w.db.jobs[j], w.now), w.now) && w.db.jobs[j].scheduledFor < w.now
  }

  /** The same job as before, or its lost lease has been noticed meanwhile. */
  predicate StillThere(before: SendJob, after: SendJob)
  {
    after == before || after == AfterReap(before)
  }

  /** The step commits a claim of `j`. */
  predicate ClaimsJob(step: Step, j: JobKey)
  {
    (step.Execute? && step.in_.pick == Some(j)) || (step.Abandon? && step.k == j)
  }

  /** A finished execution leaves its job terminal or scheduled strictly after now. */
  lemma OutcomeMovesAhead(cfg: Settings, db: Db, in_: Inputs, row: SendJob)
    requires in_.pick.Some? && in_.pick.value in db.jobs
    ensures var after := RowAfter(row, RulingOf(cfg, db, in_), in_); Terminal(after) || after.scheduledFor > in_.clock.finish
  {
    Pow2Monotone(0, Max(0, row.attemptCount - 1));
  }

  /** A row that ends, or moves behind `j`, leaves the line: it gets shorter if the row was in it. */
  lemma AheadShrinks(jobs: map<JobKey, SendJob>, t: int, k: JobKey, row: SendJob, j: JobKey)
    requires k in jobs && j in jobs && k != j
    requires Terminal(row) || row.scheduledFor > jobs[j].scheduledFor
    ensures var after := ReapedJobs(jobs, t)[k := row];
            && StillThere(jobs[j], after[j])
            && |Ahead(after, j)| + One(k in Ahead(jobs, j)) <= |Ahead(jobs, j)|
  {
    var after := ReapedJobs(jobs, t)[k := row];
    assert Ahead(after, j) <= Ahead(jobs, j) - {k};
    if k in Ahead(jobs, j) {
      SmallerSet(Ahead(after, j), Ahead(jobs, j), k);
    } else {
      SubsetSize(Ahead(after, j), Ahead(jobs, j));
    }
  }

  /** The step is an execution that could claim `j`: its campaign is active and nobody has the row
      locked. */
  predicate Chance(w: World, step: Step, j: JobKey)
  {
    step.Execute? && j !in step.in_.locked && ActiveCampaign(w.db, j.campaign)
  }

  /** An execution that passes `j` over although it could claim it takes a job ahead of it. */
  lemma PassedOverByOneAhead(cfg: Settings, w: World, in_: Inputs, j: JobKey)
    requires Waiting(w, j) && Enabled(cfg, w, Execute(in_)) && Chance(w, Execute(in_), j) && in_.pick != Some(j)
    ensures in_.pick.Some? && in_.pick.value in Ahead(w.db.jobs, j)
  {
    assert Eligible(Seen(w.db, in_), j, in_.clock.claim);
  }

  /** An execution that does not claim `j` lets nobody in before it, and uses up one of the jobs
      ahead of it if it could have claimed it. */
  lemma ExecutionShrinksAhead(cfg: Settings, w: World, in_: Inputs, j: JobKey)
    requires Waiting(w, j) && Enabled(cfg, w, Execute(in_)) && in_.pick != Some(j)
    ensures var after := ExecuteWorld(cfg, w, in_).db.jobs;
            && j in after && StillThere(w.db.jobs[j], after[j])
            && |Ahead(after, j)| + One(Chance(w, Execute(in_), j)) <= |Ahead(w.db.jobs, j)|
  {
    if Chance(w, Execute(in_), j) {
      PassedOverByOneAhead(cfg, w, in_, j);
    }
    if in_.pick.Some? {
      var k := in_.pick.value;
      var held := AfterClaim(ReapedJobs(w.db.jobs, in_.clock.reap)[k], in_.worker, in_.clock.claim, JOB_LEASE_SECONDS);
      ExecuteJobs(cfg, w.db, in_);
      OutcomeMovesAhead(cfg, w.db, in_, held);
      AheadShrinks(w.db.jobs, in_.clock.reap, k, RowAfter(held, RulingOf(cfg, w.db, in_), in_), j);
    } else {
      var after := ExecuteWorld(cfg, w, in_).db.jobs;
      assert Ahead(after, j) == Ahead(w.db.jobs, j);
    }
  }

  lemma SmallerSet(a: set<JobKey>, b: set<JobKey>, k: JobKey)
    requires a <= b - {k} && k in b
    ensures |a| < |b|
  {
    SubsetSize(a, b - {k});
  }

  lemma {:induction false} SubsetSize(a: set<JobKey>, b: set<JobKey>)
    requires a <= b
    ensures |a| <= |b|
  {
    if a != {} {
      var x :| x in a;
      SubsetSize(a - {x}, b - {x});
    }
  }

  lemma OtherStepsAddNobodyAhead(cfg: Settings, w: World, step: Step, j: JobKey)
    requires Waiting(w, j) && Enabled(cfg, w, step) && !step.Execute? && !ClaimsJob(step, j)
    ensures var after := Next(cfg, w, step).db.jobs;
            j in after && StillThere(w.db.jobs[j], after[j]) && Ahead(after, j) <= Ahead(w.db.jobs, j)
  {
    if step.EnqueuePending? {
      EnqueueAllJobs(w.db, step.org, step.c, step.records, step.at);
    }
  }

  /** No other step puts a job ahead of one that is waiting. */
  lemma OtherStepsKeepAhead(cfg: Settings, w: World, step: Step, j: JobKey)
    requires Waiting(w, j) && Enabled(cfg, w, step) && !step.Execute? && !ClaimsJob(step, j)
    ensures var after := Next(cfg, w, step).db.jobs;
            && j in after && StillThere(w.db.jobs[j], after[j])
            && |Ahead(after, j)| <= |Ahead(w.db.jobs, j)|
  {
    OtherStepsAddNobodyAhead(cfg, w, step, j);
    SubsetSize(Ahead(Next(cfg, w, step).db.jobs, j), Ahead(w.db.jobs, j));
  }

  /** Along the run nobody commits a claim of `j`. */
  predicate Unclaimed(steps: seq<Step>, j: JobKey)
  {
    forall i :: 0 <= i < |steps| ==> !ClaimsJob(steps[i], j)
  }

  function Chances(cfg: Settings, w: World, steps: seq<Step>, j: JobKey): nat
    requires Legal(cfg, w, steps)
  {
    if steps == [] then 0
    else Chances(cfg, w, steps[..|steps| - 1], j) + One(Chance(After(cfg, w, steps[..|steps| - 1]), steps[|steps| - 1], j))
  }

  lemma StillWaiting(w: World, w': World, j: JobKey)
    requires Waiting(w, j) && w.now <= w'.now && j in w'.db.jobs && StillThere(w.db.jobs[j], w'.db.jobs[j])
    ensures Waiting(w', j)
  {
  }

  lemma StepKeepsWaiting(cfg: Settings, w: World, step: Step, j: JobKey)
    requires Waiting(w, j) && Enabled(cfg, w, step) && !ClaimsJob(step, j)
    ensures var w' := Next(cfg, w, step);
            && Waiting(w', j) && StillThere(w.db.jobs[j], w'.db.jobs[j])
            && |Ahead(w'.db.jobs, j)| + One(Chance(w, step, j)) <= |Ahead(w.db.jobs, j)|
  {
    ClockNeverGoesBack(cfg, w, step);
    if step.Execute? {
      ExecutionShrinksAhead(cfg, w, step.in_, j);
    } else {
      OtherStepsKeepAhead(cfg, w, step, j);
    }
    StillWaiting(w, Next(cfg, w, step), j);
  }

  /** Bounded bypass: from any state in which `j` is waiting, in any run in which it is not
      claimed, the committed executions that could have claimed it number at most the jobs that
      were ahead of it, whatever is enqueued, retried, postponed, reaped, purged, locked, paused
      or lost to crashes meanwhile. */
  lemma {:induction false} BoundedBypass(cfg: Settings, w: World, steps: seq<Step>, j: JobKey)
    requires Waiting(w, j) && Legal(cfg, w, steps) && Unclaimed(steps, j)
    ensures Waiting(After(cfg, w, steps), j)
    ensures Chances(cfg, w, steps, j) + |Ahead(After(cfg, w, steps).db.jobs, j)| <= |Ahead(w.db.jobs, j)|
  {
    if steps != [] {
      var n := |steps| - 1;
      assert forall i :: 0 <= i < n ==> steps[..n][i] == steps[i];
      BoundedBypass(cfg, w, steps[..n], j);
      StepKeepsWaiting(cfg, After(cfg, w, steps[..n]), steps[n], j);
    }
  }

  lemma ClockNeverGoesBack(cfg: Settings, w: World, step: Step)
    requires Enabled(cfg, w, step)
    ensures w.now <= Next(cfg, w, step).now
  {
  }

  /** So `j` is claimed by the (ahead + 1)-st such execution at the latest. */
  lemma ClaimedInTime(cfg: Settings, w: World, steps: seq<Step>, j: JobKey)
    requires Waiting(w, j) && Legal(cfg, w, steps) && Chances(cfg, w, steps, j) > |Ahead(w.db.jobs, j)|
    ensures exists i :: 0 <= i < |steps| && ClaimsJob(steps[i], j)
  {
    if Unclaimed(steps, j) {
      BoundedBypass(cfg, w, steps, j);
    }
  }
}

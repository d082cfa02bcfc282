/** How often a provider can take one email: exactly, over whole runs with crashes, lost answers,
    purges and repeated campaign starts anywhere. */
module MailRuns {
  import opened Text
  import opened Records
  import opened JobRows
  import opened QueueSpec
  import opened PolicySpec
  import opened WorkerSpec
  import opened World
  import opened RecordHistory
  import Scheduling
  import SendRuns

  /** The step asks a provider to send record `e`. */
  predicate Asks(cfg: Settings, w: World, step: Step, e: int)
  {
    && (step.Execute? || (step.Killed? && step.asked))
    && Dispatches(cfg, w.db, step.in_) && step.in_.pick.value.email == e
  }

  /** The provider takes it. */
  predicate Takes(cfg: Settings, w: World, step: Step, e: int) { Asks(cfg, w, step, e) && step.in_.taken }

  /** It does, and the worker is lost before the commit. */
  predicate LosesWorker(cfg: Settings, w: World, step: Step, e: int) { Takes(cfg, w, step, e) && step.Killed? }

  /** It does, and the worker sees and commits a failure: the answer was lost on the way. */
  predicate LosesAnswer(cfg: Settings, w: World, step: Step, e: int)
  {
    Takes(cfg, w, step, e) && step.Execute? && !step.in_.reply.success
  }

  /** The worker commits a success answer without a message id. */
  predicate Nameless(cfg: Settings, w: World, step: Step, e: int)
  {
    Asks(cfg, w, step, e) && step.Execute? && step.in_.reply.success && !Truthy(step.in_.reply.messageId)
  }

  /** The run's events for record `e`. */
  function RunTally(cfg: Settings, w: World, steps: seq<Step>, e: int): Tally
    requires Legal(cfg, w, steps)
  {
    if steps == [] then Tally(0, 0, 0, 0)
    else
      var n := |steps| - 1;
      StepTally(cfg, After(cfg, w, steps[..n]), steps[n], e, RunTally(cfg, w, steps[..n], e))
  }

  function StepTally(cfg: Settings, w: World, step: Step, e: int, t: Tally): Tally
  {
    Tally(t.taken + One(Takes(cfg, w, step, e)), t.lost + One(LosesWorker(cfg, w, step, e)),
          t.unanswered + One(LosesAnswer(cfg, w, step, e)), t.nameless + One(Nameless(cfg, w, step, e)))
  }

  lemma OneMoreTally(cfg: Settings, w: World, steps: seq<Step>, step: Step, e: int)
    requires Legal(cfg, w, steps) && Legal(cfg, w, steps + [step])
    ensures RunTally(cfg, w, steps + [step], e) == StepTally(cfg, After(cfg, w, steps), step, e, RunTally(cfg, w, steps, e))
  {
    assert (steps + [step])[..|steps|] == steps;
  }

  lemma ExecuteBooks(cfg: Settings, w: World, in_: Inputs, e: int)
    requires in_.pick.Some? ==> in_.pick.value in w.db.jobs
    ensures TallyOf(ExecuteWorld(cfg, w, in_).ledger, e) == StepTally(cfg, w, Execute(in_), e, TallyOf(w.ledger, e))
  {
  }

  lemma StepBooks(cfg: Settings, w: World, step: Step, e: int)
    requires Enabled(cfg, w, step)
    ensures TallyOf(Next(cfg, w, step).ledger, e) == StepTally(cfg, w, step, e, TallyOf(w.ledger, e))
  {
    if step.Execute? {
      ExecuteBooks(cfg, w, step.in_, e);
    }
  }

  /** The ledger, which no rollback touches, counts exactly the run's events. */
  lemma {:induction false} RunBooks(cfg: Settings, w: World, steps: seq<Step>, e: int)
    requires Fresh(w) && Legal(cfg, w, steps)
    ensures TallyOf(After(cfg, w, steps).ledger, e) == RunTally(cfg, w, steps, e)
  {
    if steps != [] {
      var n := |steps| - 1;
      RunBooks(cfg, w, steps[..n], e);
      StepBooks(cfg, After(cfg, w, steps[..n]), steps[n], e);
    }
  }

  /** Bounded duplicates: in every run the messages a provider took for one record are the ones
      whose worker was lost, plus the ones whose answer was lost, plus one more exactly if the
      record ended SENT or FAILED on a success answer without an id. All but the lost workers'
      share the attempts of the record's only job, so they never exceed max_attempts. */
  lemma BoundedDuplicates(cfg: Settings, w: World, steps: seq<Step>, end: World, e: int)
    requires Reaches(cfg, w, steps, end) && e in end.db.emails
    ensures var t, status := RunTally(cfg, w, steps, e), end.db.emails[e].status;
            && t.taken == t.lost + t.unanswered + t.nameless + One(status.Sent?)
            && t.nameless <= One(status.Failed?)
            && t.taken <= t.lost + DEFAULT_MAX_ATTEMPTS
  {
    TallyInView(cfg, w, steps, end, e);
  }

  lemma TallyInView(cfg: Settings, w: World, steps: seq<Step>, end: World, e: int)
    requires Reaches(cfg, w, steps, end) && e in end.db.emails
    ensures ViewOk(ViewOf(end, e)) && ViewOf(end, e).mail == RunTally(cfg, w, steps, e)
    ensures AuditRows(ViewOf(end, e)) <= DEFAULT_MAX_ATTEMPTS
  {
    SendRuns.RunKeepsInv(cfg, w, steps);
    RunBooks(cfg, w, steps, e);
    assert ViewOk(ViewOf(end, e));
    RowsWithinBudget(ViewOf(end, e));
  }

  lemma RowsWithinBudget(v: View)
    requires Audited(v)
    ensures AuditRows(v) <= DEFAULT_MAX_ATTEMPTS
  {
    if v.job.Some? {
      AuditBoundsWork(v.job.value, v.postponed, v.expired);
    } else if v.gone.Some? {
      AuditBoundsWork(v.gone.value, v.postponed, v.expired);
    }
  }

  /** "Network timeouts or mid-flight worker kills never duplicate prospect emails" holds of a
      run exactly when neither happens between a taking and its committed answer, or a single
      one does and the record got no success answer: it is not SENT, and no answer without an
      id failed it. */
  lemma AtMostOnceIff(cfg: Settings, w: World, steps: seq<Step>, end: World, e: int)
    requires Reaches(cfg, w, steps, end) && e in end.db.emails
    ensures var t := RunTally(cfg, w, steps, e);
            t.taken <= 1 <==>
              t.lost + t.unanswered == 0
              || (t.lost + t.unanswered == 1 && !end.db.emails[e].status.Sent? && t.nameless == 0)
  {
    BoundedDuplicates(cfg, w, steps, end, e);
  }
}

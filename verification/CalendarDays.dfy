/** Sends of one account within one calendar day of UTC. */
module CalendarDays {
  import opened Text
  import opened Records
  import opened JobRows
  import opened QueueSpec
  import opened PolicySpec
  import opened GateRules
  import opened WorkerSpec
  import opened MaintenanceSpec
  import opened ResetMemory
  import opened World
  import opened Outcomes
  import opened SendRates

  /** The gate is asked, or the pass resets, on this day. */
  predicate OnDay(step: Step, day: int)
  {
    match step
    case Execute(in_) => in_.clock.policy / 86_400_000_000 == day
    case Maintain(_, clock) => clock.reset / 86_400_000_000 == day
    case _ => true
  }

  predicate AllOnDay(steps: seq<Step>, day: int)
  {
    forall i :: 0 <= i < |steps| ==> OnDay(steps[i], day)
  }

  /** The step is a pass that resets the daily counters. */
  predicate PassResets(step: Step) { step.Maintain? && DateRolled(step.memory, step.clock.reset) }

  function PassResetCount(steps: seq<Step>): nat
  {
    if steps == [] then 0 else PassResetCount(steps[..|steps| - 1]) + One(PassResets(steps[|steps| - 1]))
  }

  /** The part of today's counter that belongs to `day`. */
  function CountedOn(account: Account, day: int): nat
  {
    if account.lastResetDay == Some(day) then account.sendsToday else 0
  }

  lemma ExecuteOnDay(cfg: Settings, w: World, in_: Inputs, a: int, day: int)
    requires Possible(w.db, in_) && OnDay(Execute(in_), day) && a in w.db.accounts
    ensures a in ExecuteWorld(cfg, w, in_).db.accounts
    ensures CountedOn(w.db.accounts[a], day) + One(SendsFrom(cfg, w, Execute(in_), a))
              <= CountedOn(ExecuteWorld(cfg, w, in_).db.accounts[a], day)
  {
    if in_.pick.Some? {
      HowJobsEnd(cfg, w.db, in_);
      AccountsWritten(cfg, w.db, in_);
    }
  }

  lemma StepOnDay(cfg: Settings, w: World, step: Step, a: int, day: int)
    requires RatesOk(cfg, w) && Enabled(cfg, w, step) && OnDay(step, day) && a in w.db.accounts
    ensures a in Next(cfg, w, step).db.accounts
    ensures CountedOn(w.db.accounts[a], day) + One(SendsFrom(cfg, w, step, a))
              <= CountedOn(Next(cfg, w, step).db.accounts[a], day) + if PassResets(step) then DayLimit(cfg) else 0
  {
    match step
    case Execute(in_) => ExecuteOnDay(cfg, w, in_, a, day);
    case EnqueuePending(org, c, records, at) => EnqueueAllAccounts(w.db, org, c, records, at);
    case _ =>
  }

  /** `n` daily limits. */
  function DayLimits(cfg: Settings, n: nat): int { if n == 0 then 0 else DayLimits(cfg, n - 1) + DayLimit(cfg) }

  lemma {:induction false} DayLimitsTimes(cfg: Settings, n: nat)
    ensures DayLimits(cfg, n) == n * DayLimit(cfg)
  {
    if n > 0 {
      DayLimitsTimes(cfg, n - 1);
      Distribute(n - 1, DayLimit(cfg));
    }
  }

  lemma {:induction false} StretchOnDay(cfg: Settings, from: World, steps: seq<Step>, a: int, day: int)
    requires RatesOk(cfg, from) && Legal(cfg, from, steps) && AllOnDay(steps, day) && a in from.db.accounts
    ensures RatesOk(cfg, After(cfg, from, steps)) && a in After(cfg, from, steps).db.accounts
    ensures CountedOn(from.db.accounts[a], day) + |RunLog(cfg, from, steps, a).sends|
              <= CountedOn(After(cfg, from, steps).db.accounts[a], day) + DayLimits(cfg, PassResetCount(steps))
  {
    if steps != [] {
      var n := |steps| - 1;
      var mid := After(cfg, from, steps[..n]);
      StretchOnDay(cfg, from, steps[..n], a, day);
      StepOnDay(cfg, mid, steps[n], a, day);
      StepKeepsRates(cfg, mid, steps[n]);
    }
  }

  /** On one calendar day an account records at most one daily limit of sends more than there were
      daily resets by maintenance. What the gate resets by itself does not add to that. */
  lemma SendsPerDay(cfg: Settings, w: World, earlier: seq<Step>, from: World, steps: seq<Step>, a: int, day: int)
    requires Reaches(cfg, w, earlier, from) && Legal(cfg, from, steps) && AllOnDay(steps, day) && a in from.db.accounts
    ensures |RunLog(cfg, from, steps, a).sends| <= (PassResetCount(steps) + 1) * DayLimit(cfg)
  {
    RunKeepsRates(cfg, w, earlier);
    StretchOnDay(cfg, from, steps, a, day);
    DayLimitsTimes(cfg, PassResetCount(steps) + 1);
  }

  /** When the passes of the steps read the clock. */
  function PassesOf(steps: seq<Step>): seq<int>
  {
    if steps == [] then []
    else
      var n := |steps| - 1;
      PassesOf(steps[..n]) + if steps[n].Maintain? then [steps[n].clock.reset] else []
  }

  /** The passes of the steps are those of one process, which made the passes `before` already. */
  predicate OneProcess(before: seq<int>, steps: seq<Step>)
  {
    steps == [] ||
    (OneProcess(before, steps[..|steps| - 1])
     && (steps[|steps| - 1].Maintain? ==> steps[|steps| - 1].memory == MemoryAfter(before + PassesOf(steps[..|steps| - 1]))))
  }

  lemma {:induction false} OneResetOnDay(before: seq<int>, steps: seq<Step>, day: int)
    requires OneProcess(before, steps) && AllOnDay(steps, day)
    ensures PassResetCount(steps) <= 1 && (PassesOf(steps) == [] ==> PassResetCount(steps) == 0)
    ensures PassesOf(steps) != [] ==> Last(PassesOf(steps)) / 86_400_000_000 == day
  {
    if steps != [] {
      var n := |steps| - 1;
      assert forall i :: 0 <= i < n ==> steps[..n][i] == steps[i];
      OneResetOnDay(before, steps[..n], day);
      if steps[n].Maintain? && PassesOf(steps[..n]) != [] {
        assert Last(before + PassesOf(steps[..n])) == Last(PassesOf(steps[..n]));
        ResetsIff(before + PassesOf(steps[..n]), steps[n].clock.reset);
      }
    }
  }

  /** With a single maintenance process that is twice the daily limit: the gate starts the day's
      count, and the first pass of the process after midnight starts it once more. */
  lemma TwiceTheLimitPerDay(cfg: Settings, w: World, earlier: seq<Step>, from: World, before: seq<int>, steps: seq<Step>, a: int, day: int)
    requires Reaches(cfg, w, earlier, from) && Legal(cfg, from, steps) && AllOnDay(steps, day) && a in from.db.accounts
    requires OneProcess(before, steps)
    ensures |RunLog(cfg, from, steps, a).sends| <= 2 * DayLimit(cfg)
  {
    OneResetOnDay(before, steps, day);
    SendsWithOneReset(cfg, w, earlier, from, steps, a, day);
  }

  lemma SendsWithOneReset(cfg: Settings, w: World, earlier: seq<Step>, from: World, steps: seq<Step>, a: int, day: int)
    requires Reaches(cfg, w, earlier, from) && Legal(cfg, from, steps) && AllOnDay(steps, day) && a in from.db.accounts
    requires PassResetCount(steps) <= 1
    ensures |RunLog(cfg, from, steps, a).sends| <= 2 * DayLimit(cfg)
  {
    RunKeepsRates(cfg, w, earlier);
    StretchOnDay(cfg, from, steps, a, day);
  }

  // ---- A pass starts the count again ------------------------------------------------------

  /** A pass at one instant. */
  function PassAt(memory: Memory, t: int): Step { Maintain(memory, PassClock(t, t, t, t)) }

  lemma PassKeepsEligible(db: Db, memory: Memory, in_: Inputs, k: JobKey)
    requires Ordered(in_.clock)
    ensures var t := in_.clock.reap;
            var after := Pass(db, memory, PassClock(t, t, t, t));
            && (Eligible(Seen(after, in_), k, in_.clock.claim) <==> Eligible(Seen(db, in_), k, in_.clock.claim))
            && (Eligible(Seen(db, in_), k, in_.clock.claim) ==> Seen(after, in_).jobs[k] == Seen(db, in_).jobs[k])
  {
  }

  lemma PassKeepsPossible(db: Db, memory: Memory, in_: Inputs)
    requires Possible(db, in_)
    ensures var t := in_.clock.reap; Possible(Pass(db, memory, PassClock(t, t, t, t)), in_)
  {
    var t := in_.clock.reap;
    var after := Pass(db, memory, PassClock(t, t, t, t));
    forall k <- Seen(db, in_).jobs
      ensures Eligible(Seen(after, in_), k, in_.clock.claim) <==> Eligible(Seen(db, in_), k, in_.clock.claim)
      ensures Eligible(Seen(db, in_), k, in_.clock.claim) ==> Seen(after, in_).jobs[k] == Seen(db, in_).jobs[k]
    {
      PassKeepsEligible(db, memory, in_, k);
    }
  }

  /** The daily limit is no limit per day: a job that only a full counter holds back is let through
      right after a pass that resets both counters, be it on the same day as the last one, as the
      first pass of a restarted process does. */
  lemma PassReopensGate(cfg: Settings, w: World, memory: Memory, in_: Inputs)
    requires Enabled(cfg, w, Execute(in_)) && in_.pick.Some? && Waits(cfg, w.db, in_)
    requires !TooSoon(cfg, w.db.accounts[in_.account.value], in_.clock.policy)
    requires cfg.dailyLimit > 0 && cfg.hourlyLimit > 0 && w.db.campaigns[in_.pick.value.campaign].dailyLimit >= 0
    requires DateRolled(memory, in_.clock.reap) && HourRolled(memory, in_.clock.reap)
    requires in_.clock.reap / 86_400_000_000 == in_.clock.policy / 86_400_000_000
    ensures Enabled(cfg, w, PassAt(memory, in_.clock.reap))
    ensures var after := Next(cfg, w, PassAt(memory, in_.clock.reap));
            Enabled(cfg, after, Execute(in_)) && Clear(cfg, after.db, in_)
  {
    PassKeepsPossible(w.db, memory, in_);
    var after := Next(cfg, w, PassAt(memory, in_.clock.reap)).db;
    assert after.accounts[in_.account.value] ==
             w.db.accounts[in_.account.value].(sendsToday := 0, sendsThisHour := 0, lastResetDay := Some(in_.clock.policy / 86_400_000_000));
  }
}

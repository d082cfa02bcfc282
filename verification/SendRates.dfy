/** Rate limits over whole serial runs: the counters are exactly the sends of the current
    window, windows are bounded whoever resets them, and sends of one account are paced. */
module SendRates {
  import opened Text
  import opened Records
  import opened JobRows
  import opened QueueSpec
  import opened PolicySpec
  import opened WorkerSpec
  import opened MaintenanceSpec
  import opened World
  import Scheduling

  predicate Spaced(sends: seq<int>, gap: int)
  {
    forall i :: 0 < i < |sends| ==> sends[i] - sends[i - 1] >= gap
  }

  function LastSend(sends: seq<int>): Option<int>
  {
    if sends == [] then None else Some(sends[|sends| - 1])
  }

  predicate WithinLimit(count: nat, limit: int) { count <= Max(0, limit) }

  /** An account row agrees with the log of what it recorded. */
  predicate AccountOk(cfg: Settings, account: Account, log: AccountLog)
  {
    && log.dayMark <= |log.sends| && account.sendsToday == |log.sends| - log.dayMark
    && log.hourMark <= |log.sends| && account.sendsThisHour == |log.sends| - log.hourMark
    && WithinLimit(account.sendsToday, cfg.dailyLimit) && WithinLimit(account.sendsThisHour, cfg.hourlyLimit)
    && account.lastSendAt == LastSend(log.sends)
    && Spaced(log.sends, cfg.minDelaySeconds * SECOND)
  }

  predicate RatesOk(cfg: Settings, w: World)
  {
    && w.ledger.accounts.Keys <= w.db.accounts.Keys
    && forall a <- w.db.accounts :: AccountOk(cfg, w.db.accounts[a], LogOf(w.ledger, a))
  }

  // ---- One execution ----------------------------------------------------------------------

  lemma SettleAccounts(db: Db, k: JobKey, ruling: Ruling, in_: Inputs)
    requires k in db.jobs
    requires ruling.Refused? && ruling.circuitBroken ==> k.campaign in db.campaigns
    ensures Settle(db, k, ruling, in_).accounts ==
      if ruling.Dispatch? && Confirmed(in_.reply) then Counted(db, in_.account, in_.clock.finish).accounts else db.accounts
  {
  }

  /** The account a worker met, as its execution leaves it. */
  function AccountAfter(cfg: Settings, db: Db, in_: Inputs): Account
    requires in_.pick.Some? && in_.pick.value in db.jobs && in_.account.Some? && in_.account.value in db.accounts
  {
    var a := in_.account.value;
    var consulted := Consulted(cfg, Held(db, in_), in_.pick.value, in_.account, in_.decrypts, in_.clock.policy).accounts[a];
    if RecordsSend(cfg, db, in_) then AfterSend(consulted, in_.clock.finish) else consulted
  }

  lemma ExecuteAccounts(cfg: Settings, db: Db, in_: Inputs)
    requires in_.pick.Some? && in_.pick.value in db.jobs
    requires in_.account.Some? ==> in_.account.value in db.accounts
    ensures WorkerSpec.Execute(cfg, db, in_).accounts ==
      if in_.account.None? then db.accounts else db.accounts[in_.account.value := AccountAfter(cfg, db, in_)]
  {
    var k := in_.pick.value;
    var held := Held(db, in_);
    SettleAccounts(Consulted(cfg, held, k, in_.account, in_.decrypts, in_.clock.policy), k, RulingOf(cfg, db, in_), in_);
  }

  lemma RolledOk(cfg: Settings, account: Account, log: AccountLog, now: int)
    requires AccountOk(cfg, account, log)
    ensures AccountOk(cfg, Rolled(account, now), LogReset(log, DayRolled(account, now), DayRolled(account, now)))
  {
  }

  lemma SendOk(cfg: Settings, account: Account, log: AccountLog, campaign: Campaign, now: int, finish: int)
    requires AccountOk(cfg, account, log) && Limits(cfg, account, campaign, now).Allowed? && now <= finish
    ensures AccountOk(cfg, AfterSend(account, finish), LogSend(log, finish))
  {
  }

  /** The provider is only asked after the policy engine allowed it, whenever there is an
      account to ask about. */
  lemma DispatchWasAllowed(cfg: Settings, db: Db, in_: Inputs)
    requires Dispatches(cfg, db, in_) && in_.account.Some? && in_.account.value in db.accounts
    ensures var held := Held(db, in_);
            && Consults(cfg, held, in_.pick.value, in_.account, in_.decrypts)
            && Consultation(cfg, held, in_.pick.value, in_.account.value, in_.clock.policy).decision.Allowed?
  {
  }

  lemma ExecutedAccountOk(cfg: Settings, w: World, in_: Inputs)
    requires in_.pick.Some? && in_.pick.value in w.db.jobs && in_.account.Some? && in_.account.value in w.db.accounts
    requires AccountOk(cfg, w.db.accounts[in_.account.value], LogOf(w.ledger, in_.account.value)) && Ordered(in_.clock)
    ensures AccountOk(cfg, AccountAfter(cfg, w.db, in_), AccountsAfter(cfg, w, in_)[in_.account.value])
  {
    var a := in_.account.value;
    var k := in_.pick.value;
    var account, log := w.db.accounts[a], LogOf(w.ledger, a);
    var held := Held(w.db, in_);
    RolledOk(cfg, account, log, in_.clock.policy);
    if RecordsSend(cfg, w.db, in_) {
      DispatchWasAllowed(cfg, w.db, in_);
      SendOk(cfg, Rolled(account, in_.clock.policy), LogReset(log, DayRolled(account, in_.clock.policy), DayRolled(account, in_.clock.policy)),
             held.campaigns[k.campaign], in_.clock.policy, in_.clock.finish);
    }
  }

  lemma ExecuteKeepsRates(cfg: Settings, w: World, in_: Inputs)
    requires RatesOk(cfg, w) && Possible(w.db, in_)
    ensures RatesOk(cfg, ExecuteWorld(cfg, w, in_))
  {
    if in_.pick.Some? {
      ExecuteAccounts(cfg, w.db, in_);
      if in_.account.Some? {
        ExecutedAccountOk(cfg, w, in_);
      }
    }
  }

  lemma MaintainKeepsRates(cfg: Settings, w: World, memory: Memory, clock: PassClock)
    requires RatesOk(cfg, w)
    ensures RatesOk(cfg, MaintainWorld(w, memory, clock))
  {
    var w' := MaintainWorld(w, memory, clock);
    forall a <- w'.db.accounts
      ensures AccountOk(cfg, w'.db.accounts[a], LogOf(w'.ledger, a))
    {
      var hour, day := HourRolled(memory, clock.reset), DateRolled(memory, clock.reset);
      ResetOk(cfg, w.db.accounts[a], LogOf(w.ledger, a), hour, day, clock.reset);
      assert w'.db.accounts[a] == ResetAccount(w.db.accounts[a], hour, day, clock.reset);
      assert LogOf(w'.ledger, a) == LogReset(LogOf(w.ledger, a), hour, day);
    }
  }

  lemma ResetOk(cfg: Settings, account: Account, log: AccountLog, hour: bool, day: bool, now: int)
    requires AccountOk(cfg, account, log)
    ensures AccountOk(cfg, ResetAccount(account, hour, day, now), LogReset(log, hour, day))
  {
  }

  lemma {:induction false} EnqueueAllAccounts(db: Db, org: int, c: int, records: seq<int>, at: int)
    requires forall e <- records :: e in db.emails
    ensures EnqueueAll(db, org, c, records, at).accounts == db.accounts
    ensures EnqueueAll(db, org, c, records, at).leads == db.leads
    ensures EnqueueAll(db, org, c, records, at).campaigns == db.campaigns
    ensures EnqueueAll(db, org, c, records, at).suppressed == db.suppressed
  {
    if records != [] {
      EnqueueAllAccounts(db, org, c, records[..|records| - 1], at);
    }
  }

  lemma StepKeepsRates(cfg: Settings, w: World, step: Step)
    requires RatesOk(cfg, w) && Enabled(cfg, w, step)
    ensures RatesOk(cfg, Next(cfg, w, step))
  {
    match step
    case Execute(in_) => ExecuteKeepsRates(cfg, w, in_);
    case Maintain(memory, clock) => MaintainKeepsRates(cfg, w, memory, clock);
    case EnqueuePending(org, c, records, at) => EnqueueAllAccounts(w.db, org, c, records, at);
    case _ =>
  }

  lemma {:induction false} RunKeepsRates(cfg: Settings, w: World, steps: seq<Step>)
    requires Fresh(w) && Legal(cfg, w, steps)
    ensures RatesOk(cfg, After(cfg, w, steps))
  {
    if steps != [] {
      RunKeepsRates(cfg, w, steps[..|steps| - 1]);
      StepKeepsRates(cfg, After(cfg, w, steps[..|steps| - 1]), steps[|steps| - 1]);
    }
  }

  // ---- The log is the run's events --------------------------------------------------------

  /** The step records a send of account `a`. */
  predicate SendsFrom(cfg: Settings, w: World, step: Step, a: int)
  {
    step.Execute? && step.in_.account == Some(a) && RecordsSend(cfg, w.db, step.in_)
  }

  /** The step's policy evaluation or maintenance pass starts a new day for `a`. */
  predicate ResetsDay(cfg: Settings, w: World, step: Step, a: int)
  {
    match step
    case Execute(in_) => in_.account == Some(a) && RollsDay(cfg, w.db, in_)
    case Maintain(memory, clock) => a in w.db.accounts && DateRolled(memory, clock.reset)
    case _ => false
  }

  /** A new day resets the hour too; so does a pass in another hour. */
  predicate ResetsHour(cfg: Settings, w: World, step: Step, a: int)
  {
    match step
    case Maintain(memory, clock) => a in w.db.accounts && HourRolled(memory, clock.reset)
    case _ => ResetsDay(cfg, w, step, a)
  }

  function StepLog(cfg: Settings, w: World, step: Step, a: int, log: AccountLog): AccountLog
  {
    var reset := LogReset(log, ResetsHour(cfg, w, step, a), ResetsDay(cfg, w, step, a));
    if SendsFrom(cfg, w, step, a) then LogSend(reset, step.in_.clock.finish) else reset
  }

  /** The sends a run records for account `a`, its resets, and where they fall. */
  function RunLog(cfg: Settings, w: World, steps: seq<Step>, a: int): AccountLog
    requires Legal(cfg, w, steps)
  {
    if steps == [] then AccountLog([], 0, 0, 0, 0)
    else
      var n := |steps| - 1;
      StepLog(cfg, After(cfg, w, steps[..n]), steps[n], a, RunLog(cfg, w, steps[..n], a))
  }

  lemma ExecuteBooks(cfg: Settings, w: World, in_: Inputs, a: int)
    requires in_.pick.Some? ==> in_.pick.value in w.db.jobs
    ensures LogOf(ExecuteWorld(cfg, w, in_).ledger, a) == StepLog(cfg, w, Execute(in_), a, LogOf(w.ledger, a))
  {
  }

  lemma StepBooks(cfg: Settings, w: World, step: Step, a: int)
    requires Enabled(cfg, w, step)
    ensures LogOf(Next(cfg, w, step).ledger, a) == StepLog(cfg, w, step, a, LogOf(w.ledger, a))
  {
    if step.Execute? {
      ExecuteBooks(cfg, w, step.in_, a);
    }
  }

  /** The ledger's log of an account is exactly what the run recorded for it. */
  lemma {:induction false} RunBooks(cfg: Settings, w: World, steps: seq<Step>, a: int)
    requires Fresh(w) && Legal(cfg, w, steps)
    ensures LogOf(After(cfg, w, steps).ledger, a) == RunLog(cfg, w, steps, a)
  {
    if steps != [] {
      var n := |steps| - 1;
      RunBooks(cfg, w, steps[..n], a);
      StepBooks(cfg, After(cfg, w, steps[..n]), steps[n], a);
    }
  }

  /** And over any stretch it grows by what the stretch recorded. */
  lemma {:induction false} StretchBooks(cfg: Settings, w: World, steps: seq<Step>, a: int)
    requires Legal(cfg, w, steps)
    ensures var before, more, after := LogOf(w.ledger, a), RunLog(cfg, w, steps, a), LogOf(After(cfg, w, steps).ledger, a);
            && after.sends == before.sends + more.sends
            && after.dayResets == before.dayResets + more.dayResets && after.hourResets == before.hourResets + more.hourResets
  {
    if steps != [] {
      var n := |steps| - 1;
      StretchBooks(cfg, w, steps[..n], a);
      StepBooks(cfg, After(cfg, w, steps[..n]), steps[n], a);
    }
  }

  /** In every reachable state each account's counters are the number of sends the run recorded
      since their last reset, stay within the limits, and its sends are spaced. */
  lemma CountersCountSends(cfg: Settings, w: World, steps: seq<Step>, end: World, a: int)
    requires Reaches(cfg, w, steps, end) && a in end.db.accounts
    ensures AccountOk(cfg, end.db.accounts[a], RunLog(cfg, w, steps, a))
  {
    RunKeepsRates(cfg, w, steps);
    RunBooks(cfg, w, steps, a);
  }

  // ---- Windows ----------------------------------------------------------------------------

  function DayLimit(cfg: Settings): int { Max(0, cfg.dailyLimit) }

  function HourLimit(cfg: Settings): int { Max(0, cfg.hourlyLimit) }

  /** How one account's log and counters may move in one step. */
  predicate WindowMove(cfg: Settings, before: Account, log: AccountLog, after: Account, log': AccountLog)
  {
    && (log'.dayResets == log.dayResets || log'.dayResets == log.dayResets + 1)
    && (log'.hourResets == log.hourResets || log'.hourResets == log.hourResets + 1)
    && |log'.sends| - |log.sends| <= after.sendsToday - before.sendsToday + (if log'.dayResets == log.dayResets then 0 else DayLimit(cfg))
    && |log'.sends| - |log.sends| <= after.sendsThisHour - before.sendsThisHour + (if log'.hourResets == log.hourResets then 0 else HourLimit(cfg))
  }

  lemma ExecuteWindow(cfg: Settings, w: World, in_: Inputs)
    requires in_.pick.Some? && in_.pick.value in w.db.jobs && in_.account.Some? && in_.account.value in w.db.accounts
    requires AccountOk(cfg, w.db.accounts[in_.account.value], LogOf(w.ledger, in_.account.value))
    ensures var a := in_.account.value;
            WindowMove(cfg, w.db.accounts[a], LogOf(w.ledger, a), AccountAfter(cfg, w.db, in_), AccountsAfter(cfg, w, in_)[a])
  {
    if RecordsSend(cfg, w.db, in_) {
      DispatchWasAllowed(cfg, w.db, in_);
    }
  }

  lemma ExecuteStepWindow(cfg: Settings, w: World, in_: Inputs, a: int)
    requires RatesOk(cfg, w) && Possible(w.db, in_) && a in w.db.accounts
    ensures var w' := ExecuteWorld(cfg, w, in_);
            a in w'.db.accounts && WindowMove(cfg, w.db.accounts[a], LogOf(w.ledger, a), w'.db.accounts[a], LogOf(w'.ledger, a))
  {
    if in_.pick.Some? {
      ExecuteAccounts(cfg, w.db, in_);
      if in_.account.Some? {
        ExecuteWindow(cfg, w, in_);
      }
    }
  }

  lemma MaintainWindow(cfg: Settings, w: World, memory: Memory, clock: PassClock, a: int)
    requires RatesOk(cfg, w) && a in w.db.accounts
    ensures var w' := MaintainWorld(w, memory, clock);
            a in w'.db.accounts && WindowMove(cfg, w.db.accounts[a], LogOf(w.ledger, a), w'.db.accounts[a], LogOf(w'.ledger, a))
  {
  }

  lemma StepWindow(cfg: Settings, w: World, step: Step, a: int)
    requires RatesOk(cfg, w) && Enabled(cfg, w, step) && a in w.db.accounts
    ensures a in Next(cfg, w, step).db.accounts
    ensures WindowMove(cfg, w.db.accounts[a], LogOf(w.ledger, a),
                       Next(cfg, w, step).db.accounts[a], LogOf(Next(cfg, w, step).ledger, a))
  {
    match step
    case Execute(in_) => ExecuteStepWindow(cfg, w, in_, a);
    case Maintain(memory, clock) => MaintainWindow(cfg, w, memory, clock, a);
    case EnqueuePending(org, c, records, at) => EnqueueAllAccounts(w.db, org, c, records, at);
    case _ =>
  }

  /** The same over any number of steps. */
  predicate WindowTotal(cfg: Settings, before: Account, log: AccountLog, after: Account, log': AccountLog)
  {
    && log.dayResets <= log'.dayResets && log.hourResets <= log'.hourResets
    && |log'.sends| - |log.sends| <= after.sendsToday - before.sendsToday + (log'.dayResets - log.dayResets) * DayLimit(cfg)
    && |log'.sends| - |log.sends| <= after.sendsThisHour - before.sendsThisHour + (log'.hourResets - log.hourResets) * HourLimit(cfg)
  }

  lemma MovesAddUp(cfg: Settings, before: Account, log: AccountLog, mid: Account, logMid: AccountLog, after: Account, log': AccountLog)
    requires WindowTotal(cfg, before, log, mid, logMid) && WindowMove(cfg, mid, logMid, after, log')
    ensures WindowTotal(cfg, before, log, after, log')
  {
    Distribute(logMid.dayResets - log.dayResets, DayLimit(cfg));
    Distribute(logMid.hourResets - log.hourResets, HourLimit(cfg));
  }

  /** Between the two logs there are at most (resets + 1) * limit sends, by day and by hour. */
  predicate Bounded(cfg: Settings, log: AccountLog, log': AccountLog)
  {
    && |log'.sends| - |log.sends| <= (log'.dayResets - log.dayResets + 1) * DayLimit(cfg)
    && |log'.sends| - |log.sends| <= (log'.hourResets - log.hourResets + 1) * HourLimit(cfg)
  }

  lemma WindowsWithinLimits(cfg: Settings, before: Account, log: AccountLog, after: Account, log': AccountLog)
    requires WindowTotal(cfg, before, log, after, log') && AccountOk(cfg, after, log')
    ensures Bounded(cfg, log, log')
  {
    Distribute(log'.dayResets - log.dayResets, DayLimit(cfg));
    Distribute(log'.hourResets - log.hourResets, HourLimit(cfg));
  }

  lemma {:induction false} RunWindow(cfg: Settings, w: World, steps: seq<Step>, a: int)
    requires RatesOk(cfg, w) && Legal(cfg, w, steps) && a in w.db.accounts
    ensures RatesOk(cfg, After(cfg, w, steps)) && a in After(cfg, w, steps).db.accounts
    ensures WindowTotal(cfg, w.db.accounts[a], LogOf(w.ledger, a),
                        After(cfg, w, steps).db.accounts[a], LogOf(After(cfg, w, steps).ledger, a))
  {
    if steps != [] {
      var n := |steps| - 1;
      var mid := After(cfg, w, steps[..n]);
      RunWindow(cfg, w, steps[..n], a);
      StepWindow(cfg, mid, steps[n], a);
      StepKeepsRates(cfg, mid, steps[n]);
      MovesAddUp(cfg, w.db.accounts[a], LogOf(w.ledger, a), mid.db.accounts[a], LogOf(mid.ledger, a),
                 After(cfg, w, steps).db.accounts[a], LogOf(After(cfg, w, steps).ledger, a));
    }
  }

  lemma StretchBounded(cfg: Settings, from: World, steps: seq<Step>, a: int)
    requires RatesOk(cfg, from) && Legal(cfg, from, steps) && a in from.db.accounts
    ensures Bounded(cfg, LogOf(from.ledger, a), LogOf(After(cfg, from, steps).ledger, a))
  {
    var to := After(cfg, from, steps);
    RunWindow(cfg, from, steps, a);
    WindowsWithinLimits(cfg, from.db.accounts[a], LogOf(from.ledger, a), to.db.accounts[a], LogOf(to.ledger, a));
  }

  /** At most (resets + 1) * limit sends, by day and by hour. */
  predicate WithinWindows(cfg: Settings, log: AccountLog)
  {
    && |log.sends| <= (log.dayResets + 1) * DayLimit(cfg)
    && |log.sends| <= (log.hourResets + 1) * HourLimit(cfg)
  }

  lemma GrowthWithinWindows(cfg: Settings, before: AccountLog, more: AccountLog, after: AccountLog)
    requires Bounded(cfg, before, after) && after.sends == before.sends + more.sends
    requires after.dayResets == before.dayResets + more.dayResets && after.hourResets == before.hourResets + more.hourResets
    ensures WithinWindows(cfg, more)
  {
  }

  /** Any stretch of a run that holds k day resets (by the policy engine or by maintenance,
      in whatever order) records at most (k + 1) * daily_limit sends of an account, and at
      most (h + 1) * hourly_limit for h hour resets. */
  lemma WindowsBounded(cfg: Settings, w: World, earlier: seq<Step>, from: World, steps: seq<Step>, a: int)
    requires Reaches(cfg, w, earlier, from) && Legal(cfg, from, steps) && a in from.db.accounts
    ensures WithinWindows(cfg, RunLog(cfg, from, steps, a))
  {
    RunKeepsRates(cfg, w, earlier);
    StretchBounded(cfg, from, steps, a);
    StretchBooks(cfg, from, steps, a);
    GrowthWithinWindows(cfg, LogOf(from.ledger, a), RunLog(cfg, from, steps, a), LogOf(After(cfg, from, steps).ledger, a));
  }

  lemma Distribute(k: int, limit: int)
    ensures (k + 1) * limit == k * limit + limit
  {
  }

  // ---- Pacing -----------------------------------------------------------------------------

  lemma {:induction false} SpacedApart(sends: seq<int>, gap: int, i: nat, j: nat)
    requires Spaced(sends, gap) && i <= j < |sends|
    ensures sends[j] - sends[i] >= (j - i) * gap
  {
    if i < j {
      SpacedApart(sends, gap, i, j - 1);
      Distribute(j - 1 - i, gap);
    }
  }

  /** The execution met a job that the pacing rule alone holds back. */
  predicate HeldBackByPacing(cfg: Settings, db: Db, in_: Inputs)
  {
    && in_.pick.Some? && in_.pick.value in db.jobs
    && var held, k := Held(db, in_), in_.pick.value;
    && Consults(cfg, held, k, in_.account, in_.decrypts)
    && var account, now := held.accounts[in_.account.value], in_.clock.policy;
    && Screening(cfg, held, account, held.campaigns[k.campaign], held.leads[k.lead]).Allowed?
    && Rolled(account, now).sendsToday < DailyCap(cfg, held.campaigns[k.campaign])
    && Rolled(account, now).sendsThisHour < cfg.hourlyLimit
    && account.lastSendAt.Some? && now - account.lastSendAt.value < cfg.minDelaySeconds * SECOND
  }

  lemma PostponementWaits(cfg: Settings, db: Db, in_: Inputs, later: int)
    requires HeldBackByPacing(cfg, db, in_) && Ordered(in_.clock)
    ensures var k, a, after := in_.pick.value, in_.account.value, WorkerSpec.Execute(cfg, db, in_);
            && k in after.jobs && after.jobs[k].status.Queued? && RulingOf(cfg, db, in_).Delayed?
            && a in after.accounts && after.accounts[a].lastSendAt == db.accounts[a].lastSendAt
            && (after.jobs[k].scheduledFor <= later ==> later - db.accounts[a].lastSendAt.value >= cfg.minDelaySeconds * SECOND)
  {
    var k, a := in_.pick.value, in_.account.value;
    var last, now := db.accounts[a].lastSendAt.value, in_.clock.policy;
    assert RulingOf(cfg, db, in_) == Delayed(PacingWait(cfg, last, now)) by {
      PacingWaitPositive(cfg, last, now);
    }
    Scheduling.ExecuteJobs(cfg, db, in_);
    ExecuteAccounts(cfg, db, in_);
    if in_.clock.finish + PacingWait(cfg, last, now) * SECOND <= later {
      PacingWaitSuffices(cfg, last, now, in_.clock.finish, later);
    }
  }

  /** Only a recorded send moves an account's last send time. */
  lemma StepLastSend(cfg: Settings, w: World, step: Step, a: int)
    requires Enabled(cfg, w, step) && a in w.db.accounts
    ensures a in Next(cfg, w, step).db.accounts
    ensures !SendsFrom(cfg, w, step, a) ==> Next(cfg, w, step).db.accounts[a].lastSendAt == w.db.accounts[a].lastSendAt
  {
    match step
    case Execute(in_) =>
      if in_.pick.Some? {
        ExecuteAccounts(cfg, w.db, in_);
      }
    case EnqueuePending(org, c, records, at) => EnqueueAllAccounts(w.db, org, c, records, at);
    case _ =>
  }

  lemma {:induction false} LastSendStays(cfg: Settings, w: World, steps: seq<Step>, a: int)
    requires Legal(cfg, w, steps) && a in w.db.accounts && RunLog(cfg, w, steps, a).sends == []
    ensures a in After(cfg, w, steps).db.accounts
    ensures After(cfg, w, steps).db.accounts[a].lastSendAt == w.db.accounts[a].lastSendAt
  {
    if steps != [] {
      var n := |steps| - 1;
      LastSendStays(cfg, w, steps[..n], a);
      StepLastSend(cfg, After(cfg, w, steps[..n]), steps[n], a);
    }
  }

  predicate PassesPacing(cfg: Settings, account: Account, now: int)
  {
    account.lastSendAt.Some? ==> now - account.lastSendAt.value >= cfg.minDelaySeconds * SECOND
  }

  /** A job postponed by the pacing rule goes back to QUEUED. However the run goes on, from its
      new time on that rule lets it pass as long as no further send of the account is recorded. */
  lemma PostponedJobPassesPacing(cfg: Settings, w: World, in_: Inputs, steps: seq<Step>, later: int)
    requires Enabled(cfg, w, Execute(in_)) && HeldBackByPacing(cfg, w.db, in_)
    requires Legal(cfg, ExecuteWorld(cfg, w, in_), steps)
    requires RunLog(cfg, ExecuteWorld(cfg, w, in_), steps, in_.account.value).sends == []
    ensures var k, a, mid := in_.pick.value, in_.account.value, ExecuteWorld(cfg, w, in_);
            && k in mid.db.jobs && mid.db.jobs[k].status.Queued?
            && a in After(cfg, mid, steps).db.accounts
            && (mid.db.jobs[k].scheduledFor <= later ==> PassesPacing(cfg, After(cfg, mid, steps).db.accounts[a], later))
  {
    PostponementWaits(cfg, w.db, in_, later);
    LastSendStays(cfg, ExecuteWorld(cfg, w, in_), steps, in_.account.value);
  }

  lemma PacingWaitPositive(cfg: Settings, last: int, now: int)
    requires now - last < cfg.minDelaySeconds * SECOND
    ensures PacingWait(cfg, last, now) > 0
  {
  }

  /** Pacing over whole runs: consecutive recorded sends of an account are at least
      MIN_DELAY_SECONDS apart, so sends i..j that fall within T microseconds number at most
      T / MIN_DELAY + 1. */
  lemma SendsArePaced(cfg: Settings, w: World, steps: seq<Step>, end: World, a: int, i: nat, j: nat, T: int)
    requires Reaches(cfg, w, steps, end) && a in end.db.accounts && cfg.minDelaySeconds > 0
    requires var sends := RunLog(cfg, w, steps, a).sends; i <= j < |sends| && sends[j] - sends[i] <= T
    ensures var sends := RunLog(cfg, w, steps, a).sends;
            && (i < j ==> sends[i + 1] - sends[i] >= cfg.minDelaySeconds * SECOND)
            && j - i + 1 <= T / (cfg.minDelaySeconds * SECOND) + 1
  {
    CountersCountSends(cfg, w, steps, end, a);
    SpacedWithin(RunLog(cfg, w, steps, a).sends, cfg.minDelaySeconds * SECOND, i, j, T);
  }

  lemma SpacedWithin(sends: seq<int>, gap: int, i: nat, j: nat, T: int)
    requires Spaced(sends, gap) && gap > 0 && i <= j < |sends| && sends[j] - sends[i] <= T
    ensures i < j ==> sends[i + 1] - sends[i] >= gap
    ensures j - i <= T / gap
  {
    SpacedApart(sends, gap, i, j);
    FitsIn(j - i, gap, T);
  }

  lemma TimesMonotone(a: int, b: int, gap: int)
    requires a <= b && gap >= 0
    ensures a * gap <= b * gap
  {
  }

  lemma FitsIn(n: int, gap: int, T: int)
    requires gap > 0 && n * gap <= T
    ensures n <= T / gap
  {
    var q := T / gap;
    Distribute(q, gap);
    if q + 1 <= n {
      TimesMonotone(q + 1, n, gap);
      assert false;
    }
  }
}

/** The send protocol as a state machine. A world is the committed database, the clock, and a
    ledger of what happened outside it: provider deliveries are never undone by a rollback,
    and purged rows and counter resets are remembered. Every step is one transaction. */
module World {
  import opened Text
  import opened Records
  import opened JobRows
  import opened QueueSpec
  import opened PolicySpec
  import opened WorkerSpec
  import opened MaintenanceSpec

  /** Recorded sends of one account, and where its counter windows started. */
  datatype AccountLog = AccountLog(sends: seq<int>, dayMark: nat, hourMark: nat, dayResets: nat, hourResets: nat)

  /** What happened to the requests for one email record: the messages the provider took, of
      these the ones whose transaction was rolled back and the ones committed as failures
      because the answer was lost, and the success answers without a message id. */
  datatype Tally = Tally(taken: nat, lost: nat, unanswered: nat, nameless: nat)

  datatype Ledger = Ledger(
    mail: map<int, Tally>,           // per email record
    purged: map<JobKey, SendJob>,    // rows deleted by the retention purge
    postponed: map<JobKey, nat>,
    expired: map<JobKey, nat>,
    accounts: map<int, AccountLog>)

  datatype World = World(db: Db, ledger: Ledger, now: int)

  datatype Step =
    | Execute(in_: Inputs)                                     // a worker transaction that commits
    | Killed(in_: Inputs, asked: bool)                         // one that is rolled back, before or after `provider.send`
    | Abandon(worker: string, at: int, locked: set<JobKey>, k: JobKey) // a committed claim whose worker dies
    | Activate(org: int, c: int, at: int)                      // start_campaign, first commit
    | EnqueuePending(org: int, c: int, records: seq<int>, at: int) // start_campaign, second commit
    | Pause(org: int, c: int, at: int)
    | Maintain(memory: Memory, clock: PassClock)
    | Enrich(l: int)                                           // enrich_lead, from the worker or the API
    | Generate(e: int, l: int, campaign: Option<int>)          // a PENDING record for a lead
    | Reply(l: int, status: LeadStatus)                        // reply and bounce handling
    | Suppress(org: int, email: string)
    | CountBounce(c: int)
    | SetAccount(a: int, active: bool, healthy: bool, hasCredentials: bool)

  function One(b: bool): nat { if b then 1 else 0 }

  function Count<K>(m: map<K, nat>, k: K): nat { if k in m then m[k] else 0 }

  function Bump<K>(m: map<K, nat>, k: K): map<K, nat> { m[k := Count(m, k) + 1] }

  function BumpIf<K>(m: map<K, nat>, k: K, b: bool): map<K, nat> { if b then Bump(m, k) else m }

  function TallyOf(l: Ledger, e: int): Tally
  {
    if e in l.mail then l.mail[e] else Tally(0, 0, 0, 0)
  }

  /** A committed request. */
  function Answered(t: Tally, in_: Inputs): Tally
  {
    t.(taken := t.taken + (if in_.taken then 1 else 0),
       unanswered := t.unanswered + (if in_.taken && !in_.reply.success then 1 else 0),
       nameless := t.nameless + (if in_.reply.success && !Truthy(in_.reply.messageId) then 1 else 0))
  }

  /** A request whose transaction is rolled back. */
  function Forgotten(t: Tally, in_: Inputs): Tally
  {
    if in_.taken then t.(taken := t.taken + 1, lost := t.lost + 1) else t
  }

  function LogOf(l: Ledger, a: int): AccountLog
  {
    if a in l.accounts then l.accounts[a] else AccountLog([], 0, 0, 0, 0)
  }

  function LogReset(log: AccountLog, hour: bool, day: bool): AccountLog
  {
    log.(hourMark := if hour then |log.sends| else log.hourMark,
         hourResets := log.hourResets + if hour then 1 else 0,
         dayMark := if day then |log.sends| else log.dayMark,
         dayResets := log.dayResets + if day then 1 else 0)
  }

  function LogSend(log: AccountLog, now: int): AccountLog
  {
    log.(sends := log.sends + [now])
  }

  /** Lost leases noticed by the reaper. */
  function CountReaped(jobs: map<JobKey, SendJob>, expired: map<JobKey, nat>, now: int): map<JobKey, nat>
  {
    expired + map k | k in jobs && Expired(jobs[k], now) :: Count(expired, k) + 1
  }

  // ---- Which steps are possible -----------------------------------------------------------

  predicate Enabled(cfg: Settings, w: World, step: Step)
  {
    match step
    case Execute(in_) => w.now <= in_.clock.reap && Possible(w.db, in_)
    case Killed(in_, asked) => w.now <= in_.clock.reap && Possible(w.db, in_) && (asked ==> Dispatches(cfg, w.db, in_))
    case Abandon(_, at, locked, k) => w.now <= at && IsPick(w.db, at, locked, Some(k))
    case Activate(org, c, at) => w.now <= at && OwnsCampaign(w.db, org, c)
    case EnqueuePending(org, c, records, at) => w.now <= at && OwnsCampaign(w.db, org, c) && ListsPending(w.db, org, c, records)
    case Pause(org, c, at) => w.now <= at && OwnsCampaign(w.db, org, c)
    case Maintain(_, clock) => w.now <= clock.enrichment && PassOrdered(clock)
    case Enrich(l) => l in w.db.leads
    case Generate(e, l, _) => e !in w.db.emails && l in w.db.leads && Writable(w.db.leads[l])
    case Reply(l, status) => l in w.db.leads && (status.Unsubscribed? || status.Bounced? || status.Replied?)
    case Suppress(org, email) => true
    case CountBounce(c) => c in w.db.campaigns
    case SetAccount(a, _, _, _) => a in w.db.accounts
  }

  // ---- What a step does -------------------------------------------------------------------

  /** The day rollover inside the policy evaluation of this execution. */
  predicate RollsDay(cfg: Settings, db: Db, in_: Inputs)
  {
    && in_.pick.Some? && in_.pick.value in db.jobs
    && var held := Held(db, in_);
    && Consults(cfg, held, in_.pick.value, in_.account, in_.decrypts)
    && Screening(cfg, held, held.accounts[in_.account.value], held.campaigns[in_.pick.value.campaign], held.leads[in_.pick.value.lead]).Allowed?
    && DayRolled(held.accounts[in_.account.value], in_.clock.policy)
  }

  function AccountsAfter(cfg: Settings, w: World, in_: Inputs): map<int, AccountLog>
  {
    if in_.account.None? then w.ledger.accounts
    else
      var a := in_.account.value;
      var rolled := LogReset(LogOf(w.ledger, a), RollsDay(cfg, w.db, in_), RollsDay(cfg, w.db, in_));
      w.ledger.accounts[a := if RecordsSend(cfg, w.db, in_) then LogSend(rolled, in_.clock.finish) else rolled]
  }

  function LedgerAfter(cfg: Settings, w: World, in_: Inputs): Ledger
    requires in_.pick.Some? ==> in_.pick.value in w.db.jobs
  {
    var expired := CountReaped(w.db.jobs, w.ledger.expired, in_.clock.reap);
    if in_.pick.None? then w.ledger.(expired := expired)
    else
      var k := in_.pick.value;
      w.ledger.(
        expired := BumpIf(expired, k, Expired(Seen(w.db, in_).jobs[k], in_.clock.claim)),
        postponed := BumpIf(w.ledger.postponed, k, RulingOf(cfg, w.db, in_).Delayed?),
        mail := w.ledger.mail[k.email :=
          if Dispatches(cfg, w.db, in_) then Answered(TallyOf(w.ledger, k.email), in_) else TallyOf(w.ledger, k.email)],
        accounts := AccountsAfter(cfg, w, in_))
  }

  function ExecuteWorld(cfg: Settings, w: World, in_: Inputs): World
    requires in_.pick.Some? ==> in_.pick.value in w.db.jobs
  {
    World(WorkerSpec.Execute(cfg, w.db, in_), LedgerAfter(cfg, w, in_), in_.clock.finish)
  }

  /** The transaction is rolled back; a message the provider took stays taken. */
  function KilledWorld(w: World, in_: Inputs, asked: bool): World
  {
    var mail :=
      if asked && in_.pick.Some?
      then w.ledger.mail[in_.pick.value.email := Forgotten(TallyOf(w.ledger, in_.pick.value.email), in_)]
      else w.ledger.mail;
    World(w.db, w.ledger.(mail := mail), in_.clock.finish)
  }

  function AbandonWorld(w: World, worker: string, at: int, k: JobKey): World
    requires k in w.db.jobs
  {
    World(Claim(w.db, k, worker, at, JOB_LEASE_SECONDS),
          w.ledger.(expired := BumpIf(w.ledger.expired, k, Expired(w.db.jobs[k], at))), at)
  }

  function PurgedRows(jobs: map<JobKey, SendJob>, now: int): map<JobKey, SendJob>
  {
    map k | k in PurgedKeys(jobs, now) :: jobs[k]
  }

  function MaintainWorld(w: World, memory: Memory, clock: PassClock): World
  {
    var hour, day := HourRolled(memory, clock.reset), DateRolled(memory, clock.reset);
    World(Pass(w.db, memory, clock),
          w.ledger.(expired := CountReaped(w.db.jobs, w.ledger.expired, clock.reap),
                    purged := w.ledger.purged + PurgedRows(ReapedJobs(w.db.jobs, clock.reap), clock.purge),
                    accounts := w.ledger.accounts + map a | a in w.db.accounts :: LogReset(LogOf(w.ledger, a), hour, day)),
          clock.purge)
  }

  function EnqueueWorld(w: World, org: int, c: int, records: seq<int>, at: int): World
    requires forall e <- records :: e in w.db.emails
  {
    World(EnqueueAll(w.db, org, c, records, at), w.ledger, at)
  }

  /** What the rest of the system does between transactions. */
  function Outside(w: World, step: Step): World
    requires step.Enrich? || step.Generate? || step.Reply? ==> step.l in w.db.leads
    requires step.CountBounce? ==> step.c in w.db.campaigns
    requires step.SetAccount? ==> step.a in w.db.accounts
  {
    match step
    case Enrich(l) => w.(db := EnrichLead(w.db, l))
    case Generate(e, l, campaign) => w.(db := GenerateEmail(w.db, e, l, campaign))
    case Reply(l, status) => w.(db := SetLead(w.db, l, status))
    case Suppress(org, email) => w.(db := w.db.(suppressed := w.db.suppressed + {(org, email)}))
    case CountBounce(c) =>
      w.(db := w.db.(campaigns := w.db.campaigns[c := w.db.campaigns[c].(totalBounces := w.db.campaigns[c].totalBounces + 1)]))
    case SetAccount(a, active, healthy, hasCredentials) =>
      w.(db := w.db.(accounts := w.db.accounts[a := w.db.accounts[a].(active := active, healthy := healthy, hasCredentials := hasCredentials)]))
    case _ => w
  }

  function Next(cfg: Settings, w: World, step: Step): World
    requires Enabled(cfg, w, step)
  {
    match step
    case Execute(in_) => ExecuteWorld(cfg, w, in_)
    case Killed(in_, asked) => KilledWorld(w, in_, asked)
    case Abandon(worker, at, _, k) => AbandonWorld(w, worker, at, k)
    case Activate(_, c, at) => World(SetCampaign(w.db, c, CampaignStatus.Active), w.ledger, at)
    case Pause(_, c, at) => World(SetCampaign(w.db, c, CampaignStatus.Paused), w.ledger, at)
    case EnqueuePending(org, c, records, at) => EnqueueWorld(w, org, c, records, at)
    case Maintain(memory, clock) => MaintainWorld(w, memory, clock)
    case _ => Outside(w, step)
  }

  // ---- Runs -------------------------------------------------------------------------------

  /** Before anything ran: no jobs, PENDING records without a message id, zero counters.
      Leads, campaigns, accounts and settings are arbitrary. */
  predicate Fresh(w: World)
  {
    && w.db.jobs == map[]
    && (forall e <- w.db.emails :: w.db.emails[e].status.Pending? && w.db.emails[e].messageId.None?)
    && (forall a <- w.db.accounts :: w.db.accounts[a].sendsToday == 0 && w.db.accounts[a].sendsThisHour == 0 && w.db.accounts[a].lastSendAt.None?)
    && (forall c <- w.db.campaigns :: w.db.campaigns[c].totalSent == 0)
    && w.ledger == Ledger(map[], map[], map[], map[], map[])
  }

  /** Every step is possible when its turn comes. */
  predicate Legal(cfg: Settings, w: World, steps: seq<Step>)
    decreases |steps|, 0
  {
    steps == [] || (Legal(cfg, w, steps[..|steps| - 1]) && Enabled(cfg, After(cfg, w, steps[..|steps| - 1]), steps[|steps| - 1]))
  }

  function After(cfg: Settings, w: World, steps: seq<Step>): World
    requires Legal(cfg, w, steps)
    decreases |steps|, 1
  {
    if steps == [] then w else Next(cfg, After(cfg, w, steps[..|steps| - 1]), steps[|steps| - 1])
  }

  /** The steps are a run that takes the fresh world `w` to `end`. */
  predicate Reaches(cfg: Settings, w: World, steps: seq<Step>, end: World)
  {
    Fresh(w) && Legal(cfg, w, steps) && end == After(cfg, w, steps)
  }

  /** A run goes on with any step that is possible where it stands. */
  lemma OneMore(cfg: Settings, w: World, steps: seq<Step>, step: Step)
    requires Legal(cfg, w, steps) && Enabled(cfg, After(cfg, w, steps), step)
    ensures Legal(cfg, w, steps + [step]) && After(cfg, w, steps + [step]) == Next(cfg, After(cfg, w, steps), step)
  {
    assert (steps + [step])[..|steps|] == steps;
  }
}

/** One execution of the campaign worker (workers/campaign_worker.py) as a function of the
    database and of everything the worker does not control. */
module WorkerSpec {
  import opened Text
  import opened Records
  import opened JobRows
  import opened QueueSpec
  import opened PolicySpec

  /** The clock readings of one execution, in the order the code takes them. */
  datatype Clock = Clock(reap: int, claim: int, policy: int, finish: int)

  predicate Ordered(c: Clock) { c.reap <= c.claim <= c.policy <= c.finish }

  /** What an execution meets: the row the claim query returned, the rows other transactions
      hold, the account the query returned, whether its credentials decrypt, and, should the
      provider be asked, its answer and whether it took the message. The two differ when the
      answer is lost on the way back: the code then sees a failure. */
  datatype Inputs = Inputs(
    worker: string, clock: Clock, locked: set<JobKey>, pick: Option<JobKey>,
    account: Option<int>, decrypts: bool, reply: SendResult, taken: bool)

  /** How an execution of a claimed job ends, short of the provider's answer. */
  datatype Ruling =
    | Missing
    | NoAccount
    | BadCredentials
    | Delayed(seconds: int)
    | Refused(circuitBroken: bool)
    | AlreadySent(messageId: Option<string>)
    | Dispatch

  /** What the account query may return. */
  predicate IsAccountChoice(db: Db, org: int, choice: Option<int>)
  {
    match choice
    case None => forall a <- db.accounts :: db.accounts[a].org == org ==> !(db.accounts[a].active && db.accounts[a].healthy)
    case Some(a) => a in db.accounts && db.accounts[a].org == org && db.accounts[a].active && db.accounts[a].healthy
  }

  predicate RefsPresent(db: Db, k: JobKey)
  {
    k.email in db.emails && k.lead in db.leads && k.campaign in db.campaigns
  }

  predicate Usable(db: Db, account: Option<int>)
  {
    account.Some? && account.value in db.accounts && db.accounts[account.value].hasCredentials
  }

  /** Whether the policy engine is consulted at all. */
  predicate Consults(cfg: Settings, db: Db, k: JobKey, account: Option<int>, decrypts: bool)
  {
    && RefsPresent(db, k) && account.Some? && account.value in db.accounts
    && (if Usable(db, account) then decrypts else !cfg.production)
  }

  function Consultation(cfg: Settings, db: Db, k: JobKey, a: int, now: int): Evaluation
    requires RefsPresent(db, k) && a in db.accounts
  {
    Evaluate(cfg, db, db.accounts[a], db.campaigns[k.campaign], db.leads[k.lead], now)
  }

  function RuleByPolicy(decision: Decision): Ruling
    requires decision.Denied?
  {
    if decision.delaySeconds > 0 then Delayed(decision.delaySeconds) else Refused(decision.circuitBroken)
  }

  function Rule(cfg: Settings, db: Db, k: JobKey, account: Option<int>, decrypts: bool, now: int): Ruling
  {
    if !RefsPresent(db, k) then Missing
    else if !Usable(db, account) && cfg.production then NoAccount
    else if Usable(db, account) && !decrypts then BadCredentials
    else if Consults(cfg, db, k, account, decrypts) && Consultation(cfg, db, k, account.value, now).decision.Denied?
    then RuleByPolicy(Consultation(cfg, db, k, account.value, now).decision)
    else if db.emails[k.email].status.Sent? && Truthy(db.emails[k.email].messageId)
    then AlreadySent(db.emails[k.email].messageId)
    else Dispatch
  }

  /** The account row as the policy evaluation leaves it. */
  function Consulted(cfg: Settings, db: Db, k: JobKey, account: Option<int>, decrypts: bool, now: int): Db
  {
    if Consults(cfg, db, k, account, decrypts)
    then db.(accounts := db.accounts[account.value := Consultation(cfg, db, k, account.value, now).account])
    else db
  }

  /** The answer the worker takes for a delivery: success with a message id. */
  predicate Confirmed(reply: SendResult)
  {
    reply.success && Truthy(reply.messageId)
  }

  function Counted(db: Db, account: Option<int>, now: int): Db
  {
    if account.Some? && account.value in db.accounts
    then db.(accounts := db.accounts[account.value := AfterSend(db.accounts[account.value], now)])
    else db
  }

  /** Writing the outcome of the claimed job `k`. */
  function Settle(db: Db, k: JobKey, ruling: Ruling, in_: Inputs): Db
    requires k in db.jobs
    requires ruling.Refused? && ruling.circuitBroken ==> k.campaign in db.campaigns
  {
    var now := in_.clock.finish;
    match ruling
    case Missing => Fail(db, k, in_.worker, false, now)
    case NoAccount => Fail(db, k, in_.worker, true, now)
    case BadCredentials => Fail(db, k, in_.worker, false, now)
    case Delayed(seconds) => Postpone(db, k, now + seconds * SECOND)
    case Refused(broken) =>
      Fail(if broken then SetCampaign(db, k.campaign, CampaignStatus.Paused) else db, k, in_.worker, false, now)
    case AlreadySent(messageId) => Complete(db, k, in_.worker, messageId, now)
    case Dispatch =>
      if Confirmed(in_.reply) then Counted(Complete(db, k, in_.worker, in_.reply.messageId, now), in_.account, now)
      else Fail(db, k, in_.worker, in_.reply.retryable, now)
  }

  /** The outcome on the claimed row. */
  function RowAfter(row: SendJob, ruling: Ruling, in_: Inputs): SendJob
  {
    var now := in_.clock.finish;
    match ruling
    case Missing => AfterFailure(row, in_.worker, false, now)
    case NoAccount => AfterFailure(row, in_.worker, true, now)
    case BadCredentials => AfterFailure(row, in_.worker, false, now)
    case Delayed(seconds) => AfterPostponement(row, now + seconds * SECOND)
    case Refused(_) => AfterFailure(row, in_.worker, false, now)
    case AlreadySent(messageId) => AfterSuccess(row, in_.worker, messageId)
    case Dispatch =>
      if Confirmed(in_.reply) then AfterSuccess(row, in_.worker, in_.reply.messageId)
      else AfterFailure(row, in_.worker, in_.reply.retryable, now)
  }

  /** The outcome on its email record. */
  function RecordAfter(rec: EmailRecord, row: SendJob, ruling: Ruling, in_: Inputs): EmailRecord
  {
    var after := RowAfter(row, ruling, in_);
    if after.status.Sent? then
      rec.(status := EmailStatus.Sent, sentAt := Some(in_.clock.finish),
           messageId := if ruling.AlreadySent? then ruling.messageId else in_.reply.messageId)
    else if after.status.Failed? then rec.(status := EmailStatus.Failed)
    else rec
  }

  /** Settling writes row `k` and no other job. */
  lemma SettleJobs(db: Db, k: JobKey, ruling: Ruling, in_: Inputs)
    requires k in db.jobs
    requires ruling.Refused? && ruling.circuitBroken ==> k.campaign in db.campaigns
    ensures Settle(db, k, ruling, in_).jobs == db.jobs[k := RowAfter(db.jobs[k], ruling, in_)]
  {
    var now, jobs := in_.clock.finish, Settle(db, k, ruling, in_).jobs;
    match ruling
    case NoAccount => assert jobs == Fail(db, k, in_.worker, true, now).jobs;
    case Delayed(seconds) => assert jobs == Postpone(db, k, now + seconds * SECOND).jobs;
    case AlreadySent(messageId) => assert jobs == Complete(db, k, in_.worker, messageId, now).jobs;
    case Dispatch =>
      if Confirmed(in_.reply) {
        assert jobs == Complete(db, k, in_.worker, in_.reply.messageId, now).jobs;
      } else {
        assert jobs == Fail(db, k, in_.worker, in_.reply.retryable, now).jobs;
      }
    case _ => assert jobs == Fail(db, k, in_.worker, false, now).jobs;
  }

  /** And its record, and no other. */
  lemma SettleEmails(db: Db, k: JobKey, ruling: Ruling, in_: Inputs)
    requires k in db.jobs && k.email in db.emails
    requires ruling.Refused? && ruling.circuitBroken ==> k.campaign in db.campaigns
    ensures Settle(db, k, ruling, in_).emails == db.emails[k.email := RecordAfter(db.emails[k.email], db.jobs[k], ruling, in_)]
  {
  }

  // ---- The phases of an execution ---------------------------------------------------------

  /** After reaping: what the claim query sees. */
  function Seen(db: Db, in_: Inputs): Db
  {
    Reap(db, in_.clock.reap)
  }

  /** Both provider classes leave `retryable` at its default, false, on success
      (modules/email_sender/provider_interface.py). */
  predicate ProviderReply(reply: SendResult)
  {
    reply.success ==> !reply.retryable
  }

  /** The inputs are ones the database, the queries and the providers can produce. */
  predicate Possible(db: Db, in_: Inputs)
  {
    && Ordered(in_.clock)
    && ProviderReply(in_.reply) && (in_.reply.success ==> in_.taken)
    && IsPick(Seen(db, in_), in_.clock.claim, in_.locked, in_.pick)
    && (in_.pick.Some? ==> IsAccountChoice(db, in_.pick.value.org, in_.account))
  }

  /** After the claim. */
  function Held(db: Db, in_: Inputs): Db
    requires in_.pick.Some? && in_.pick.value in db.jobs
  {
    Claim(Seen(db, in_), in_.pick.value, in_.worker, in_.clock.claim, JOB_LEASE_SECONDS)
  }

  function RulingOf(cfg: Settings, db: Db, in_: Inputs): Ruling
    requires in_.pick.Some? && in_.pick.value in db.jobs
  {
    Rule(cfg, Held(db, in_), in_.pick.value, in_.account, in_.decrypts, in_.clock.policy)
  }

  /** The whole transaction: reap, claim, consult the policy, dispatch, persist. */
  function Execute(cfg: Settings, db: Db, in_: Inputs): Db
    requires in_.pick.Some? ==> in_.pick.value in db.jobs
  {
    if in_.pick.None? then Seen(db, in_)
    else
      var k := in_.pick.value;
      var held := Held(db, in_);
      Settle(Consulted(cfg, held, k, in_.account, in_.decrypts, in_.clock.policy), k, RulingOf(cfg, db, in_), in_)
  }

  /** The execution reaches `provider.send`. */
  predicate Dispatches(cfg: Settings, db: Db, in_: Inputs)
  {
    in_.pick.Some? && in_.pick.value in db.jobs && RulingOf(cfg, db, in_).Dispatch?
  }

  /** The provider is asked and takes the message, whatever it answers. */
  predicate Delivers(cfg: Settings, db: Db, in_: Inputs)
  {
    Dispatches(cfg, db, in_) && in_.taken
  }

  /** The execution records a send on its account. */
  predicate RecordsSend(cfg: Settings, db: Db, in_: Inputs)
  {
    Dispatches(cfg, db, in_) && Confirmed(in_.reply) && in_.account.Some? && in_.account.value in db.accounts
  }
}

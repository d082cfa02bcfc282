/** What every run keeps about one email record: it and its job move in lockstep, the audit
    rows determine the job, and provider successes are accounted for. */
module RecordHistory {
  import opened Text
  import opened Records
  import opened IdempotencyKey
  import opened JobRows
  import opened QueueSpec
  import opened PolicySpec
  import opened WorkerSpec
  import opened MaintenanceSpec
  import opened World

  /** The key of a record's only possible job. */
  function KeyOf(e: int, rec: EmailRecord): Option<JobKey>
  {
    if rec.campaign.Some? then Some(JobKey(rec.org, rec.campaign.value, rec.lead, e)) else None
  }

  /** Everything a world says about one record. */
  datatype View = View(
    rec: EmailRecord, job: Option<SendJob>, gone: Option<SendJob>,
    mail: Tally, postponed: nat, expired: nat)

  function Find<K, V>(m: map<K, V>, k: Option<K>): Option<V>
  {
    if k.Some? && k.value in m then Some(m[k.value]) else None
  }

  function CountAt(m: map<JobKey, nat>, k: Option<JobKey>): nat
  {
    if k.Some? then Count(m, k.value) else 0
  }

  function ViewOf(w: World, e: int): View
    requires e in w.db.emails
  {
    var rec := w.db.emails[e];
    var k := KeyOf(e, rec);
    View(rec, Find(w.db.jobs, k), Find(w.ledger.purged, k),
         TallyOf(w.ledger, e), CountAt(w.ledger.postponed, k), CountAt(w.ledger.expired, k))
  }

  /** The record's finished row, whether still stored or already purged. */
  predicate FinishedAs(v: View, status: JobStatus)
  {
    || (v.job.Some? && v.gone.None? && v.job.value.status == status)
    || (v.job.None? && v.gone.Some? && v.gone.value.status == status)
  }

  predicate Unfinished(v: View)
  {
    v.job.Some? && v.gone.None? && !Terminal(v.job.value)
  }

  /** Lockstep of record and job. */
  predicate Lockstep(v: View)
  {
    match v.rec.status
    case Pending => v.job.None? && v.gone.None?
    case Queued => Unfinished(v)
    case Sent => Truthy(v.rec.messageId) && FinishedAs(v, JobStatus.Sent)
    case Failed => FinishedAs(v, JobStatus.Failed)
    case Bounced => false
  }

  /** Success answers whose transaction was committed. */
  function Settled(v: View): int { v.mail.taken - v.mail.lost - v.mail.unanswered }

  function AuditRows(v: View): nat
  {
    if v.job.Some? then |v.job.value.attempts| else if v.gone.Some? then |v.gone.value.attempts| else 0
  }

  /** A success is committed once at most, and for SENT and FAILED records only; every committed
      request that was taken has an audit row. */
  predicate Deliveries(v: View)
  {
    && v.mail.unanswered + Settled(v) <= AuditRows(v)
    && Settled(v) == v.mail.nameless + (if v.rec.status.Sent? then 1 else 0)
    && v.mail.nameless <= (if v.rec.status.Failed? then 1 else 0)
  }

  predicate Audited(v: View)
  {
    && (v.job.Some? ==> AuditOk(v.job.value, v.postponed, v.expired))
    && (v.gone.Some? ==> AuditOk(v.gone.value, v.postponed, v.expired))
    && (v.job.None? && v.gone.None? ==> v.postponed == 0 && v.expired == 0)
    && (v.job.Some? ==> v.job.value.maxAttempts == DEFAULT_MAX_ATTEMPTS)
    && (v.gone.Some? ==> v.gone.value.maxAttempts == DEFAULT_MAX_ATTEMPTS)
  }

  predicate ViewOk(v: View)
  {
    Lockstep(v) && Deliveries(v) && Audited(v)
  }

  /** Every job, stored or purged, was created from its own record's ids. */
  predicate KeysOk(w: World)
  {
    && (forall k <- w.db.jobs :: k.email in w.db.emails && KeyOf(k.email, w.db.emails[k.email]) == Some(k))
    && (forall k <- w.ledger.purged :: k.email in w.db.emails && KeyOf(k.email, w.db.emails[k.email]) == Some(k))
  }

  /** Ledger entries belong to existing records. */
  predicate LedgerOk(w: World)
  {
    && w.ledger.mail.Keys <= w.db.emails.Keys
    && (forall k <- w.ledger.postponed :: k in w.db.jobs || k in w.ledger.purged)
    && (forall k <- w.ledger.expired :: k in w.db.jobs || k in w.ledger.purged)
  }

  /** Bookkeeping that ties jobs, ledger and records together. */
  predicate Linked(w: World)
  {
    KeysOk(w) && LedgerOk(w)
  }

  /** `P` holds of every record's view. */
  predicate Everywhere(w: World, P: View -> bool)
  {
    forall e <- w.db.emails :: P(ViewOf(w, e))
  }

  predicate Inv(w: World)
  {
    Linked(w) && Everywhere(w, ViewOk)
  }

  // ---- Local moves ------------------------------------------------------------------------

  function ReapView(v: View, now: int): View
  {
    if v.job.Some?
    then v.(job := Some(Reaped(v.job.value, now)), expired := v.expired + if Expired(v.job.value, now) then 1 else 0)
    else v
  }

  function ClaimView(v: View, worker: string, now: int): View
    requires v.job.Some?
  {
    v.(job := Some(AfterClaim(v.job.value, worker, now, JOB_LEASE_SECONDS)),
       expired := v.expired + if Expired(v.job.value, now) then 1 else 0)
  }

  function SettleView(v: View, ruling: Ruling, in_: Inputs): View
    requires v.job.Some?
  {
    v.(job := Some(RowAfter(v.job.value, ruling, in_)),
       rec := RecordAfter(v.rec, v.job.value, ruling, in_),
       postponed := v.postponed + (if ruling.Delayed? then 1 else 0),
       mail := if ruling.Dispatch? then Answered(v.mail, in_) else v.mail)
  }

  function PurgeView(v: View, now: int): View
  {
    if v.job.Some? && Purgeable(v.job.value, now) then v.(job := None, gone := v.job) else v
  }

  lemma ReapViewOk(v: View, now: int)
    requires ViewOk(v)
    ensures ViewOk(ReapView(v, now))
  {
    if v.job.Some? {
      ReapKeepsAudit(v.job.value, v.postponed, v.expired, now);
    }
  }

  lemma ClaimViewOk(v: View, worker: string, now: int)
    requires ViewOk(v) && v.job.Some? && Claimable(v.job.value, now)
    ensures ViewOk(ClaimView(v, worker, now)) && v.rec.status.Queued?
  {
    ClaimKeepsAudit(v.job.value, v.postponed, v.expired, worker, now, JOB_LEASE_SECONDS);
  }

  lemma PurgeViewOk(v: View, now: int)
    requires ViewOk(v)
    ensures ViewOk(PurgeView(v, now))
  {
  }

  lemma SettleAudited(v: View, ruling: Ruling, in_: Inputs)
    requires Audited(v) && v.job.Some? && v.gone.None? && v.job.value.status.Processing? && !ruling.AlreadySent?
    ensures Audited(SettleView(v, ruling, in_))
  {
    var row := v.job.value;
    var now := in_.clock.finish;
    if ruling.Delayed? {
      PostponementKeepsAudit(row, v.postponed, v.expired, now + ruling.seconds * SECOND);
    } else if ruling.Dispatch? && Confirmed(in_.reply) {
      SuccessKeepsAudit(row, v.postponed, v.expired, in_.worker, in_.reply.messageId);
    } else {
      var retryable := ruling.NoAccount? || (ruling.Dispatch? && in_.reply.retryable);
      FailureKeepsAudit(row, v.postponed, v.expired, in_.worker, retryable, now);
    }
  }

  lemma SettleViewOk(v: View, ruling: Ruling, in_: Inputs)
    requires ViewOk(v) && v.job.Some? && v.job.value.status.Processing?
    requires !ruling.AlreadySent? && ProviderReply(in_.reply) && (in_.reply.success ==> in_.taken)
    ensures ViewOk(SettleView(v, ruling, in_))
  {
    SettleAudited(v, ruling, in_);
  }

  // ---- One step, one record ---------------------------------------------------------------

  /** What a committed execution writes: the reaped rows with row `k` replaced, its record
      replaced, and the bookings. */
  predicate Writes(w: World, w': World, k: JobKey, reapedAt: int, row: SendJob, rec: EmailRecord,
                   mail: Tally, delayed: bool, lapsed: bool)
  {
    && w'.db.jobs == ReapedJobs(w.db.jobs, reapedAt)[k := row]
    && w'.db.emails == w.db.emails[k.email := rec]
    && w'.ledger.purged == w.ledger.purged
    && w'.ledger.mail == w.ledger.mail[k.email := mail]
    && w'.ledger.postponed == BumpIf(w.ledger.postponed, k, delayed)
    && w'.ledger.expired == BumpIf(CountReaped(w.db.jobs, w.ledger.expired, reapedAt), k, lapsed)
  }

  /** The claimed row of an execution. */
  function HeldRow(w: World, in_: Inputs): SendJob
    requires in_.pick.Some? && in_.pick.value in w.db.jobs
  {
    AfterClaim(Reaped(w.db.jobs[in_.pick.value], in_.clock.reap), in_.worker, in_.clock.claim, JOB_LEASE_SECONDS)
  }

  /** The tally of its record. */
  function MailAfter(w: World, in_: Inputs, ruling: Ruling): Tally
    requires in_.pick.Some?
  {
    var before := TallyOf(w.ledger, in_.pick.value.email);
    if ruling.Dispatch? then Answered(before, in_) else before
  }

  lemma ExecuteWrites(cfg: Settings, w: World, in_: Inputs)
    requires in_.pick.Some? && in_.pick.value in w.db.jobs && in_.pick.value.email in w.db.emails
    ensures var k := in_.pick.value;
            var ruling := RulingOf(cfg, w.db, in_);
            Writes(w, ExecuteWorld(cfg, w, in_), k, in_.clock.reap,
                   RowAfter(HeldRow(w, in_), ruling, in_), RecordAfter(w.db.emails[k.email], HeldRow(w, in_), ruling, in_),
                   MailAfter(w, in_, ruling), ruling.Delayed?,
                   Expired(Reaped(w.db.jobs[k], in_.clock.reap), in_.clock.claim))
  {
    var k := in_.pick.value;
    var held := Held(w.db, in_);
    var consulted := Consulted(cfg, held, k, in_.account, in_.decrypts, in_.clock.policy);
    SettleJobs(consulted, k, RulingOf(cfg, w.db, in_), in_);
    SettleEmails(consulted, k, RulingOf(cfg, w.db, in_), in_);
  }

  lemma OtherRow(jobs: map<JobKey, SendJob>, k: JobKey, t: int, row: SendJob, key: Option<JobKey>)
    requires k in jobs && key != Some(k)
    ensures var found := Find(jobs, key);
            Find(ReapedJobs(jobs, t)[k := row], key) == if found.Some? then Some(Reaped(found.value, t)) else None
  {
  }

  lemma OtherCounts(jobs: map<JobKey, SendJob>, l: Ledger, l': Ledger, k: JobKey, t: int, delayed: bool, lapsed: bool, key: Option<JobKey>)
    requires key != Some(k)
    requires l'.postponed == BumpIf(l.postponed, k, delayed)
    requires l'.expired == BumpIf(CountReaped(jobs, l.expired, t), k, lapsed)
    ensures CountAt(l'.postponed, key) == CountAt(l.postponed, key)
    ensures CountAt(l'.expired, key)
              == CountAt(l.expired, key) + if Find(jobs, key).Some? && Expired(Find(jobs, key).value, t) then 1 else 0
  {
  }

  lemma OtherView(w: World, w': World, k: JobKey, t: int, row: SendJob, rec: EmailRecord,
                  mail: Tally, delayed: bool, lapsed: bool, e: int)
    requires KeysOk(w) && e in w.db.emails && k in w.db.jobs && k.email != e
    requires Writes(w, w', k, t, row, rec, mail, delayed, lapsed)
    ensures e in w'.db.emails && ViewOf(w', e) == ReapView(ViewOf(w, e), t)
  {
    var key := KeyOf(e, w.db.emails[e]);
    assert w'.db.emails[e] == w.db.emails[e];
    assert key.Some? ==> key.value != k;
    OtherRow(w.db.jobs, k, t, row, key);
    OtherCounts(w.db.jobs, w.ledger, w'.ledger, k, t, delayed, lapsed, key);
  }

  lemma OwnView(w: World, w': World, k: JobKey, t: int, row: SendJob, rec: EmailRecord,
                mail: Tally, delayed: bool, lapsed: bool)
    requires KeysOk(w) && k in w.db.jobs
    requires KeyOf(k.email, rec) == Some(k)
    requires Writes(w, w', k, t, row, rec, mail, delayed, lapsed)
    ensures k.email in w'.db.emails
    ensures var seen := ReapView(ViewOf(w, k.email), t);
            && seen.job == Some(Reaped(w.db.jobs[k], t))
            && ViewOf(w', k.email) == seen.(job := Some(row), rec := rec,
                 mail := mail,
                 postponed := seen.postponed + (if delayed then 1 else 0),
                 expired := seen.expired + (if lapsed then 1 else 0))
  {
    assert KeyOf(k.email, w.db.emails[k.email]) == Some(k);
  }

  lemma WritesKeepKeys(w: World, w': World, k: JobKey, t: int, row: SendJob, rec: EmailRecord,
                       mail: Tally, delayed: bool, lapsed: bool)
    requires Linked(w) && k in w.db.jobs
    requires KeyOf(k.email, rec) == Some(k)
    requires Writes(w, w', k, t, row, rec, mail, delayed, lapsed)
    ensures Linked(w')
  {
  }

  // ---- One step, every record -------------------------------------------------------------

  lemma WritesEverywhere(P: View -> bool, w: World, w': World, k: JobKey, t: int, row: SendJob, rec: EmailRecord,
                         mail: Tally, delayed: bool, lapsed: bool)
    requires KeysOk(w) && k in w.db.jobs && KeyOf(k.email, rec) == Some(k)
    requires Writes(w, w', k, t, row, rec, mail, delayed, lapsed)
    requires forall e <- w.db.emails :: P(ReapView(ViewOf(w, e), t))
    requires k.email in w'.db.emails && P(ViewOf(w', k.email))
    ensures Everywhere(w', P)
  {
    forall e <- w'.db.emails | e != k.email
      ensures P(ViewOf(w', e))
    {
      OtherView(w, w', k, t, row, rec, mail, delayed, lapsed, e);
    }
  }

  /** `w'` has the rows of `w` reaped, the losses counted, and nothing else of interest changed. */
  predicate OnlyReaped(w: World, w': World, t: int)
  {
    && w'.db.jobs == ReapedJobs(w.db.jobs, t) && w'.db.emails == w.db.emails
    && w'.ledger.expired == CountReaped(w.db.jobs, w.ledger.expired, t)
    && w'.ledger.(expired := w.ledger.expired, accounts := w.ledger.accounts) == w.ledger
  }

  lemma ReapLinked(w: World, w': World, t: int)
    requires Linked(w) && OnlyReaped(w, w', t)
    ensures Linked(w')
  {
  }

  lemma ReapOneView(w: World, w': World, t: int, e: int)
    requires e in w.db.emails && OnlyReaped(w, w', t)
    ensures ViewOf(w', e) == ReapView(ViewOf(w, e), t)
  {
  }

  lemma ReapKeepsInv(w: World, w': World, t: int)
    requires Inv(w) && OnlyReaped(w, w', t)
    ensures Inv(w')
  {
    ReapLinked(w, w', t);
    ReapAndPurgeKeepViews(w, t);
    forall e <- w'.db.emails
      ensures ViewOk(ViewOf(w', e))
    {
      ReapOneView(w, w', t, e);
    }
  }

  predicate OnlyPurged(w: World, w': World, t: int)
  {
    && w'.db.jobs == w.db.jobs - PurgedKeys(w.db.jobs, t) && w'.db.emails == w.db.emails
    && w'.ledger == w.ledger.(purged := w.ledger.purged + PurgedRows(w.db.jobs, t))
  }

  lemma PurgeLinked(w: World, w': World, t: int)
    requires Linked(w) && OnlyPurged(w, w', t)
    ensures Linked(w')
  {
  }

  lemma PurgeOneView(w: World, w': World, t: int, e: int)
    requires e in w.db.emails && OnlyPurged(w, w', t)
    ensures ViewOf(w', e) == PurgeView(ViewOf(w, e), t)
  {
  }

  lemma PurgeKeepsInv(w: World, w': World, t: int)
    requires Inv(w) && OnlyPurged(w, w', t)
    ensures Inv(w')
  {
    PurgeLinked(w, w', t);
    ReapAndPurgeKeepViews(w, t);
    forall e <- w'.db.emails
      ensures ViewOk(ViewOf(w', e))
    {
      PurgeOneView(w, w', t, e);
    }
  }

  /** One record changes; the others keep their views. */
  lemma OneEverywhere(P: View -> bool, w: World, w': World, own: int)
    requires w'.db.emails.Keys == w.db.emails.Keys
    requires Everywhere(w, P)
    requires forall e <- w.db.emails :: e != own ==> ViewOf(w', e) == ViewOf(w, e)
    requires own in w.db.emails ==> P(ViewOf(w', own))
    ensures Everywhere(w', P)
  {
    forall e <- w'.db.emails
      ensures P(ViewOf(w', e))
    {
      assert P(ViewOf(w, e));
    }
  }

  lemma ReapAndPurgeKeepViews(w: World, t: int)
    requires Everywhere(w, ViewOk)
    ensures forall e <- w.db.emails :: ViewOk(ReapView(ViewOf(w, e), t))
    ensures forall e <- w.db.emails :: ViewOk(PurgeView(ViewOf(w, e), t))
  {
    forall e <- w.db.emails
      ensures ViewOk(ReapView(ViewOf(w, e), t)) && ViewOk(PurgeView(ViewOf(w, e), t))
    {
      assert ViewOk(ViewOf(w, e));
      ReapViewOk(ViewOf(w, e), t);
      PurgeViewOk(ViewOf(w, e), t);
    }
  }

  lemma NotAlreadySent(cfg: Settings, w: World, in_: Inputs)
    requires in_.pick.Some? && in_.pick.value in w.db.jobs && in_.pick.value.email in w.db.emails
    requires w.db.emails[in_.pick.value.email].status.Queued?
    ensures !RulingOf(cfg, w.db, in_).AlreadySent?
  {
  }

  lemma ViewAt(w: World, k: JobKey)
    requires Inv(w) && k in w.db.jobs
    ensures k.email in w.db.emails && KeyOf(k.email, w.db.emails[k.email]) == Some(k)
    ensures ViewOk(ViewOf(w, k.email)) && ViewOf(w, k.email).job == Some(w.db.jobs[k])
  {
  }

  lemma StoredIsNotPurged(w: World, k: JobKey)
    requires Inv(w) && k in w.db.jobs
    ensures k !in w.ledger.purged
  {
    assert KeyOf(k.email, w.db.emails[k.email]) == Some(k);
    assert Lockstep(ViewOf(w, k.email));
  }

  /** A claimable job's record is QUEUED, so the worker's "already transmitted" branch is
      never taken in a run: a rollback also loses the message id that branch looks for. */
  lemma ClaimedRecordIsQueued(w: World, k: JobKey, reapedAt: int, at: int)
    requires Inv(w) && k in w.db.jobs && Claimable(Reaped(w.db.jobs[k], reapedAt), at)
    ensures k.email in w.db.emails && w.db.emails[k.email].status.Queued?
  {
    ViewAt(w, k);
  }

  /** The view an execution leaves on the claimed job's record. */
  function OwnAfter(v: View, ruling: Ruling, in_: Inputs): View
    requires v.job.Some?
  {
    SettleView(ClaimView(ReapView(v, in_.clock.reap), in_.worker, in_.clock.claim), ruling, in_)
  }

  lemma OwnAfterOk(v: View, ruling: Ruling, in_: Inputs)
    requires ViewOk(v) && v.job.Some? && Claimable(Reaped(v.job.value, in_.clock.reap), in_.clock.claim)
    requires !ruling.AlreadySent? && ProviderReply(in_.reply) && (in_.reply.success ==> in_.taken)
    ensures ViewOk(OwnAfter(v, ruling, in_))
  {
    var seen := ReapView(v, in_.clock.reap);
    ReapViewOk(v, in_.clock.reap);
    ClaimViewOk(seen, in_.worker, in_.clock.claim);
    SettleViewOk(ClaimView(seen, in_.worker, in_.clock.claim), ruling, in_);
  }

  lemma ExecuteOwnView(cfg: Settings, w: World, in_: Inputs, w': World)
    requires KeysOk(w) && in_.pick.Some? && in_.pick.value in w.db.jobs
    requires w' == ExecuteWorld(cfg, w, in_)
    ensures in_.pick.value.email in w'.db.emails && ViewOf(w, in_.pick.value.email).job.Some?
    ensures ViewOf(w', in_.pick.value.email) == OwnAfter(ViewOf(w, in_.pick.value.email), RulingOf(cfg, w.db, in_), in_)
  {
    var k := in_.pick.value;
    var held, ruling := HeldRow(w, in_), RulingOf(cfg, w.db, in_);
    assert KeyOf(k.email, w.db.emails[k.email]) == Some(k);
    ExecuteWrites(cfg, w, in_);
    OwnView(w, w', k, in_.clock.reap, RowAfter(held, ruling, in_), RecordAfter(w.db.emails[k.email], held, ruling, in_),
            MailAfter(w, in_, ruling), ruling.Delayed?, Expired(Reaped(w.db.jobs[k], in_.clock.reap), in_.clock.claim));
  }

  lemma OneJobKeepsInv(w: World, w': World, k: JobKey, t: int, row: SendJob, rec: EmailRecord,
                       mail: Tally, delayed: bool, lapsed: bool)
    requires Linked(w) && k in w.db.jobs && KeyOf(k.email, rec) == Some(k)
    requires forall e <- w.db.emails :: ViewOk(ReapView(ViewOf(w, e), t))
    requires Writes(w, w', k, t, row, rec, mail, delayed, lapsed)
    requires k.email in w'.db.emails && ViewOk(ViewOf(w', k.email))
    ensures Inv(w')
  {
    WritesKeepKeys(w, w', k, t, row, rec, mail, delayed, lapsed);
    WritesEverywhere(ViewOk, w, w', k, t, row, rec, mail, delayed, lapsed);
  }

  lemma ExecuteKeepsInv(cfg: Settings, w: World, in_: Inputs, w': World)
    requires Inv(w) && Possible(w.db, in_) && w' == ExecuteWorld(cfg, w, in_)
    ensures Inv(w')
  {
    if in_.pick.None? {
      ReapKeepsInv(w, w', in_.clock.reap);
    } else {
      var k := in_.pick.value;
      ClaimedRecordIsQueued(w, k, in_.clock.reap, in_.clock.claim);
      ViewAt(w, k);
      var row, rec, mail, delayed, lapsed := ExecuteOutcome(cfg, w, in_, w');
      ReapAndPurgeKeepViews(w, in_.clock.reap);
      OneJobKeepsInv(w, w', k, in_.clock.reap, row, rec, mail, delayed, lapsed);
    }
  }

  lemma ExecuteOutcome(cfg: Settings, w: World, in_: Inputs, w': World)
    returns (row: SendJob, rec: EmailRecord, mail: Tally, delayed: bool, lapsed: bool)
    requires KeysOk(w) && in_.pick.Some? && in_.pick.value in w.db.jobs && w' == ExecuteWorld(cfg, w, in_)
    requires in_.pick.value.email in w.db.emails && w.db.emails[in_.pick.value.email].status.Queued?
    requires ViewOk(ViewOf(w, in_.pick.value.email)) && ViewOf(w, in_.pick.value.email).job == Some(w.db.jobs[in_.pick.value])
    requires Claimable(Reaped(w.db.jobs[in_.pick.value], in_.clock.reap), in_.clock.claim)
    requires ProviderReply(in_.reply) && (in_.reply.success ==> in_.taken)
    ensures Writes(w, w', in_.pick.value, in_.clock.reap, row, rec, mail, delayed, lapsed)
    ensures KeyOf(in_.pick.value.email, rec) == Some(in_.pick.value)
    ensures in_.pick.value.email in w'.db.emails && ViewOk(ViewOf(w', in_.pick.value.email))
  {
    var k := in_.pick.value;
    var held, ruling := HeldRow(w, in_), RulingOf(cfg, w.db, in_);
    row, rec := RowAfter(held, ruling, in_), RecordAfter(w.db.emails[k.email], held, ruling, in_);
    mail, delayed := MailAfter(w, in_, ruling), ruling.Delayed?;
    lapsed := Expired(Reaped(w.db.jobs[k], in_.clock.reap), in_.clock.claim);
    NotAlreadySent(cfg, w, in_);
    OwnAfterOk(ViewOf(w, k.email), ruling, in_);
    ExecuteOwnView(cfg, w, in_, w');
    ExecuteWrites(cfg, w, in_);
  }

  /** A lost transaction shows in the tally of its record only. */
  lemma KilledViews(w: World, in_: Inputs, asked: bool, e: int)
    requires e in w.db.emails
    ensures var v := ViewOf(w, e);
            ViewOf(KilledWorld(w, in_, asked), e) ==
              if asked && in_.pick.Some? && in_.pick.value.email == e then v.(mail := Forgotten(v.mail, in_)) else v
  {
  }

  lemma KilledKeepsInv(w: World, in_: Inputs, asked: bool)
    requires Inv(w) && (asked && in_.pick.Some? ==> in_.pick.value.email in w.db.emails)
    ensures Inv(KilledWorld(w, in_, asked))
  {
    var w' := KilledWorld(w, in_, asked);
    forall e <- w'.db.emails
      ensures ViewOk(ViewOf(w', e))
    {
      assert ViewOk(ViewOf(w, e));
      KilledViews(w, in_, asked, e);
    }
  }

  /** Only row `k` is rewritten, and only its lost leases are counted. */
  predicate OnlyClaimed(w: World, w': World, k: JobKey, row: SendJob, lapsed: bool)
  {
    && w'.db.jobs == w.db.jobs[k := row] && w'.db.emails == w.db.emails
    && w'.ledger == w.ledger.(expired := BumpIf(w.ledger.expired, k, lapsed))
  }

  lemma ClaimedLinked(w: World, w': World, k: JobKey, row: SendJob, lapsed: bool)
    requires Linked(w) && k in w.db.jobs && OnlyClaimed(w, w', k, row, lapsed)
    ensures Linked(w')
  {
  }

  lemma ClaimedViews(w: World, w': World, k: JobKey, row: SendJob, lapsed: bool)
    requires KeysOk(w) && k in w.db.jobs && OnlyClaimed(w, w', k, row, lapsed)
    ensures forall e <- w.db.emails :: e != k.email ==> ViewOf(w', e) == ViewOf(w, e)
    ensures k.email in w.db.emails
    ensures var v := ViewOf(w, k.email);
            ViewOf(w', k.email) == v.(job := Some(row), expired := v.expired + if lapsed then 1 else 0)
  {
    assert KeyOf(k.email, w.db.emails[k.email]) == Some(k);
  }

  lemma ClaimedKeepsInv(w: World, w': World, k: JobKey, row: SendJob, lapsed: bool)
    requires Inv(w) && k in w.db.jobs && OnlyClaimed(w, w', k, row, lapsed)
    requires k.email in w'.db.emails ==> ViewOk(ViewOf(w', k.email))
    ensures Inv(w')
  {
    ClaimedLinked(w, w', k, row, lapsed);
    ClaimedViews(w, w', k, row, lapsed);
    OneEverywhere(ViewOk, w, w', k.email);
  }

  lemma AbandonKeepsInv(w: World, worker: string, at: int, k: JobKey, w': World)
    requires Inv(w) && k in w.db.jobs && Claimable(w.db.jobs[k], at)
    requires w' == AbandonWorld(w, worker, at, k)
    ensures Inv(w')
  {
    ViewAt(w, k);
    var row, lapsed := AfterClaim(w.db.jobs[k], worker, at, JOB_LEASE_SECONDS), Expired(w.db.jobs[k], at);
    ClaimedViews(w, w', k, row, lapsed);
    ClaimViewOk(ViewOf(w, k.email), worker, at);
    assert ViewOf(w', k.email) == ClaimView(ViewOf(w, k.email), worker, at);
    ClaimedKeepsInv(w, w', k, row, lapsed);
  }

  lemma MaintainKeepsInv(w: World, memory: Memory, clock: PassClock)
    requires Inv(w)
    ensures Inv(MaintainWorld(w, memory, clock))
  {
    var w' := MaintainWorld(w, memory, clock);
    var mid := World(ResetRates(ReapAll(w.db, clock), memory, clock.reset), w'.ledger.(purged := w.ledger.purged), clock.reset);
    ReapKeepsInv(w, mid, clock.reap);
    PurgeKeepsInv(mid, w', clock.purge);
  }

  predicate OnlyEnqueued(w: World, w': World, k: JobKey, row: SendJob)
    requires k.email in w.db.emails
  {
    && w'.db.jobs == w.db.jobs[k := row]
    && w'.db.emails == w.db.emails[k.email := w.db.emails[k.email].(status := EmailStatus.Queued)]
    && w'.ledger == w.ledger
  }

  lemma EnqueuedLinked(w: World, w': World, k: JobKey, row: SendJob)
    requires Linked(w) && k.email in w.db.emails && KeyOf(k.email, w.db.emails[k.email]) == Some(k)
    requires OnlyEnqueued(w, w', k, row)
    ensures Linked(w') && w'.db.emails.Keys == w.db.emails.Keys
  {
  }

  lemma EnqueuedViews(w: World, w': World, k: JobKey, row: SendJob)
    requires k.email in w.db.emails && KeyOf(k.email, w.db.emails[k.email]) == Some(k)
    requires OnlyEnqueued(w, w', k, row)
    ensures forall e <- w.db.emails :: e != k.email ==> ViewOf(w', e) == ViewOf(w, e)
    ensures ViewOf(w', k.email) == ViewOf(w, k.email).(job := Some(row), rec := w'.db.emails[k.email])
  {
  }

  lemma EnqueueKeepsInv(w: World, k: JobKey, at: int, w': World)
    requires Inv(w) && k.email in w.db.emails && KeyOf(k.email, w.db.emails[k.email]) == Some(k)
    requires w.db.emails[k.email].status.Pending?
    requires w' == World(Enqueue(w.db, k, at, at, DEFAULT_MAX_ATTEMPTS), w.ledger, at)
    ensures k !in w.db.jobs && Inv(w')
  {
    assert ViewOk(ViewOf(w, k.email));
    NewJobAudit(k, at, at, DEFAULT_MAX_ATTEMPTS);
    EnqueuedLinked(w, w', k, NewJob(k, at, at, DEFAULT_MAX_ATTEMPTS));
    EnqueuedViews(w, w', k, NewJob(k, at, at, DEFAULT_MAX_ATTEMPTS));
    OneEverywhere(ViewOk, w, w', k.email);
  }

  lemma {:induction false} EnqueueAllKeepsInv(w: World, org: int, c: int, records: seq<int>, at: int)
    requires Inv(w)
    requires forall e <- records :: e in w.db.emails && PendingFor(w.db, org, c, e)
    requires forall i, j :: 0 <= i < j < |records| ==> records[i] != records[j]
    ensures Inv(EnqueueWorld(w, org, c, records, at))
    ensures forall e <- w.db.emails :: e !in records ==> EnqueueAll(w.db, org, c, records, at).emails[e] == w.db.emails[e]
  {
    if records == [] {
      OneEverywhere(ViewOk, w, EnqueueWorld(w, org, c, records, at), 0);
    } else {
      var last := |records| - 1;
      var e := records[last];
      EnqueueAllKeepsInv(w, org, c, records[..last], at);
      var before := EnqueueWorld(w, org, c, records[..last], at);
      assert e !in records[..last];
      assert before.db.emails[e] == w.db.emails[e];
      EnqueueKeepsInv(before, KeyFor(before.db, org, c, e), at, EnqueueWorld(w, org, c, records, at));
    }
  }

  lemma GeneratedLinked(w: World, step: Step)
    requires Linked(w) && step.Generate? && step.e !in w.db.emails && step.l in w.db.leads
    ensures Linked(Outside(w, step))
  {
  }

  lemma GeneratedView(w: World, step: Step)
    requires Linked(w) && step.Generate? && step.e !in w.db.emails && step.l in w.db.leads
    ensures var rec := EmailRecord(w.db.leads[step.l].org, step.l, step.campaign, EmailStatus.Pending, None, None);
            ViewOf(Outside(w, step), step.e) == View(rec, None, None, Tally(0, 0, 0, 0), 0, 0)
  {
  }

  lemma GeneratedKeepsInv(w: World, step: Step)
    requires Inv(w) && step.Generate? && step.e !in w.db.emails && step.l in w.db.leads
    ensures Inv(Outside(w, step))
  {
    var w' := Outside(w, step);
    GeneratedLinked(w, step);
    forall e <- w'.db.emails
      ensures ViewOk(ViewOf(w', e))
    {
      if e != step.e {
        assert ViewOf(w', e) == ViewOf(w, e) && ViewOk(ViewOf(w, e));
      } else {
        GeneratedView(w, step);
      }
    }
  }

  lemma OutsideKeepsInv(cfg: Settings, w: World, step: Step)
    requires Inv(w) && Enabled(cfg, w, step)
    requires step.Enrich? || step.Generate? || step.Reply? || step.Suppress? || step.CountBounce? || step.SetAccount?
    ensures Inv(Outside(w, step))
  {
    var w' := Outside(w, step);
    if step.Generate? {
      GeneratedKeepsInv(w, step);
    } else {
      OneEverywhere(ViewOk, w, w', 0);
    }
  }
}

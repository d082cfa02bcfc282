/** Who is never contacted again: entries of the suppression list are for ever, an opt-out kept
    in the lead's status lasts until the status is written again. */
module Suppression {
  import opened Text
  import opened Records
  import opened JobRows
  import opened QueueSpec
  import opened PolicySpec
  import opened WorkerSpec
  import opened World
  import opened CampaignRuns
  import SendRates

  predicate OptedOut(lead: Lead) { lead.status.Unsubscribed? || lead.status.Bounced? }

  predicate StatusBlocked(db: Db, l: int) { l in db.leads && OptedOut(db.leads[l]) }

  /** The organization's suppression list names the address of lead `l`. */
  predicate Listed(db: Db, org: int, l: int)
  {
    l in db.leads && (org, db.leads[l].email) in db.suppressed
  }

  /** The step asks a provider to contact lead `l`. */
  predicate Contacts(cfg: Settings, w: World, step: Step, l: int)
  {
    && (step.Execute? || (step.Killed? && step.asked))
    && Dispatches(cfg, w.db, step.in_) && step.in_.pick.value.lead == l
  }

  /** It does, for a campaign of `org`. */
  predicate ContactsFor(cfg: Settings, w: World, step: Step, org: int, l: int)
  {
    && Contacts(cfg, w, step, l)
    && step.in_.pick.value.campaign in w.db.campaigns && w.db.campaigns[step.in_.pick.value.campaign].org == org
  }

  /** Exactly when a job for a suppressed lead is dispatched: outside production, when the
      organization has no account at all to consult the gate about. */
  lemma BlockedContactIff(cfg: Settings, db: Db, in_: Inputs)
    requires Possible(db, in_) && in_.pick.Some? && RefsPresent(db, in_.pick.value)
    requires Suppressed(db, db.campaigns[in_.pick.value.campaign], db.leads[in_.pick.value.lead])
    ensures var rec := db.emails[in_.pick.value.email];
            Dispatches(cfg, db, in_) <==> !cfg.production && in_.account.None? && !(rec.status.Sent? && Truthy(rec.messageId))
  {
    var held := Held(db, in_);
    assert Suppressed(held, held.campaigns[in_.pick.value.campaign], held.leads[in_.pick.value.lead]);
  }

  // ---- The list ---------------------------------------------------------------------------

  /** No step changes a lead's address or takes an entry off the list. */
  lemma StepKeepsListed(cfg: Settings, w: World, step: Step, org: int, l: int)
    requires Enabled(cfg, w, step) && Listed(w.db, org, l)
    ensures Listed(Next(cfg, w, step).db, org, l)
  {
    match step
    case Execute(in_) =>
      if in_.pick.Some? {
        ExecuteLeadsAndCampaigns(cfg, w.db, in_);
      }
    case EnqueuePending(org', c, records, at) => SendRates.EnqueueAllAccounts(w.db, org', c, records, at);
    case _ =>
  }

  lemma ListedNotContacted(cfg: Settings, w: World, step: Step, org: int, l: int)
    requires cfg.production && Enabled(cfg, w, step) && Listed(w.db, org, l)
    ensures !ContactsFor(cfg, w, step, org, l)
  {
    if Contacts(cfg, w, step, l) {
      ProductionConsults(cfg, w.db, step.in_);
    }
  }

  predicate NeverContactsFor(cfg: Settings, w: World, steps: seq<Step>, org: int, l: int)
    requires Legal(cfg, w, steps)
  {
    steps == [] ||
    (NeverContactsFor(cfg, w, steps[..|steps| - 1], org, l)
     && !ContactsFor(cfg, After(cfg, w, steps[..|steps| - 1]), steps[|steps| - 1], org, l))
  }

  /** The list is for ever: once it names a lead's address, no step of any production run contacts
      the lead for that organization again, whatever enrichment, generation, replies, crashes
      and restarts do meanwhile. */
  lemma {:induction false} ListedIsForever(cfg: Settings, w: World, steps: seq<Step>, org: int, l: int)
    requires cfg.production && Listed(w.db, org, l) && Legal(cfg, w, steps)
    ensures NeverContactsFor(cfg, w, steps, org, l) && Listed(After(cfg, w, steps).db, org, l)
  {
    if steps != [] {
      var n := |steps| - 1;
      ListedIsForever(cfg, w, steps[..n], org, l);
      ListedNotContacted(cfg, After(cfg, w, steps[..n]), steps[n], org, l);
      StepKeepsListed(cfg, After(cfg, w, steps[..n]), steps[n], org, l);
    }
  }

  // ---- The status -------------------------------------------------------------------------

  /** The step writes the lead's status over, whatever it was: enrichment, generation, or a later
      reply that does not ask to unsubscribe. */
  predicate Rewrites(step: Step, l: int)
  {
    (step.Enrich? && step.l == l) || (step.Generate? && step.l == l) || (step.Reply? && step.l == l && step.status.Replied?)
  }

  lemma BlockedNotContacted(cfg: Settings, w: World, step: Step, l: int)
    requires cfg.production && Enabled(cfg, w, step) && StatusBlocked(w.db, l)
    ensures !Contacts(cfg, w, step, l)
  {
    if Contacts(cfg, w, step, l) {
      ProductionConsults(cfg, w.db, step.in_);
    }
  }

  lemma ExecuteKeepsBlocked(cfg: Settings, w: World, in_: Inputs, l: int)
    requires cfg.production && Possible(w.db, in_) && StatusBlocked(w.db, l)
    ensures StatusBlocked(ExecuteWorld(cfg, w, in_).db, l)
  {
    if in_.pick.Some? {
      ExecuteLeadsAndCampaigns(cfg, w.db, in_);
      if Succeeds(RulingOf(cfg, w.db, in_), in_) {
        ProductionConsults(cfg, w.db, in_);
      }
    }
  }

  /** A step lifts the opt-out exactly if it writes the status over. */
  lemma StepLiftsIff(cfg: Settings, w: World, step: Step, l: int)
    requires cfg.production && Enabled(cfg, w, step) && StatusBlocked(w.db, l)
    ensures StatusBlocked(Next(cfg, w, step).db, l) <==> !Rewrites(step, l)
  {
    match step
    case Execute(in_) => ExecuteKeepsBlocked(cfg, w, in_, l);
    case EnqueuePending(org, c, records, at) => SendRates.EnqueueAllAccounts(w.db, org, c, records, at);
    case _ =>
  }

  /** The lead is opted out at every point of the run. */
  predicate StaysBlocked(cfg: Settings, w: World, steps: seq<Step>, l: int)
    requires Legal(cfg, w, steps)
  {
    StatusBlocked(After(cfg, w, steps).db, l) && (steps == [] || StaysBlocked(cfg, w, steps[..|steps| - 1], l))
  }

  predicate NeverContacts(cfg: Settings, w: World, steps: seq<Step>, l: int)
    requires Legal(cfg, w, steps)
  {
    steps == [] ||
    (NeverContacts(cfg, w, steps[..|steps| - 1], l)
     && !Contacts(cfg, After(cfg, w, steps[..|steps| - 1]), steps[|steps| - 1], l))
  }

  lemma {:induction false} StaysBlockedIff(cfg: Settings, w: World, steps: seq<Step>, l: int)
    requires cfg.production && StatusBlocked(w.db, l) && Legal(cfg, w, steps)
    ensures StaysBlocked(cfg, w, steps, l) <==> forall i :: 0 <= i < |steps| ==> !Rewrites(steps[i], l)
  {
    if steps != [] {
      var n := |steps| - 1;
      StaysBlockedIff(cfg, w, steps[..n], l);
      assert forall i :: 0 <= i < n ==> steps[i] == steps[..n][i];
      if StaysBlocked(cfg, w, steps[..n], l) {
        StepLiftsIff(cfg, After(cfg, w, steps[..n]), steps[n], l);
      }
    }
  }

  lemma {:induction false} BlockedIsNotContacted(cfg: Settings, w: World, steps: seq<Step>, l: int)
    requires cfg.production && Legal(cfg, w, steps) && StaysBlocked(cfg, w, steps, l)
    ensures NeverContacts(cfg, w, steps, l)
  {
    if steps != [] {
      var n := |steps| - 1;
      BlockedIsNotContacted(cfg, w, steps[..n], l);
      BlockedNotContacted(cfg, After(cfg, w, steps[..n]), steps[n], l);
    }
  }

  /** An opt-out in the lead's status survives a production run exactly when no enrichment,
      generation or later reply writes that lead, and while it does nobody contacts the lead. */
  lemma OptOutSurvivesIff(cfg: Settings, w: World, steps: seq<Step>, l: int)
    requires cfg.production && StatusBlocked(w.db, l) && Legal(cfg, w, steps)
    ensures StaysBlocked(cfg, w, steps, l) <==> forall i :: 0 <= i < |steps| ==> !Rewrites(steps[i], l)
    ensures StaysBlocked(cfg, w, steps, l) ==> NeverContacts(cfg, w, steps, l)
  {
    StaysBlockedIff(cfg, w, steps, l);
    if StaysBlocked(cfg, w, steps, l) {
      BlockedIsNotContacted(cfg, w, steps, l);
    }
  }

  /** Every rule of the gate but the lead's own status lets the message through. */
  predicate OtherwiseOpen(cfg: Settings, db: Db, in_: Inputs)
    requires in_.pick.Some? && RefsPresent(db, in_.pick.value)
  {
    var k := in_.pick.value;
    && Usable(db, in_.account) && in_.decrypts
    && (db.campaigns[k.campaign].org, db.leads[k.lead].email) !in db.suppressed
    && !BreakerTrips(cfg, db.campaigns[k.campaign])
    && Limits(cfg, Rolled(db.accounts[in_.account.value], in_.clock.policy), db.campaigns[k.campaign], in_.clock.policy).Allowed?
    && !(db.emails[k.email].status.Sent? && Truthy(db.emails[k.email].messageId))
  }

  /** One enrichment of an opted-out lead is enough: the execution that was refused before it is
      dispatched after it exactly when every other rule is satisfied. */
  lemma EnrichReopensIff(cfg: Settings, db: Db, in_: Inputs)
    requires cfg.production && Possible(db, in_) && in_.pick.Some? && RefsPresent(db, in_.pick.value)
    requires StatusBlocked(db, in_.pick.value.lead)
    ensures !Dispatches(cfg, db, in_)
    ensures var after := EnrichLead(db, in_.pick.value.lead);
            Possible(after, in_) && (Dispatches(cfg, after, in_) <==> OtherwiseOpen(cfg, db, in_))
  {
    var after := EnrichLead(db, in_.pick.value.lead);
    if Dispatches(cfg, db, in_) {
      ProductionConsults(cfg, db, in_);
    }
    assert Seen(after, in_).jobs == Seen(db, in_).jobs;
    assert forall k :: Eligible(Seen(after, in_), k, in_.clock.claim) <==> Eligible(Seen(db, in_), k, in_.clock.claim);
  }
}

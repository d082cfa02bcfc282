/** modules/lead_enrichment/enricher.py: what enriching a lead does to the lead's status, whatever
    the pipeline finds. The worker and the API call it alike. */
module LeadEnricher {
  import opened Text
  import opened Records
  import opened QueueSpec
  import opened Store

  /** What the pipeline makes of a lead: a verdict, or an exception. */
  datatype Enrichment = Verdict(success: bool) | Raised

  /** The verdict returned: false for a lead that does not exist. */
  function Result(db: Db, l: int, finds: Enrichment): Enrichment
  {
    if l in db.leads then finds else Verdict(false)
  }

  /** The database after the enricher's transaction. */
  function AfterEnriching(db: Db, l: int, finds: Enrichment): Db
  {
    if finds.Verdict? then EnrichLead(db, l) else db
  }

  class LeadEnricher {
    constructor ()
    {
    }

    /** One transaction: the lead becomes ENRICHING and then ENRICHED, with a good verdict or a bad
        one; an exception rolls both back. The previous status is not looked at. */
    method EnrichLead(database: Database, l: int, finds: Enrichment) returns (outcome: Enrichment)
      modifies database
      ensures outcome == Result(old(database.committed), l, finds)
      ensures database.committed == AfterEnriching(old(database.committed), l, finds)
    {
      var session := database.Begin();
      if l !in session.leads {
        return Verdict(false);
      }
      session.leads := session.leads[l := session.leads[l].(status := LeadStatus.Enriching)];
      if finds.Raised? {
        return Raised;
      }
      session.leads := session.leads[l := session.leads[l].(status := LeadStatus.Enriched)];
      database.Commit(session);
      outcome := finds;
    }
  }
}

/** modules/ai_engine/generator.py: what generating an email does to the tables. */
module EmailGenerator {
  import opened Text
  import opened Records
  import opened QueueSpec
  import opened Store

  class EmailGenerator {
    constructor ()
    {
    }

    /** One transaction. `e` is the id the database gives to the new record, `written` whether the
        language model produced a text. A lead that has unsubscribed is not skipped. */
    method GenerateEmailForLead(database: Database, e: int, l: int, campaign: Option<int>, written: bool) returns (generated: bool)
      requires e !in database.committed.emails
      modifies database
      ensures generated == (l in old(database.committed).leads && written
                            && old(database.committed).leads[l].status !in {LeadStatus.Emailed, LeadStatus.Replied, LeadStatus.Bounced})
      ensures database.committed == if generated then GenerateEmail(old(database.committed), e, l, campaign) else old(database.committed)
    {
      var session := database.Begin();
      if l !in session.leads {
        return false;
      }
      var lead := session.leads[l];
      if lead.status.Emailed? || lead.status.Replied? || lead.status.Bounced? {
        return false;
      }
      if !written {
        return false;
      }
      session.emails := session.emails[e := EmailRecord(lead.org, l, campaign, EmailStatus.Pending, None, None)];
      session.leads := session.leads[l := lead.(status := LeadStatus.EmailGenerated)];
      database.Commit(session);
      generated := true;
    }
  }
}

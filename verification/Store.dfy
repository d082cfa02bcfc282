/** Sessions and the committed database (database/database.py). A session works on its own
    copy of the rows until it commits; `get_session` rolls back when its body fails. */
module Store {
  import opened Text
  import opened Records

  class Session {
    var jobs: map<JobKey, SendJob>
    var emails: map<int, EmailRecord>
    var leads: map<int, Lead>
    var campaigns: map<int, Campaign>
    var accounts: map<int, Account>
    var suppressed: set<(int, string)>
    var enrichment: map<int, EnrichmentJob>

    constructor (db: Db)
      ensures Rows() == db
    {
      jobs, emails, leads, campaigns := db.jobs, db.emails, db.leads, db.campaigns;
      accounts, suppressed, enrichment := db.accounts, db.suppressed, db.enrichment;
    }

    function Rows(): Db
      reads this
    {
      Db(jobs, emails, leads, campaigns, accounts, suppressed, enrichment)
    }
  }

  class Database {
    var committed: Db

    constructor (db: Db)
      ensures committed == db
    {
      committed := db;
    }

    method Begin() returns (session: Session)
      ensures fresh(session) && session.Rows() == committed
    {
      session := new Session(committed);
    }

    /** Commits a session that wrote enrichment rows only; other transactions may have committed
        since it began. */
    method CommitEnrichment(session: Session)
      modifies this
      ensures committed == old(committed).(enrichment := session.enrichment)
    {
      committed := committed.(enrichment := session.enrichment);
    }

    method Commit(session: Session)
      modifies this
      ensures committed == session.Rows()
    {
      committed := session.Rows();
    }
  }
}

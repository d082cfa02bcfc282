/** api/routes.py: starting and pausing a campaign, as the caller's organization. */
module CampaignRoutes {
  import opened Text
  import opened Records
  import opened QueueSpec
  import opened Store
  import opened DurableQueue

  datatype Response = NotFound | Started(jobsEnqueued: nat) | PausedNow

  class CampaignRoutes {
    /** Two commits: first the campaign becomes ACTIVE, then a job is created for each of its
        PENDING records. `records` is the order in which the query returned them. */
    method StartCampaign(database: Database, org: int, c: int, enqueuedAt: int) returns (response: Response, ghost records: seq<int>)
      requires TextsOk(database.committed)
      modifies database
      ensures response.NotFound? <==> !OwnsCampaign(old(database.committed), org, c)
      ensures response.NotFound? ==> database.committed == old(database.committed)
      ensures !response.NotFound? ==>
                var active := SetCampaign(old(database.committed), c, CampaignStatus.Active);
                && ListsPending(active, org, c, records) && response == Started(|records|)
                && database.committed == EnqueueAll(active, org, c, records, enqueuedAt)
      ensures TextsOk(database.committed)
    {
      records := [];
      var session := database.Begin();
      if c !in session.campaigns || session.campaigns[c].org != org {
        return NotFound, records;
      }
      session.campaigns := session.campaigns[c := session.campaigns[c].(status := CampaignStatus.Active)];
      database.Commit(session);
      var count;
      count, records := EnqueuePending(session, org, c, enqueuedAt);
      database.Commit(session);
      response := Started(count);
    }

    /** The pending-records query: its result list. */
    method QueryPending(session: Session, org: int, c: int) returns (records: seq<int>)
      ensures ListsPending(session.Rows(), org, c, records)
      ensures forall e <- records :: e in session.emails
    {
      var pending := set e | e in session.emails && session.emails[e].org == org
                             && session.emails[e].campaign == Some(c) && session.emails[e].status.Pending?;
      var todo := pending;
      records := [];
      while todo != {}
        invariant todo <= pending
        invariant forall e <- records :: e in pending && e !in todo
        invariant forall e <- pending :: e in todo || e in records
        invariant forall i, j :: 0 <= i < j < |records| ==> records[i] != records[j]
      {
        EmptyOrInhabited(todo);
        var e :| e in todo;
        todo := todo - {e};
        records := records + [e];
      }
    }

    /** The enqueue loop of `start_campaign`. */
    method EnqueuePending(session: Session, org: int, c: int, now: int) returns (count: nat, records: seq<int>)
      requires TextsOk(session.Rows())
      modifies session
      ensures ListsPending(old(session.Rows()), org, c, records) && count == |records|
      ensures session.Rows() == EnqueueAll(old(session.Rows()), org, c, records, now)
      ensures TextsOk(session.Rows())
    {
      records := QueryPending(session, org, c);
      EnqueueEach(session, org, c, records, now);
      count := |records|;
    }

    method EnqueueEach(session: Session, org: int, c: int, records: seq<int>, now: int)
      requires TextsOk(session.Rows()) && forall e <- records :: e in session.emails
      modifies session
      ensures session.Rows() == EnqueueAll(old(session.Rows()), org, c, records, now)
      ensures TextsOk(session.Rows())
    {
      var queue := new DurableQueue("api");
      ghost var start := session.Rows();
      var i := 0;
      while i < |records|
        invariant i <= |records| && forall e <- records[..i] :: e in start.emails
        invariant session.Rows() == EnqueueAll(start, org, c, records[..i], now)
        invariant session.emails.Keys == start.emails.Keys && TextsOk(session.Rows())
      {
        assert records[i] in records && records[..i + 1][..i] == records[..i];
        var e := records[i];
        var k := queue.EnqueueSendJob(session, org, c, session.emails[e].lead, e, None, DEFAULT_MAX_ATTEMPTS, now);
        i := i + 1;
      }
      assert records[..i] == records;
    }

    method PauseCampaign(database: Database, org: int, c: int) returns (response: Response)
      modifies database
      ensures response == if OwnsCampaign(old(database.committed), org, c) then PausedNow else NotFound
      ensures database.committed == if OwnsCampaign(old(database.committed), org, c)
                                    then SetCampaign(old(database.committed), c, CampaignStatus.Paused)
                                    else old(database.committed)
    {
      var session := database.Begin();
      if c !in session.campaigns || session.campaigns[c].org != org {
        return NotFound;
      }
      session.campaigns := session.campaigns[c := session.campaigns[c].(status := CampaignStatus.Paused)];
      database.Commit(session);
      response := PausedNow;
    }
  }
}

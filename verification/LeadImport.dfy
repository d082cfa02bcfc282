/** The lead table as the import sees it: a loop whose queries see committed rows only, an insert
    of everything it collected, and the constraints checked when the session commits. */
module LeadImport {
  import opened Text
  import opened LeadValidator

  datatype LeadRecord = LeadRecord(
    org: int, firstName: string, lastName: string, email: string, companyName: string,
    website: Option<string>, industry: Option<string>, source: string, campaign: Option<int>)

  /** The columns of an import that are the same for every lead. */
  datatype Target = Target(org: int, campaign: Option<int>, source: string)

  function RecordOf(lead: LeadRow, to: Target): LeadRecord
  {
    LeadRecord(to.org, lead.firstName, lead.lastName, lead.email, lead.companyName,
               lead.website, lead.industry, to.source, to.campaign)
  }

  predicate Holds(rows: seq<LeadRecord>, org: int, email: string)
  {
    exists i :: 0 <= i < |rows| && rows[i].org == org && rows[i].email == email
  }

  /** `uq_org_lead_email` */
  predicate Unique(rows: seq<LeadRecord>)
  {
    forall i, j :: 0 <= i < j < |rows| ==> rows[i].org != rows[j].org || rows[i].email != rows[j].email
  }

  function Width(text: Option<string>): nat { if text.Some? then |text.value| else 0 }

  /** The row fits the widths of the table's columns. */
  predicate Fits(row: LeadRecord)
  {
    && |row.firstName| <= 100 && |row.lastName| <= 100 && |row.email| <= 255 && |row.companyName| <= 255
    && Width(row.website) <= 500 && Width(row.industry) <= 200 && |row.source| <= 50
  }

  predicate AllFit(rows: seq<LeadRecord>)
  {
    forall i :: 0 <= i < |rows| ==> Fits(rows[i])
  }

  /** The rows the loop adds to its session for the first `n` leads. Its queries run against
      `table`: what it has added itself is invisible to them. */
  function Added(table: seq<LeadRecord>, leads: seq<LeadRow>, to: Target, n: nat): seq<LeadRecord>
    requires n <= |leads|
  {
    if n == 0 then []
    else Added(table, leads, to, n - 1)
         + if Holds(table, to.org, leads[n - 1].email) then [] else [RecordOf(leads[n - 1], to)]
  }

  function AllAdded(table: seq<LeadRecord>, leads: seq<LeadRow>, to: Target): seq<LeadRecord>
  {
    Added(table, leads, to, |leads|)
  }

  /** The commit is accepted. */
  predicate Accepted(table: seq<LeadRecord>, leads: seq<LeadRow>, to: Target)
  {
    Unique(table + AllAdded(table, leads, to)) && AllFit(AllAdded(table, leads, to))
  }

  function TableAfter(table: seq<LeadRecord>, leads: seq<LeadRow>, to: Target): seq<LeadRecord>
  {
    if Accepted(table, leads, to) then table + AllAdded(table, leads, to) else table
  }

  // ---- What the loop adds -----------------------------------------------------------------

  /** Every added row is the record of a lead whose address the table does not hold, in the
      order of the leads. `from` says which lead each row comes from. */
  lemma {:induction false} AddedRows(table: seq<LeadRecord>, leads: seq<LeadRow>, to: Target, n: nat) returns (from: seq<nat>)
    requires n <= |leads|
    ensures var added := Added(table, leads, to, n);
            && |from| == |added|
            && (forall a :: 0 <= a < |from| ==> from[a] < n && added[a] == RecordOf(leads[from[a]], to)
                                                && !Holds(table, to.org, leads[from[a]].email))
            && (forall a, b :: 0 <= a < b < |from| ==> from[a] < from[b])
            && (forall i :: 0 <= i < n && !Holds(table, to.org, leads[i].email) ==> i in from)
  {
    if n == 0 {
      from := [];
    } else {
      from := AddedRows(table, leads, to, n - 1);
      if !Holds(table, to.org, leads[n - 1].email) {
        from := from + [n - 1];
      }
    }
  }

  /** Each lead the table did not hold is in it after an accepted import, as it stands, under the
      organization, campaign and source of the import. */
  lemma NewLeadIsStored(table: seq<LeadRecord>, leads: seq<LeadRow>, to: Target, i: nat) returns (r: LeadRecord)
    requires i < |leads| && Accepted(table, leads, to)
    requires forall row <- table :: row.org == to.org ==> row.email != leads[i].email
    ensures r in TableAfter(table, leads, to)
    ensures r.org == to.org && r.campaign == to.campaign && r.source == to.source
    ensures r.firstName == leads[i].firstName && r.lastName == leads[i].lastName && r.email == leads[i].email
    ensures r.companyName == leads[i].companyName && r.website == leads[i].website && r.industry == leads[i].industry
  {
    var from := AddedRows(table, leads, to, |leads|);
    assert !Holds(table, to.org, leads[i].email);
    assert i in from;
    var a :| 0 <= a < |from| && from[a] == i;
    r := AllAdded(table, leads, to)[a];
    assert (table + AllAdded(table, leads, to))[|table| + a] == r;
  }

  /** And a lead it held already stays as it was, whatever the import says about it. */
  lemma HeldLeadIsKept(table: seq<LeadRecord>, leads: seq<LeadRow>, to: Target, held: LeadRecord)
    requires held in table && held.org == to.org
    ensures held in TableAfter(table, leads, to)
    ensures forall a :: |table| <= a < |TableAfter(table, leads, to)| ==> TableAfter(table, leads, to)[a].email != held.email
  {
    var from := AddedRows(table, leads, to, |leads|);
    var k :| 0 <= k < |table| && table[k] == held;
    assert TableAfter(table, leads, to)[k] == held;
    assert Holds(table, to.org, held.email);
    forall a | |table| <= a < |TableAfter(table, leads, to)|
      ensures TableAfter(table, leads, to)[a].email != held.email
    {
      assert TableAfter(table, leads, to)[a] == AllAdded(table, leads, to)[a - |table|];
    }
  }

  /** No two leads the table does not hold share an address. */
  predicate NewAddressesDiffer(table: seq<LeadRecord>, leads: seq<LeadRow>, org: int)
  {
    forall i, j :: 0 <= i < j < |leads| && !Holds(table, org, leads[i].email) ==> leads[i].email != leads[j].email
  }

  lemma AddedUnique(table: seq<LeadRecord>, leads: seq<LeadRow>, to: Target)
    requires Unique(table) && NewAddressesDiffer(table, leads, to.org)
    ensures Unique(table + AllAdded(table, leads, to))
  {
    var added := AllAdded(table, leads, to);
    var from := AddedRows(table, leads, to, |leads|);
    var rows := table + added;
    forall i, j | 0 <= i < j < |rows|
      ensures rows[i].org != rows[j].org || rows[i].email != rows[j].email
    {
      if j >= |table| {
        var b := j - |table|;
        assert rows[j] == added[b] && !Holds(table, to.org, leads[from[b]].email);
        if i >= |table| {
          var a := i - |table|;
          assert rows[i] == added[a] && from[a] < from[b];
        }
      }
    }
  }

  lemma RepeatClashes(table: seq<LeadRecord>, leads: seq<LeadRow>, to: Target, i: nat, j: nat)
    requires i < j < |leads| && leads[i].email == leads[j].email && !Holds(table, to.org, leads[i].email)
    ensures !Unique(table + AllAdded(table, leads, to))
  {
    var added := AllAdded(table, leads, to);
    var from := AddedRows(table, leads, to, |leads|);
    assert i in from && j in from;
    var a :| 0 <= a < |from| && from[a] == i;
    var b :| 0 <= b < |from| && from[b] == j;
    var rows := table + added;
    assert rows[|table| + a] == RecordOf(leads[i], to) && rows[|table| + b] == RecordOf(leads[j], to);
  }

  /** The loop, blind to its own inserts, keeps (organization, email) unique exactly when the
      addresses that are new to the organization differ from one another. */
  lemma BlindLoopSafeIff(table: seq<LeadRecord>, leads: seq<LeadRow>, to: Target)
    requires Unique(table)
    ensures Unique(table + AllAdded(table, leads, to)) <==> NewAddressesDiffer(table, leads, to.org)
  {
    if NewAddressesDiffer(table, leads, to.org) {
      AddedUnique(table, leads, to);
    } else {
      var i, j :| 0 <= i < j < |leads| && !Holds(table, to.org, leads[i].email) && leads[i].email == leads[j].email;
      RepeatClashes(table, leads, to, i, j);
    }
  }

  /** Fed by the validator, an import is refused only for a value too wide for its column. */
  lemma ValidatedImportAccepted(table: seq<LeadRecord>, rules: Rules, batch: seq<LeadRow>, to: Target)
    requires Unique(table)
    ensures Accepted(table, Valid(rules, batch), to) <==> AllFit(AllAdded(table, Valid(rules, batch), to))
  {
    ValidDistinct(rules, batch);
    AddedUnique(table, Valid(rules, batch), to);
  }

  function Skipped(table: seq<LeadRecord>, leads: seq<LeadRow>, org: int, n: nat): nat
    requires n <= |leads|
  {
    if n == 0 then 0
    else Skipped(table, leads, org, n - 1) + if Holds(table, org, leads[n - 1].email) then 1 else 0
  }

  /** imported + newly counted duplicates = valid. */
  lemma {:induction false} ImportedPlusSkipped(table: seq<LeadRecord>, leads: seq<LeadRow>, to: Target, n: nat)
    requires n <= |leads|
    ensures |Added(table, leads, to, n)| + Skipped(table, leads, to.org, n) == n
  {
    if n > 0 {
      ImportedPlusSkipped(table, leads, to, n - 1);
    }
  }

  lemma {:induction false} NothingNew(table: seq<LeadRecord>, leads: seq<LeadRow>, to: Target, n: nat)
    requires n <= |leads| && forall i :: 0 <= i < n ==> Holds(table, to.org, leads[i].email)
    ensures Added(table, leads, to, n) == []
  {
    if n > 0 {
      NothingNew(table, leads, to, n - 1);
    }
  }

  /** After an accepted import the organization holds every address of the batch. */
  lemma ImportHolds(table: seq<LeadRecord>, leads: seq<LeadRow>, to: Target, i: nat)
    requires i < |leads| && Accepted(table, leads, to)
    ensures Holds(TableAfter(table, leads, to), to.org, leads[i].email)
  {
    var added := AllAdded(table, leads, to);
    var rows := table + added;
    if Holds(table, to.org, leads[i].email) {
      var k :| 0 <= k < |table| && table[k].org == to.org && table[k].email == leads[i].email;
      assert rows[k] == table[k];
    } else {
      var from := AddedRows(table, leads, to, |leads|);
      assert i in from;
      var a :| 0 <= a < |from| && from[a] == i;
      assert rows[|table| + a] == RecordOf(leads[i], to);
    }
  }

  /** Importing the same leads again, for any campaign of the organization, adds nothing once
      they are in: the table stays as it is. */
  lemma ReimportAddsNothing(table: seq<LeadRecord>, leads: seq<LeadRow>, to: Target, again: Target)
    requires Accepted(table, leads, to) && again.org == to.org
    ensures var after := TableAfter(table, leads, to);
            AllAdded(after, leads, again) == [] && TableAfter(after, leads, again) == after
  {
    var after := TableAfter(table, leads, to);
    forall i | 0 <= i < |leads|
      ensures Holds(after, to.org, leads[i].email)
    {
      ImportHolds(table, leads, to, i);
    }
    NothingNew(after, leads, again, |leads|);
    assert after + [] == after;
  }

  // ---- Runs of imports --------------------------------------------------------------------

  datatype Import = Import(leads: seq<LeadRow>, to: Target)

  /** The table after a series of imports, accepted or refused. */
  function AfterImports(table: seq<LeadRecord>, imports: seq<Import>): seq<LeadRecord>
    decreases |imports|
  {
    if imports == [] then table
    else AfterImports(TableAfter(table, imports[0].leads, imports[0].to), imports[1..])
  }

  /** Whatever is imported, in whatever order and for whichever organizations: the constraint is
      kept, and every row once stored stays where and as it is. */
  lemma {:induction false} ImportsKeepRows(table: seq<LeadRecord>, imports: seq<Import>)
    requires Unique(table)
    ensures Unique(AfterImports(table, imports)) && table <= AfterImports(table, imports)
    decreases |imports|
  {
    if imports != [] {
      var next := TableAfter(table, imports[0].leads, imports[0].to);
      ImportsKeepRows(next, imports[1..]);
      assert table <= next;
    }
  }

  /** An import of leads the organization already holds has no effect at any later time either. */
  lemma LateReimportAddsNothing(table: seq<LeadRecord>, leads: seq<LeadRow>, to: Target, between: seq<Import>, again: Target)
    requires Unique(table) && Accepted(table, leads, to) && again.org == to.org
    ensures var later := AfterImports(TableAfter(table, leads, to), between);
            TableAfter(later, leads, again) == later
  {
    var after := TableAfter(table, leads, to);
    var later := AfterImports(after, between);
    ImportsKeepRows(after, between);
    forall i | 0 <= i < |leads|
      ensures Holds(later, to.org, leads[i].email)
    {
      ImportHolds(table, leads, to, i);
      var k :| 0 <= k < |after| && after[k].org == to.org && after[k].email == leads[i].email;
      assert later[k] == after[k];
    }
    NothingNew(later, leads, again, |leads|);
    assert later + [] == later;
  }
}

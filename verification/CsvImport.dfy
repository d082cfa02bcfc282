/** modules/lead_ingestion/csv_handler.py, the working parts: mapping the header row, reading the
    rows, validating them as one batch, and inserting the valid leads in one session. */
module CsvImport {
  import opened Text
  import opened TextCase
  import opened Batches
  import opened LeadValidator
  import opened BatchValidator
  import opened CsvColumns
  import opened LeadImport

  datatype Parsed =
    | Empty
    | MissingColumns(fields: seq<Field>)
    | Batch(leads: seq<LeadRow>, rejected: seq<Rejection>, stats: Stats)

  datatype Outcome = NothingToImport(parsed: Parsed) | Imported(count: nat, stats: Stats) | RolledBack

  function Missing(cases: Cases, headers: seq<string>, fields: seq<Field>): seq<Field>
  {
    if fields == [] then []
    else Lacking(cases, headers, fields[0]) + Missing(cases, headers, fields[1..])
  }

  function Lacking(cases: Cases, headers: seq<string>, field: Field): seq<Field>
  {
    if ColumnOf(cases, headers, field).None? then [field] else []
  }

  function BatchStats(cases: Cases, leads: seq<LeadRow>): Stats
  {
    Stats(|leads|, |Valid(Rules(true, cases), leads)|, |Rejected(Rules(true, cases), leads)|, Duplicates(Keys(Rules(true, cases), leads), |leads|))
  }

  function ParsedContent(cases: Cases, headers: Option<seq<string>>, rows: seq<seq<string>>, source: string): Parsed
  {
    if headers.None? || headers.value == [] then Empty
    else
      var missing := Missing(cases, headers.value, REQUIRED);
      if missing != [] then MissingColumns(missing)
      else
        var leads := RowLeads(cases, headers.value, rows, source);
        Batch(Valid(Rules(true, cases), leads), Rejected(Rules(true, cases), leads), BatchStats(cases, leads))
  }

  /** Which leads a content yields: none when it has no header row or lacks a required column. */
  function LeadsOf(parsed: Parsed): seq<LeadRow> { if parsed.Batch? then parsed.leads else [] }

  // ---- Columns ----------------------------------------------------------------------------

  lemma FirstAliasSkips(names: seq<string>, aliases: seq<string>, j: nat)
    requires j < |aliases| && aliases[j] !in names
    ensures FirstAlias(names, aliases[j..]) == FirstAlias(names, aliases[j + 1..])
  {
    assert aliases[j..][1..] == aliases[j + 1..];
  }

  /** The inner loop of the mapping: the aliases in order, stopping at the first hit. */
  method FindColumn(names: seq<string>, aliases: seq<string>) returns (column: Option<nat>)
    ensures IsColumn(names, aliases, column)
  {
    column := None;
    var j := 0;
    while j < |aliases|
      invariant j <= |aliases| && column.None?
      invariant FirstAlias(names, aliases) == FirstAlias(names, aliases[j..])
    {
      if aliases[j] in names {
        column := Some(IndexOf(names, aliases[j]));
        break;
      }
      FirstAliasSkips(names, aliases, j);
      j := j + 1;
    }
    FirstAliasIsColumn(names, aliases, column);
  }

  /** The columns of a header row. */
  ghost predicate Maps(cases: Cases, mapping: map<Field, Option<nat>>, headers: seq<string>)
  {
    forall field: Field :: field in mapping && mapping[field] == ColumnOf(cases, headers, field)
  }

  lemma EveryFieldListed(field: Field)
    ensures field in FIELDS
  {
    assert FIELDS[0] == FirstName && FIELDS[1] == LastName && FIELDS[2] == Email;
    assert FIELDS[3] == CompanyName && FIELDS[4] == Website && FIELDS[5] == Industry;
  }

  /** Every field of the mapping has its column. */
  method MapColumns(cases: Cases, headers: seq<string>) returns (mapping: map<Field, Option<nat>>)
    ensures Maps(cases, mapping, headers)
  {
    var names := NormalizedHeaders(cases, headers);
    mapping := map[];
    var i := 0;
    while i < |FIELDS|
      invariant i <= |FIELDS|
      invariant forall field <- FIELDS[..i] :: field in mapping && mapping[field] == ColumnOf(cases, headers, field)
    {
      var column := FindColumn(names, Aliases(FIELDS[i]));
      FirstAliasIsColumn(names, Aliases(FIELDS[i]), column);
      mapping := mapping[FIELDS[i] := column];
      assert FIELDS[..i + 1] == FIELDS[..i] + [FIELDS[i]];
      i := i + 1;
    }
    assert FIELDS[..i] == FIELDS;
    forall field: Field
      ensures field in FIELDS
    {
      EveryFieldListed(field);
    }
  }

  lemma {:induction false} MissingAppend(cases: Cases, headers: seq<string>, fields: seq<Field>, field: Field)
    ensures Missing(cases, headers, fields + [field]) == Missing(cases, headers, fields) + Lacking(cases, headers, field)
  {
    if fields == [] {
      assert [] + [field] == [field] && [field][1..] == [];
    } else {
      assert (fields + [field])[1..] == fields[1..] + [field];
      MissingAppend(cases, headers, fields[1..], field);
    }
  }

  method FindMissing(cases: Cases, headers: seq<string>, mapping: map<Field, Option<nat>>) returns (missing: seq<Field>)
    requires Maps(cases, mapping, headers)
    ensures missing == Missing(cases, headers, REQUIRED)
  {
    missing := [];
    var i := 0;
    while i < |REQUIRED|
      invariant i <= |REQUIRED| && missing == Missing(cases, headers, REQUIRED[..i])
    {
      MissingAppend(cases, headers, REQUIRED[..i], REQUIRED[i]);
      assert REQUIRED[..i + 1] == REQUIRED[..i] + [REQUIRED[i]];
      if mapping[REQUIRED[i]].None? {
        missing := missing + [REQUIRED[i]];
      }
      i := i + 1;
    }
    assert REQUIRED[..i] == REQUIRED;
  }

  // ---- Rows -------------------------------------------------------------------------------

  method ReadRow(cases: Cases, ghost headers: seq<string>, mapping: map<Field, Option<nat>>, row: seq<string>, source: string) returns (lead: LeadRow)
    requires Maps(cases, mapping, headers)
    ensures lead == RowLead(cases, headers, row, source)
  {
    lead := LeadRow(
      OrBlank(Cell(row, mapping[FirstName])), OrBlank(Cell(row, mapping[LastName])),
      Lower(cases, OrBlank(Cell(row, mapping[Email]))), OrBlank(Cell(row, mapping[CompanyName])),
      Cell(row, mapping[Website]), Cell(row, mapping[Industry]), source);
  }

  /** What the first `i` rows have given. */
  ghost predicate ReadSoFar(cases: Cases, headers: seq<string>, rows: seq<seq<string>>, source: string, i: nat, raw: seq<LeadRow>)
  {
    i <= |rows| == |RowLeads(cases, headers, rows, source)| && raw == RowLeads(cases, headers, rows, source)[..i]
  }

  lemma ReadNext(cases: Cases, headers: seq<string>, rows: seq<seq<string>>, source: string, i: nat, raw: seq<LeadRow>)
    requires ReadSoFar(cases, headers, rows, source, i, raw) && i < |rows|
    ensures ReadSoFar(cases, headers, rows, source, i + 1, raw + [RowLead(cases, headers, rows[i], source)])
  {
    var all := RowLeads(cases, headers, rows, source);
    assert all[i] == RowLead(cases, headers, rows[i], source);
    PrefixNext(all, i, raw, all[i]);
  }

  lemma PrefixNext<T>(all: seq<T>, i: nat, prefix: seq<T>, next: T)
    requires i < |all| && prefix == all[..i] && next == all[i]
    ensures prefix + [next] == all[..i + 1]
  {
  }

  lemma ReadAll(cases: Cases, headers: seq<string>, rows: seq<seq<string>>, source: string, raw: seq<LeadRow>)
    ensures ReadSoFar(cases, headers, rows, source, 0, [])
    ensures ReadSoFar(cases, headers, rows, source, |rows|, raw) ==> raw == RowLeads(cases, headers, rows, source)
  {
  }

  method AsArray(raw: seq<LeadRow>) returns (leads: array<LeadRow>)
    ensures fresh(leads) && leads[..] == raw
  {
    leads := new LeadRow[|raw|](j requires 0 <= j < |raw| => raw[j]);
  }

  method ReadRows(cases: Cases, ghost headers: seq<string>, mapping: map<Field, Option<nat>>, rows: seq<seq<string>>, source: string)
    returns (leads: array<LeadRow>)
    requires Maps(cases, mapping, headers)
    ensures fresh(leads) && leads[..] == RowLeads(cases, headers, rows, source)
  {
    var raw: seq<LeadRow> := [];
    ReadAll(cases, headers, rows, source, raw);
    var i := 0;
    while i < |rows|
      invariant ReadSoFar(cases, headers, rows, source, i, raw)
    {
      var lead := ReadRow(cases, headers, mapping, rows[i], source);
      ReadNext(cases, headers, rows, source, i, raw);
      raw := raw + [lead];
      i := i + 1;
    }
    ReadAll(cases, headers, rows, source, raw);
    leads := AsArray(raw);
  }

  method ParseContent(cases: Cases, headers: Option<seq<string>>, rows: seq<seq<string>>, source: string) returns (parsed: Parsed)
    ensures parsed == ParsedContent(cases, headers, rows, source)
    ensures parsed.Batch? ==> parsed.stats.total == parsed.stats.valid + parsed.stats.invalid + parsed.stats.duplicate
  {
    if headers.None? || headers.value == [] {
      return Empty;
    }
    var mapping := MapColumns(cases, headers.value);
    var missing := FindMissing(cases, headers.value, mapping);
    if missing != [] {
      return MissingColumns(missing);
    }
    var raw := ReadRows(cases, headers.value, mapping, rows, source);
    var validator := new Validator(Rules(true, cases));
    var leads, rejected, stats := validator.ValidateLeads(raw);
    parsed := Batch(leads, rejected, stats);
  }

  /** What the insert loop has collected for its session, and its two counters. */
  datatype Inserts = Inserts(pending: seq<LeadRecord>, imported: nat, skipped: nat)

  // ---- The table and the import -----------------------------------------------------------

  /** The committed rows of the lead table. */
  class LeadTable {
    var rows: seq<LeadRecord>

    constructor ()
      ensures rows == []
    {
      rows := [];
    }

    method Find(org: int, email: string) returns (found: bool)
      ensures found == Holds(rows, org, email)
    {
      var i := 0;
      while i < |rows|
        invariant i <= |rows|
        invariant forall j :: 0 <= j < i ==> rows[j].org != org || rows[j].email != email
      {
        if rows[i].org == org && rows[i].email == email {
          return true;
        }
        i := i + 1;
      }
      return false;
    }

    /** The insert loop: leads the table already holds are counted, the others are collected. */
    method CollectInserts(leads: seq<LeadRow>, to: Target) returns (inserts: Inserts)
      ensures inserts.pending == AllAdded(rows, leads, to) && inserts.imported == |inserts.pending|
      ensures inserts.skipped == Skipped(rows, leads, to.org, |leads|) && inserts.imported + inserts.skipped == |leads|
    {
      var pending: seq<LeadRecord>, imported: nat, skipped: nat := [], 0, 0;
      var i := 0;
      while i < |leads|
        invariant i <= |leads|
        invariant pending == Added(rows, leads, to, i) && imported == |pending|
        invariant skipped == Skipped(rows, leads, to.org, i)
      {
        var existing := Find(to.org, leads[i].email);
        if existing {
          skipped := skipped + 1;
        } else {
          pending := pending + [RecordOf(leads[i], to)];
          imported := imported + 1;
        }
        i := i + 1;
      }
      ImportedPlusSkipped(rows, leads, to, |leads|);
      inserts := Inserts(pending, imported, skipped);
    }

    /** A session's inserts go in together or not at all. */
    method Commit(pending: seq<LeadRecord>) returns (ok: bool)
      modifies this
      ensures ok == (Unique(old(rows) + pending) && AllFit(pending))
      ensures rows == if ok then old(rows) + pending else old(rows)
    {
      ok := Unique(rows + pending) && AllFit(pending);
      if ok {
        rows := rows + pending;
      }
    }
  }

  /** A whole import. It fails only when a value is too wide for its column, and then leaves the
      table as it was. */
  method ImportCsv(cases: Cases, table: LeadTable, headers: Option<seq<string>>, rows: seq<seq<string>>, to: Target) returns (outcome: Outcome)
    requires Unique(table.rows)
    modifies table
    ensures var parsed := ParsedContent(cases, headers, rows, to.source); var leads := LeadsOf(parsed);
            && table.rows == TableAfter(old(table.rows), leads, to) && Unique(table.rows)
            && (leads == [] ==> outcome == NothingToImport(parsed))
            && (outcome.RolledBack? <==> leads != [] && !AllFit(AllAdded(old(table.rows), leads, to)))
            && (outcome.Imported? ==>
                  && outcome.count == |table.rows| - |old(table.rows)|
                  && outcome.stats.duplicate == parsed.stats.duplicate + |leads| - outcome.count
                  && outcome.stats == parsed.stats.(duplicate := outcome.stats.duplicate))
  {
    var parsed := ParseContent(cases, headers, rows, to.source);
    if !parsed.Batch? || parsed.leads == [] {
      assert table.rows + [] == table.rows;
      return NothingToImport(parsed);
    }
    var inserts := table.CollectInserts(parsed.leads, to);
    ValidatedImportAccepted(table.rows, Rules(true, cases), RowLeads(cases, headers.value, rows, to.source), to);
    var ok := table.Commit(inserts.pending);
    if !ok {
      return RolledBack;
    }
    outcome := Imported(inserts.imported, parsed.stats.(duplicate := parsed.stats.duplicate + inserts.skipped));
  }

  /** Importing the same content again imports nothing and leaves the table as it is, whether
      the first import was accepted, refused or empty. */
  lemma ImportTwice(cases: Cases, table: seq<LeadRecord>, headers: Option<seq<string>>, rows: seq<seq<string>>, to: Target)
    ensures var leads := LeadsOf(ParsedContent(cases, headers, rows, to.source));
            var once := TableAfter(table, leads, to);
            && TableAfter(once, leads, to) == once
            && (Accepted(table, leads, to) ==> AllAdded(once, leads, to) == [])
  {
    var leads := LeadsOf(ParsedContent(cases, headers, rows, to.source));
    if Accepted(table, leads, to) {
      ReimportAddsNothing(table, leads, to, to);
    }
  }

  /** The lead of a row that names every field, stored: what the table then holds is what stands in
      the file, stripped, the names titled, the address lowered, the website completed. */
  predicate StoredFrom(cases: Cases, r: LeadRecord, row: seq<string>, to: Target)
    requires |row| == 6
  {
    var site := Strip(row[4]);
    && r.org == to.org && r.campaign == to.campaign && r.source == to.source
    && r.firstName == Title(cases, Strip(row[0])) && r.lastName == Title(cases, Strip(row[1]))
    && r.email == Lower(cases, Strip(Lower(cases, Strip(row[2])))) && r.companyName == Strip(row[3])
    && r.website == Some(if site == "" || HasScheme(site) then site else "https://" + site)
    && r.industry == Some(Strip(row[5]))
  }

  /** A complete row of such a file, the first one with its address, whose address the organization
      did not hold, is in the table after an accepted import. */
  lemma ImportedAsWritten(cases: Cases, table: seq<LeadRecord>, rows: seq<seq<string>>, to: Target, i: nat) returns (r: LeadRecord)
    requires cases.Sound() && i < |rows| && |rows[i]| == 6
    requires var rules, leads := Rules(true, cases), RowLeads(cases, ALL_NAMES, rows, to.source);
             && IsFirst(Keys(rules, leads), i) && Complete(rules, leads[i])
             && Accepted(table, Valid(rules, leads), to)
             && forall row <- table :: row.org == to.org ==> row.email != Normalize(rules, leads[i].email)
    ensures r in TableAfter(table, Valid(Rules(true, cases), RowLeads(cases, ALL_NAMES, rows, to.source)), to)
    ensures StoredFrom(cases, r, rows[i], to)
  {
    var rules, leads := Rules(true, cases), RowLeads(cases, ALL_NAMES, rows, to.source);
    FullRowIsRead(cases, rows[i], to.source);
    FirstRowDecides(rules, leads, i);
    var valid, clean := Valid(rules, leads), Clean(rules, leads[i]);
    var a :| 0 <= a < |valid| && valid[a] == clean;
    r := NewLeadIsStored(table, valid, to, a);
    CleanedFullRow(cases, rows[i], leads[i]);
  }

  lemma CleanedFullRow(cases: Cases, row: seq<string>, lead: LeadRow)
    requires |row| == 6
    requires lead == LeadRow(Strip(row[0]), Strip(row[1]), Lower(cases, Strip(row[2])), Strip(row[3]), Some(Strip(row[4])), Some(Strip(row[5])), lead.source)
    ensures var c, site := Clean(Rules(true, cases), lead), Strip(row[4]);
            && c.firstName == Title(cases, Strip(row[0])) && c.lastName == Title(cases, Strip(row[1]))
            && c.email == Lower(cases, Strip(Lower(cases, Strip(row[2])))) && c.companyName == Strip(row[3])
            && c.website == Some(if site == "" || HasScheme(site) then site else "https://" + site)
            && c.industry == Some(Strip(row[5]))
  {
    StripIdempotent(row[0]);
    StripIdempotent(row[1]);
    StripIdempotent(row[3]);
    WebsiteCompleted(lead);
  }

  /** A required column is reported missing exactly if it has none; the website and the industry
      never are. */
  lemma MissingIff(cases: Cases, headers: seq<string>, rows: seq<seq<string>>, source: string, field: Field)
    requires headers != [] && ParsedContent(cases, Some(headers), rows, source).MissingColumns?
    ensures field in ParsedContent(cases, Some(headers), rows, source).fields <==>
              field in {FirstName, LastName, Email, CompanyName} && ColumnOf(cases, headers, field) == None
  {
    MissingHas(cases, headers, REQUIRED, field);
    assert REQUIRED[0] == FirstName && REQUIRED[1] == LastName && REQUIRED[2] == Email && REQUIRED[3] == CompanyName;
  }

  lemma {:induction false} MissingHas(cases: Cases, headers: seq<string>, fields: seq<Field>, field: Field)
    ensures field in Missing(cases, headers, fields) <==> field in fields && ColumnOf(cases, headers, field) == None
  {
    if fields != [] {
      MissingHas(cases, headers, fields[1..], field);
      assert fields == [fields[0]] + fields[1..];
    }
  }

  /** Rearranging the columns of a file does not change what is imported. */
  lemma ColumnOrderImportsTheSame(cases: Cases, headers: seq<string>, headers': seq<string>,
                                  rows: seq<seq<string>>, rows': seq<seq<string>>, moved: seq<nat>, source: string)
    requires Rearranged(headers, headers', moved) && DistinctNames(NormalizedHeaders(cases, headers'))
    requires |rows| == |rows'| && forall i :: 0 <= i < |rows| ==> Rearranged(rows[i], rows'[i], moved)
    ensures ParsedContent(cases, Some(headers), rows, source) == ParsedContent(cases, Some(headers'), rows', source)
  {
    MissingSame(cases, headers, headers', moved, REQUIRED);
    forall i | 0 <= i < |rows|
      ensures RowLead(cases, headers, rows[i], source) == RowLead(cases, headers', rows'[i], source)
    {
      ColumnOrderIrrelevant(cases, headers, headers', rows[i], rows'[i], moved, source);
    }
    assert RowLeads(cases, headers, rows, source) == RowLeads(cases, headers', rows', source);
  }

  lemma {:induction false} MissingSame(cases: Cases, headers: seq<string>, headers': seq<string>, moved: seq<nat>, fields: seq<Field>)
    requires Rearranged(headers, headers', moved) && DistinctNames(NormalizedHeaders(cases, headers'))
    ensures Missing(cases, headers, fields) == Missing(cases, headers', fields)
  {
    if fields != [] {
      assert Rearranged(NormalizedHeaders(cases, headers), NormalizedHeaders(cases, headers'), moved);
      AliasMoves(NormalizedHeaders(cases, headers), NormalizedHeaders(cases, headers'), moved, Aliases(fields[0]));
      MissingSame(cases, headers, headers', moved, fields[1..]);
    }
  }
}

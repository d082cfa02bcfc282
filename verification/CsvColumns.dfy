/** modules/lead_ingestion/csv_handler.py: which column of a header row holds which field, and
    the lead read from one row through that mapping. */
module CsvColumns {
  import opened Text
  import opened TextCase
  import opened LeadValidator

  datatype Field = FirstName | LastName | Email | CompanyName | Website | Industry

  const FIELDS: seq<Field> := [FirstName, LastName, Email, CompanyName, Website, Industry]

  const REQUIRED: seq<Field> := [FirstName, LastName, Email, CompanyName]

  function Aliases(field: Field): seq<string>
  {
    match field
    case FirstName => ["first_name", "firstname", "first name", "fname", "given name"]
    case LastName => ["last_name", "lastname", "last name", "lname", "surname", "family name"]
    case Email => ["email", "email address", "e-mail", "mail", "email_address"]
    case CompanyName => ["company_name", "company", "company name", "organization", "org", "business", "business name"]
    case Website => ["website", "url", "web", "site", "company website", "company_url", "domain"]
    case Industry => ["industry", "sector", "vertical", "niche", "business type"]
  }

  /** `s.replace("-", "_")` */
  function Underscored(s: string): string
  {
    seq(|s|, i requires 0 <= i < |s| => if s[i] == '-' then '_' else s[i])
  }

  /** `s.replace("  ", " ")`: one pass from the left, so longer runs are only halved. */
  function PairsCollapsed(s: string): string
  {
    if s == "" then ""
    else if |s| >= 2 && s[0] == ' ' && s[1] == ' ' then " " + PairsCollapsed(s[2..])
    else [s[0]] + PairsCollapsed(s[1..])
  }

  predicate NoPair(s: string)
  {
    forall i :: 0 < i < |s| ==> s[i - 1] != ' ' || s[i] != ' '
  }

  lemma {:induction false} NoPairStays(s: string)
    requires NoPair(s)
    ensures PairsCollapsed(s) == s
  {
    if s != "" {
      assert |s| >= 2 ==> s[0] != ' ' || s[1] != ' ';
      assert forall i :: 0 <= i < |s[1..]| ==> s[1..][i] == s[i + 1];
      NoPairStays(s[1..]);
      assert s == [s[0]] + s[1..];
    }
  }

  function Spaces(n: nat): string { seq(n, i => ' ') }

  /** A run of blanks is halved, not collapsed: three or more leave a pair. */
  lemma {:induction false} RunsAreHalved(n: nat, rest: string)
    requires rest == "" || rest[0] != ' '
    ensures PairsCollapsed(Spaces(n) + rest) == Spaces((n + 1) / 2) + PairsCollapsed(rest)
  {
    var s := Spaces(n) + rest;
    if n == 0 {
      assert s == rest;
    } else if n == 1 {
      assert s[0] == ' ' && s[1..] == rest && Spaces(1) == " ";
    } else {
      assert s[2..] == Spaces(n - 2) + rest;
      RunsAreHalved(n - 2, rest);
      assert Spaces((n + 1) / 2) == " " + Spaces((n - 1) / 2);
    }
  }

  function NormalizeHeader(cases: Cases, header: string): string
  {
    PairsCollapsed(Underscored(Lower(cases, Strip(header))))
  }

  function NormalizedHeaders(cases: Cases, headers: seq<string>): seq<string>
  {
    seq(|headers|, i requires 0 <= i < |headers| => NormalizeHeader(cases, headers[i]))
  }

  function IndexOf(names: seq<string>, name: string): (i: nat)
    requires name in names
    ensures i < |names| && names[i] == name && name !in names[..i]
  {
    if names[0] == name then 0
    else
      var i := 1 + IndexOf(names[1..], name);
      assert names[..i] == [names[0]] + names[1..][..i - 1];
      i
  }

  function FirstAlias(names: seq<string>, aliases: seq<string>): Option<nat>
  {
    if aliases == [] then None
    else if aliases[0] in names then Some(IndexOf(names, aliases[0]))
    else FirstAlias(names, aliases[1..])
  }

  function ColumnOf(cases: Cases, headers: seq<string>, field: Field): Option<nat>
  {
    FirstAlias(NormalizedHeaders(cases, headers), Aliases(field))
  }

  /** Alias number `a` wins with column `c`: no better alias occurs, and no earlier column has
      the same name. */
  predicate Wins(names: seq<string>, aliases: seq<string>, a: nat, c: nat)
    requires a < |aliases| && c < |names|
  {
    && names[c] == aliases[a]
    && (forall b :: 0 <= b < a ==> aliases[b] !in names)
    && (forall d :: 0 <= d < c ==> names[d] != names[c])
  }

  /** What it means for `column` to be the column of a field with these aliases. */
  predicate IsColumn(names: seq<string>, aliases: seq<string>, column: Option<nat>)
  {
    match column
    case None => forall a <- aliases :: a !in names
    case Some(c) => c < |names| && exists a :: 0 <= a < |aliases| && Wins(names, aliases, a, c)
  }

  /** The best alias present decides, and its first occurrence is taken. */
  lemma {:induction false} FirstAliasIsColumn(names: seq<string>, aliases: seq<string>, column: Option<nat>)
    ensures IsColumn(names, aliases, column) <==> column == FirstAlias(names, aliases)
  {
    if aliases != [] {
      if aliases[0] in names {
        var i := IndexOf(names, aliases[0]);
        assert forall d :: 0 <= d < i ==> names[..i][d] == names[d];
        assert Wins(names, aliases, 0, i);
        if column.Some? && IsColumn(names, aliases, column) {
          var a :| 0 <= a < |aliases| && Wins(names, aliases, a, column.value);
          assert a == 0;
          assert names[column.value] == names[i];
        }
      } else {
        var rest := aliases[1..];
        FirstAliasIsColumn(names, rest, column);
        assert aliases == [aliases[0]] + rest;
        if column.Some? && column.value < |names| {
          var c := column.value;
          forall a | 0 <= a < |rest|
            ensures Wins(names, rest, a, c) <==> Wins(names, aliases, a + 1, c)
          {
            WinsShift(names, aliases, a, c);
          }
          if IsColumn(names, aliases, column) {
            var a :| 0 <= a < |aliases| && Wins(names, aliases, a, c);
            assert a != 0;
            assert Wins(names, rest, a - 1, c);
          }
        }
      }
    }
  }

  lemma WinsShift(names: seq<string>, aliases: seq<string>, a: nat, c: nat)
    requires a + 1 < |aliases| && c < |names| && aliases[0] !in names
    ensures Wins(names, aliases[1..], a, c) <==> Wins(names, aliases, a + 1, c)
  {
    if Wins(names, aliases[1..], a, c) {
      forall b | 0 <= b < a + 1
        ensures aliases[b] !in names
      {
        assert b > 0 ==> aliases[b] == aliases[1..][b - 1];
      }
    }
    if Wins(names, aliases, a + 1, c) {
      assert forall b :: 0 <= b < a ==> aliases[1..][b] == aliases[b + 1];
    }
  }

  lemma {:induction false} FoundIff(names: seq<string>, aliases: seq<string>)
    ensures FirstAlias(names, aliases).Some? <==> exists alias :: alias in aliases && alias in names
  {
    if aliases != [] {
      FoundIff(names, aliases[1..]);
      if alias :| alias in aliases && alias in names && aliases[0] !in names {
        assert alias in aliases[1..];
      }
    }
  }

  // ---- The dash ---------------------------------------------------------------------------

  lemma {:induction false} CollapseKeepsOut(s: string, c: char)
    requires c !in s && c != ' '
    ensures c !in PairsCollapsed(s)
  {
    if s == "" {
    } else if |s| >= 2 && s[0] == ' ' && s[1] == ' ' {
      CollapseKeepsOut(s[2..], c);
    } else {
      CollapseKeepsOut(s[1..], c);
    }
  }

  const EMAIL_NAMES: set<string> := {"email", "email address", "mail", "email_address"}

  lemma EmailAliases()
    ensures forall name :: name in Aliases(Email) <==> name == "e-mail" || name in EMAIL_NAMES
  {
    var all := Aliases(Email);
    assert all[0] == "email" && all[1] == "email address" && all[2] == "e-mail" && all[3] == "mail" && all[4] == "email_address";
  }

  /** Dashes are replaced before the aliases are looked up, so the alias "e-mail" matches no
      header: an address column is recognised exactly by the four other aliases. */
  lemma EmailColumnFoundIff(cases: Cases, headers: seq<string>)
    ensures ColumnOf(cases, headers, Email).Some? <==>
              exists i :: 0 <= i < |headers| && NormalizeHeader(cases, headers[i]) in EMAIL_NAMES
  {
    var names := NormalizedHeaders(cases, headers);
    forall i | 0 <= i < |headers|
      ensures NormalizeHeader(cases, headers[i]) == names[i] && names[i] != "e-mail"
    {
      CollapseKeepsOut(Underscored(Lower(cases, Strip(headers[i]))), '-');
      assert "e-mail"[1] == '-';
    }
    EmailAliases();
    FoundIff(names, Aliases(Email));
    if alias :| alias in Aliases(Email) && alias in names {
      var i :| 0 <= i < |names| && names[i] == alias;
      assert NormalizeHeader(cases, headers[i]) in EMAIL_NAMES;
    }
    if i :| 0 <= i < |headers| && NormalizeHeader(cases, headers[i]) in EMAIL_NAMES {
      assert names[i] in Aliases(Email) && names[i] in names;
    }
  }

  // ---- One row ----------------------------------------------------------------------------

  /** A short row has no cell in a column beyond its end. */
  function Cell(row: seq<string>, column: Option<nat>): Option<string>
  {
    if column.Some? && column.value < |row| then Some(Strip(row[column.value])) else None
  }

  function OrBlank(cell: Option<string>): string { if cell.Some? then cell.value else "" }

  function RowLead(cases: Cases, headers: seq<string>, row: seq<string>, source: string): LeadRow
  {
    LeadRow(
      OrBlank(Cell(row, ColumnOf(cases, headers, FirstName))),
      OrBlank(Cell(row, ColumnOf(cases, headers, LastName))),
      Lower(cases, OrBlank(Cell(row, ColumnOf(cases, headers, Email)))),
      OrBlank(Cell(row, ColumnOf(cases, headers, CompanyName))),
      Cell(row, ColumnOf(cases, headers, Website)),
      Cell(row, ColumnOf(cases, headers, Industry)),
      source)
  }

  function RowLeads(cases: Cases, headers: seq<string>, rows: seq<seq<string>>, source: string): seq<LeadRow>
  {
    seq(|rows|, i requires 0 <= i < |rows| => RowLead(cases, headers, rows[i], source))
  }

  // ---- Which column fills which field -----------------------------------------------------

  /** Column `c` is the first whose header reads `name`, and the row has a cell there. */
  predicate Named(cases: Cases, headers: seq<string>, row: seq<string>, c: nat, name: string)
  {
    && c < |headers| && c < |row| && NormalizeHeader(cases, headers[c]) == name
    && forall d :: 0 <= d < c ==> NormalizeHeader(cases, headers[d]) != name
  }

  lemma NamedColumn(cases: Cases, headers: seq<string>, row: seq<string>, c: nat, field: Field)
    requires Named(cases, headers, row, c, Aliases(field)[0])
    ensures Cell(row, ColumnOf(cases, headers, field)) == Some(Strip(row[c]))
  {
    var names, name := NormalizedHeaders(cases, headers), Aliases(field)[0];
    assert names[c] == name;
    var i := IndexOf(names, name);
    assert names[i] == name && NormalizeHeader(cases, headers[i]) == name;
    assert forall d :: 0 <= d < i ==> names[..i][d] == names[d];
  }

  /** A column that carries a field's own name is read into that field and no other, whatever the
      other columns are called and wherever it stands. */
  lemma NamedColumnsAreRead(cases: Cases, headers: seq<string>, row: seq<string>, source: string, c: nat)
    ensures var lead := RowLead(cases, headers, row, source);
            && (Named(cases, headers, row, c, "first_name") ==> lead.firstName == Strip(row[c]))
            && (Named(cases, headers, row, c, "last_name") ==> lead.lastName == Strip(row[c]))
            && (Named(cases, headers, row, c, "email") ==> lead.email == Lower(cases, Strip(row[c])))
            && (Named(cases, headers, row, c, "company_name") ==> lead.companyName == Strip(row[c]))
            && (Named(cases, headers, row, c, "website") ==> lead.website == Some(Strip(row[c])))
            && (Named(cases, headers, row, c, "industry") ==> lead.industry == Some(Strip(row[c])))
            && lead.source == source
  {
    forall field: Field | Named(cases, headers, row, c, Aliases(field)[0])
      ensures Cell(row, ColumnOf(cases, headers, field)) == Some(Strip(row[c]))
    {
      NamedColumn(cases, headers, row, c, field);
    }
    assert Aliases(FirstName)[0] == "first_name" && Aliases(LastName)[0] == "last_name" && Aliases(Email)[0] == "email";
    assert Aliases(CompanyName)[0] == "company_name" && Aliases(Website)[0] == "website" && Aliases(Industry)[0] == "industry";
  }

  /** The header row of a file that names every field. */
  const ALL_NAMES: seq<string> := ["first_name", "last_name", "email", "company_name", "website", "industry"]

  /** Letters, dashes and underscores. */
  predicate PlainName(s: string)
  {
    s != "" && forall i :: 0 <= i < |s| ==> IsLetter(s[i]) || s[i] == '-' || s[i] == '_'
  }

  /** Such a header is read without regard to capitals, its dashes as underscores. */
  lemma PlainNameReads(cases: Cases, s: string)
    requires cases.Sound() && PlainName(s)
    ensures |NormalizeHeader(cases, s)| == |s|
    ensures forall i :: 0 <= i < |s| ==> NormalizeHeader(cases, s)[i] == if s[i] == '-' then '_' else LowerAscii(s[i])
  {
    TrimmedStaysPut(s);
    AsciiLower(cases, s);
    NoPairStays(Underscored(Lower(cases, s)));
  }

  lemma LowerNameStays(cases: Cases, s: string)
    requires cases.Sound() && s != "" && forall i :: 0 <= i < |s| ==> IsLower(s[i]) || s[i] == '_'
    ensures NormalizeHeader(cases, s) == s
  {
    PlainNameReads(cases, s);
  }

  lemma AllNamesStay(cases: Cases)
    requires cases.Sound()
    ensures forall c :: 0 <= c < 6 ==> NormalizeHeader(cases, ALL_NAMES[c]) == ALL_NAMES[c]
  {
    forall c | 0 <= c < 6
      ensures NormalizeHeader(cases, ALL_NAMES[c]) == ALL_NAMES[c]
    {
      LowerNameStays(cases, ALL_NAMES[c]);
    }
  }

  lemma AllNamesDiffer()
    ensures DistinctNames(ALL_NAMES)
  {
    assert ALL_NAMES[0][0] == 'f' && ALL_NAMES[1][0] == 'l' && ALL_NAMES[2][0] == 'e' && ALL_NAMES[3][0] == 'c';
    assert ALL_NAMES[4][0] == 'w' && ALL_NAMES[5][0] == 'i';
  }

  lemma AllNamed(cases: Cases, row: seq<string>)
    requires cases.Sound() && |row| == 6
    ensures forall c :: 0 <= c < 6 ==> Named(cases, ALL_NAMES, row, c, ALL_NAMES[c])
  {
    AllNamesStay(cases);
    AllNamesDiffer();
    assert forall c, d :: 0 <= d < c < 6 ==> ALL_NAMES[d] != ALL_NAMES[c];
  }

  /** A row under that header is read cell by cell. */
  lemma FullRowIsRead(cases: Cases, row: seq<string>, source: string)
    requires cases.Sound() && |row| == 6
    ensures RowLead(cases, ALL_NAMES, row, source) ==
              LeadRow(Strip(row[0]), Strip(row[1]), Lower(cases, Strip(row[2])), Strip(row[3]), Some(Strip(row[4])), Some(Strip(row[5])), source)
  {
    AllNamed(cases, row);
    NamedColumnsAreRead(cases, ALL_NAMES, row, source, 0);
    NamedColumnsAreRead(cases, ALL_NAMES, row, source, 1);
    NamedColumnsAreRead(cases, ALL_NAMES, row, source, 2);
    NamedColumnsAreRead(cases, ALL_NAMES, row, source, 3);
    NamedColumnsAreRead(cases, ALL_NAMES, row, source, 4);
    NamedColumnsAreRead(cases, ALL_NAMES, row, source, 5);
  }

  /** `moved` lists where each column of `old` went: a rearrangement of the columns. */
  predicate Rearranged<T(==)>(before: seq<T>, after: seq<T>, moved: seq<nat>)
  {
    && |before| == |after| == |moved|
    && (forall i :: 0 <= i < |moved| ==> moved[i] < |after| && after[moved[i]] == before[i])
    && (forall j :: 0 <= j < |after| ==> j in moved)
  }

  predicate DistinctNames(names: seq<string>)
  {
    forall i, j :: 0 <= i < j < |names| ==> names[i] != names[j]
  }

  lemma SameNames(before: seq<string>, after: seq<string>, moved: seq<nat>, name: string)
    requires Rearranged(before, after, moved)
    ensures name in before <==> name in after
  {
    if name in before {
      var i :| 0 <= i < |before| && before[i] == name;
      assert after[moved[i]] == name;
    }
    if name in after {
      var j :| 0 <= j < |after| && after[j] == name;
      assert j in moved;
      var i :| 0 <= i < |moved| && moved[i] == j;
      assert before[i] == name;
    }
  }

  /** The winning column moves with its name. */
  lemma {:induction false} AliasMoves(before: seq<string>, after: seq<string>, moved: seq<nat>, aliases: seq<string>)
    requires Rearranged(before, after, moved) && DistinctNames(after)
    ensures var b, a := FirstAlias(before, aliases), FirstAlias(after, aliases);
            if b.None? then a.None? else b.value < |moved| && a == Some(moved[b.value])
  {
    if aliases != [] {
      SameNames(before, after, moved, aliases[0]);
      if aliases[0] in before {
        var i, j := IndexOf(before, aliases[0]), IndexOf(after, aliases[0]);
        assert after[moved[i]] == after[j];
      } else {
        AliasMoves(before, after, moved, aliases[1..]);
      }
    }
  }

  /** The order of the columns does not matter: when a file's columns are rearranged and its
      header names differ from one another, every complete row reads as the same lead. */
  lemma ColumnOrderIrrelevant(cases: Cases, headers: seq<string>, headers': seq<string>, row: seq<string>, row': seq<string>, moved: seq<nat>, source: string)
    requires Rearranged(headers, headers', moved) && Rearranged(row, row', moved)
    requires DistinctNames(NormalizedHeaders(cases, headers'))
    ensures RowLead(cases, headers, row, source) == RowLead(cases, headers', row', source)
  {
    var names, names' := NormalizedHeaders(cases, headers), NormalizedHeaders(cases, headers');
    assert Rearranged(names, names', moved);
    forall field: Field
      ensures Cell(row, ColumnOf(cases, headers, field)) == Cell(row', ColumnOf(cases, headers', field))
    {
      AliasMoves(names, names', moved, Aliases(field));
    }
  }
}

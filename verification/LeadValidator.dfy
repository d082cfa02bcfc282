/** modules/lead_ingestion/validator.py: validating one address, one lead, and a batch in which
    later rows with an address already seen are dropped. */
module LeadValidator {
  import opened Text
  import opened TextCase
  import opened Batches

  /** A validator's setting, and the alphabet's case tables. */
  datatype Rules = Rules(checkDisposable: bool, cases: Cases)

  // ---- One address ------------------------------------------------------------------------

  datatype Reason =
    | MissingFirstName | MissingLastName | MissingCompanyName
    | EmptyEmail | BadFormat | TooLong | NoDomainDot | ShortTld | DisposableDomain

  const MAX_EMAIL_LENGTH: int := 254
  const MAX_LABEL_LENGTH: int := 63

  const DISPOSABLE_DOMAINS: set<string> := {
    "mailinator.com", "guerrillamail.com", "tempmail.com", "throwaway.email",
    "fakeinbox.com", "sharklasers.com", "guerrillamailblock.com",
    "grr.la", "guerrillamail.info", "guerrillamail.net", "yopmail.com",
    "trashmail.com", "dispostable.com", "maildrop.cc", "10minutemail.com",
    "temp-mail.org", "tempail.com", "burnermail.io"
  }

  predicate IsAlnum(c: char) { IsLetter(c) || '0' <= c <= '9' }

  predicate IsLocalChar(c: char)
  {
    IsAlnum(c) || c in ".!#$%&'*+/=?^_`{|}~-"
  }

  /** `[a-zA-Z0-9](?:[a-zA-Z0-9-]{0,61}[a-zA-Z0-9])?` */
  predicate IsLabel(s: string)
  {
    && 1 <= |s| <= MAX_LABEL_LENGTH
    && IsAlnum(s[0]) && IsAlnum(s[|s| - 1])
    && forall i :: 0 <= i < |s| ==> IsAlnum(s[i]) || s[i] == '-'
  }

  predicate IsLocalPart(s: string)
  {
    s != "" && forall i :: 0 <= i < |s| ==> IsLocalChar(s[i])
  }

  /** The address pattern, decided by splitting at '@' and '.'. */
  predicate MatchesPattern(e: string)
  {
    var p := Split(e, '@');
    && |p| == 2 && IsLocalPart(p[0])
    && forall i :: 0 <= i < |Split(p[1], '.')| ==> IsLabel(Split(p[1], '.')[i])
  }

  /** The address pattern, as the regular expression describes it. */
  ghost predicate InPattern(e: string)
  {
    exists local: string, labels: seq<string> :: IsAddress(e, local, labels)
  }

  predicate IsAddress(e: string, local: string, labels: seq<string>)
  {
    && IsLocalPart(local) && labels != [] && (forall i :: 0 <= i < |labels| ==> IsLabel(labels[i]))
    && e == local + "@" + Join(labels, '.')
  }

  lemma {:induction false} JoinAvoids(labels: seq<string>, c: char)
    requires c != '.' && forall i :: 0 <= i < |labels| ==> c !in labels[i]
    ensures c !in Join(labels, '.')
  {
    if |labels| > 1 {
      JoinAvoids(labels[1..], c);
    }
  }

  lemma AddressSplits(e: string, local: string, labels: seq<string>)
    requires IsAddress(e, local, labels)
    ensures Split(e, '@') == [local, Join(labels, '.')] && Split(Join(labels, '.'), '.') == labels
  {
    assert '@' !in local;
    assert forall i :: 0 <= i < |labels| ==> '@' !in labels[i] && '.' !in labels[i];
    JoinAvoids(labels, '@');
    SplitHead(local, Join(labels, '.'), '@');
    SplitOne(Join(labels, '.'), '@');
    SplitJoin(labels, '.');
    assert e == local + ['@'] + Join(labels, '.');
  }

  /** Splitting decides exactly the language of the regular expression. */
  lemma PatternDecided(e: string)
    ensures MatchesPattern(e) <==> InPattern(e)
  {
    if MatchesPattern(e) {
      var p := Split(e, '@');
      JoinSplit(e, '@');
      JoinSplit(p[1], '.');
      assert p[1..] == [p[1]];
      assert IsAddress(e, p[0], Split(p[1], '.'));
    }
    if InPattern(e) {
      var local: string, labels: seq<string> :| IsAddress(e, local, labels);
      AddressSplits(e, local, labels);
    }
  }

  /** `email.strip().lower()` */
  function Normalize(rules: Rules, email: string): string { Lower(rules.cases, Strip(email)) }

  /** The first reason against a normalized address, if there is one. */
  function AddressIssue(checkDisposable: bool, e: string): Option<Reason>
  {
    if !MatchesPattern(e) then Some(BadFormat)
    else if |e| > MAX_EMAIL_LENGTH then Some(TooLong)
    else
      var domain := Split(e, '@')[1];
      var labels := Split(domain, '.');
      if |labels| < 2 then Some(NoDomainDot)
      else if |labels[|labels| - 1]| < 2 then Some(ShortTld)
      else if checkDisposable && domain in DISPOSABLE_DOMAINS then Some(DisposableDomain)
      else None
  }

  /** `validate_email` */
  function EmailIssue(rules: Rules, email: string): Option<Reason>
  {
    if email == "" then Some(EmptyEmail) else AddressIssue(rules.checkDisposable, Normalize(rules, email))
  }

  /** What acceptance means for the normalized address, without reference to how it is parsed. */
  ghost predicate Acceptable(checkDisposable: bool, e: string)
  {
    && |e| <= MAX_EMAIL_LENGTH
    && exists local: string, labels: seq<string> :: IsAddress(e, local, labels) && Reachable(checkDisposable, labels)
  }

  /** Two labels or more, a last one of two characters or more, and no disposable domain. */
  predicate Reachable(checkDisposable: bool, labels: seq<string>)
  {
    && |labels| >= 2 && |labels[|labels| - 1]| >= 2
    && (checkDisposable ==> Join(labels, '.') !in DISPOSABLE_DOMAINS)
  }

  lemma PatternPieces(e: string)
    requires MatchesPattern(e)
    ensures IsAddress(e, Split(e, '@')[0], Split(Split(e, '@')[1], '.'))
    ensures Join(Split(Split(e, '@')[1], '.'), '.') == Split(e, '@')[1]
  {
    var p := Split(e, '@');
    JoinSplit(e, '@');
    JoinSplit(p[1], '.');
    assert p[1..] == [p[1]];
  }

  lemma IssueFree(checkDisposable: bool, e: string)
    requires AddressIssue(checkDisposable, e) == None
    ensures Acceptable(checkDisposable, e)
  {
    PatternPieces(e);
    assert Reachable(checkDisposable, Split(Split(e, '@')[1], '.'));
  }

  lemma ReachableAddress(checkDisposable: bool, e: string, local: string, labels: seq<string>)
    requires IsAddress(e, local, labels) && Reachable(checkDisposable, labels) && |e| <= MAX_EMAIL_LENGTH
    ensures AddressIssue(checkDisposable, e) == None
  {
    AddressSplits(e, local, labels);
  }

  lemma AddressIssueIff(checkDisposable: bool, e: string)
    ensures AddressIssue(checkDisposable, e) == None <==> Acceptable(checkDisposable, e)
  {
    if AddressIssue(checkDisposable, e) == None {
      IssueFree(checkDisposable, e);
    }
    if Acceptable(checkDisposable, e) {
      var local: string, labels: seq<string> :| IsAddress(e, local, labels) && Reachable(checkDisposable, labels);
      ReachableAddress(checkDisposable, e, local, labels);
    }
  }

  /** An address is accepted exactly when its normalized form is acceptable. */
  lemma AcceptedIffAcceptable(rules: Rules, email: string)
    ensures EmailIssue(rules, email) == None <==> Acceptable(rules.checkDisposable, Normalize(rules, email))
  {
    AddressIssueIff(rules.checkDisposable, Normalize(rules, email));
    if email == "" {
      assert Split("", '@') == [""];
    }
  }

  lemma {:induction false} JoinAscii(labels: seq<string>)
    requires forall i :: 0 <= i < |labels| ==> Ascii(labels[i])
    ensures Ascii(Join(labels, '.'))
  {
    if |labels| > 1 {
      JoinAscii(labels[1..]);
    }
  }

  /** An accepted address normalizes to itself: it is trimmed, ASCII and without capitals. */
  lemma AcceptedIsNormal(rules: Rules, email: string)
    requires rules.cases.Sound() && EmailIssue(rules, email) == None
    ensures Normalize(rules, Normalize(rules, email)) == Normalize(rules, email) != ""
  {
    var e := Normalize(rules, email);
    AcceptedIffAcceptable(rules, email);
    var local: string, labels: seq<string> :| IsAddress(e, local, labels) && Reachable(rules.checkDisposable, labels);
    JoinAscii(labels);
    AddressEnds(e, local, labels);
    TrimmedStaysPut(e);
    LowerHasNoUpper(rules.cases, Strip(email));
    AsciiStaysLower(rules.cases, e);
  }

  lemma AddressEnds(e: string, local: string, labels: seq<string>)
    requires IsAddress(e, local, labels) && Ascii(Join(labels, '.'))
    ensures e != "" && Trimmed(e) && Ascii(e)
  {
    var domain := Join(labels, '.');
    JoinEnds(labels);
    assert e[0] == local[0] && e[|e| - 1] == domain[|domain| - 1];
    forall i | 0 <= i < |e|
      ensures e[i] < 128 as char
    {
      if i < |local| {
        assert e[i] == local[i];
      } else if i > |local| {
        assert e[i] == domain[i - |local| - 1];
      }
    }
  }

  lemma {:induction false} JoinEnds(labels: seq<string>)
    requires labels != [] && forall i :: 0 <= i < |labels| ==> IsLabel(labels[i])
    ensures Join(labels, '.') != "" && IsAlnum(Join(labels, '.')[|Join(labels, '.')| - 1])
  {
    if |labels| > 1 {
      JoinEnds(labels[1..]);
    }
  }

  // ---- One lead ---------------------------------------------------------------------------

  datatype LeadRow = LeadRow(
    firstName: string, lastName: string, email: string, companyName: string,
    website: Option<string>, industry: Option<string>, source: string)

  function StartsWith(s: string, prefix: string): bool
  {
    |prefix| <= |s| && s[..|prefix|] == prefix
  }

  function FixWebsite(row: LeadRow): LeadRow
  {
    if row.website.Some? && row.website.value != ""
       && !StartsWith(row.website.value, "http://") && !StartsWith(row.website.value, "https://")
    then row.(website := Some("https://" + row.website.value))
    else row
  }

  function Issues(rules: Rules, row: LeadRow): seq<Reason>
  {
    Listed(Strip(row.firstName) == "", Strip(row.lastName) == "", Strip(row.companyName) == "", EmailIssue(rules, row.email))
  }

  function Listed(first: bool, last: bool, company: bool, address: Option<Reason>): seq<Reason>
  {
    (if first then [MissingFirstName] else []) + (if last then [MissingLastName] else [])
    + (if company then [MissingCompanyName] else []) + (if address.Some? then [address.value] else [])
  }

  // ---- What makes a lead valid ------------------------------------------------------------

  /** An address whose labels satisfy this. */
  ghost predicate HasLabels(e: string, P: seq<string> -> bool)
  {
    exists local: string, labels: seq<string> :: IsAddress(e, local, labels) && P(labels)
  }

  predicate ShortLast(labels: seq<string>) { |labels| >= 2 && |labels[|labels| - 1]| < 2 }

  predicate Throwaway(labels: seq<string>)
  {
    |labels| >= 2 && |labels[|labels| - 1]| >= 2 && Join(labels, '.') in DISPOSABLE_DOMAINS
  }

  /** What each reason says about the row. */
  ghost predicate Applies(rules: Rules, row: LeadRow, reason: Reason)
  {
    var e := Normalize(rules, row.email);
    match reason
    case MissingFirstName => AllSpace(row.firstName)
    case MissingLastName => AllSpace(row.lastName)
    case MissingCompanyName => AllSpace(row.companyName)
    case EmptyEmail => row.email == ""
    case BadFormat => row.email != "" && !InPattern(e)
    case TooLong => InPattern(e) && |e| > 254
    case NoDomainDot => |e| <= 254 && HasLabels(e, (labels: seq<string>) => |labels| == 1)
    case ShortTld => |e| <= 254 && HasLabels(e, ShortLast)
    case DisposableDomain => |e| <= 254 && rules.checkDisposable && HasLabels(e, Throwaway)
  }

  function Place(reason: Reason): nat
  {
    match reason
    case MissingFirstName => 0
    case MissingLastName => 1
    case MissingCompanyName => 2
    case _ => 3
  }

  /** The labels of an address are unique. */
  lemma LabelsOf(e: string, local: string, labels: seq<string>, P: seq<string> -> bool)
    requires IsAddress(e, local, labels)
    ensures HasLabels(e, P) <==> P(labels)
  {
    AddressSplits(e, local, labels);
    if HasLabels(e, P) {
      var local': string, labels': seq<string> :| IsAddress(e, local', labels') && P(labels');
      AddressSplits(e, local', labels');
    }
  }

  lemma ListedIff(first: bool, last: bool, company: bool, address: Option<Reason>, reason: Reason)
    requires address.Some? ==> Place(address.value) == 3
    ensures reason in Listed(first, last, company, address) <==>
              match reason
              case MissingFirstName => first
              case MissingLastName => last
              case MissingCompanyName => company
              case _ => address == Some(reason)
    ensures var issues := Listed(first, last, company, address);
            forall i, j :: 0 <= i < j < |issues| ==> Place(issues[i]) < Place(issues[j])
  {
  }

  lemma AddressPlace(rules: Rules, email: string)
    ensures EmailIssue(rules, email).Some? ==> Place(EmailIssue(rules, email).value) == 3
  {
  }

  lemma AddressReason(rules: Rules, row: LeadRow, reason: Reason)
    requires Place(reason) == 3
    ensures EmailIssue(rules, row.email) == Some(reason) <==> Applies(rules, row, reason)
  {
    var e := Normalize(rules, row.email);
    PatternDecided(e);
    if row.email == "" {
      assert Split("", '@') == [""];
    }
    if MatchesPattern(e) {
      var local, labels := Split(e, '@')[0], Split(Split(e, '@')[1], '.');
      PatternPieces(e);
      LabelsOf(e, local, labels, (labels: seq<string>) => |labels| == 1);
      LabelsOf(e, local, labels, ShortLast);
      LabelsOf(e, local, labels, Throwaway);
    }
  }

  /** A reason is listed exactly if it applies, each once, and the missing fields first. */
  lemma ReasonListedIff(rules: Rules, row: LeadRow, reason: Reason)
    ensures reason in Issues(rules, row) <==> Applies(rules, row, reason)
    ensures var issues := Issues(rules, row);
            forall i, j :: 0 <= i < j < |issues| ==> Place(issues[i]) < Place(issues[j])
  {
    AddressPlace(rules, row.email);
    ListedIff(Strip(row.firstName) == "", Strip(row.lastName) == "", Strip(row.companyName) == "", EmailIssue(rules, row.email), reason);
    StripBlankIff(row.firstName);
    StripBlankIff(row.lastName);
    StripBlankIff(row.companyName);
    if Place(reason) == 3 {
      AddressReason(rules, row, reason);
    }
  }

  /** Names and company with something in them, and an acceptable address. */
  ghost predicate Complete(rules: Rules, row: LeadRow)
  {
    && !AllSpace(row.firstName) && !AllSpace(row.lastName) && !AllSpace(row.companyName)
    && Acceptable(rules.checkDisposable, Normalize(rules, row.email))
  }

  lemma ValidIff(rules: Rules, row: LeadRow)
    ensures Issues(rules, row) == [] <==> Complete(rules, row)
  {
    StripBlankIff(row.firstName);
    StripBlankIff(row.lastName);
    StripBlankIff(row.companyName);
    AcceptedIffAcceptable(rules, row.email);
  }

  predicate HasScheme(url: string) { StartsWith(url, "http://") || StartsWith(url, "https://") }

  /** A website without a scheme is given one; an absent or empty one, and the rest of the row,
      stay as they are. */
  lemma WebsiteCompleted(row: LeadRow)
    ensures var fixed := FixWebsite(row);
            && fixed == row.(website := fixed.website)
            && (fixed.website == row.website <==> row.website in {None, Some("")} || HasScheme(row.website.value))
            && (fixed.website != row.website ==> fixed.website == Some("https://" + row.website.value))
            && (fixed.website in {None, Some("")} || HasScheme(fixed.website.value))
  {
    if row.website.Some? {
      var fixed := "https://" + row.website.value;
      assert fixed[..8] == "https://";
      assert |fixed| != |row.website.value|;
    }
  }

  /** A valid row after validation has rewritten it. */
  function Clean(rules: Rules, row: LeadRow): LeadRow
  {
    FixWebsite(row).(email := Normalize(rules, row.email), firstName := Title(rules.cases, Strip(row.firstName)),
                     lastName := Title(rules.cases, Strip(row.lastName)), companyName := Strip(row.companyName))
  }

  /** Cleaning touches white space, the website, the case of the address and, of ASCII names, the
      case of their letters. Every field stays in its place. */
  lemma CleanChangesCaseOnly(rules: Rules, row: LeadRow)
    requires rules.cases.Sound() && rules.cases.AsciiTitles()
    requires Ascii(Strip(row.firstName)) && Ascii(Strip(row.lastName)) && Ascii(Strip(row.email))
    ensures var c := Clean(rules, row);
            && LoweredAscii(c.firstName) == LoweredAscii(Strip(row.firstName))
            && LoweredAscii(c.lastName) == LoweredAscii(Strip(row.lastName))
            && c.email == LoweredAscii(Strip(row.email))
            && c.companyName == Strip(row.companyName) && c.industry == row.industry && c.source == row.source
            && c.website == FixWebsite(row).website
  {
    AsciiTitle(rules.cases, Strip(row.firstName));
    AsciiTitle(rules.cases, Strip(row.lastName));
    AsciiLower(rules.cases, Strip(row.email));
    TitledLowers(Strip(row.firstName));
    TitledLowers(Strip(row.lastName));
  }

  lemma TitledLowers(s: string)
    requires Ascii(s)
    ensures LoweredAscii(TitledAscii(s)) == LoweredAscii(s)
  {
    forall i | 0 <= i < |s|
      ensures LowerAscii(TitledAscii(s)[i]) == LowerAscii(s[i])
    {
    }
  }

  /** The name is printed the same when its printed form is printed again. */
  predicate SteadyName(rules: Rules, name: string) { Steady(rules.cases, Strip(name)) }

  lemma NameAgainIff(rules: Rules, name: string)
    requires rules.cases.Sound()
    ensures var printed := Title(rules.cases, Strip(name));
            && (Title(rules.cases, Strip(printed)) == printed <==> SteadyName(rules, name))
            && (Strip(printed) == "" <==> Strip(name) == "")
  {
    StripTrims(name);
    TitleKeepsTrimmed(rules.cases, Strip(name));
    TrimmedStaysPut(Title(rules.cases, Strip(name)));
    TitleAgainIff(rules.cases, Strip(name));
  }

  /** Cleaning keeps a valid row valid and its address normalized; cleaning again changes nothing
      exactly when both names are steady. */
  lemma CleanAgainIff(rules: Rules, row: LeadRow)
    requires rules.cases.Sound() && Issues(rules, row) == []
    ensures Issues(rules, Clean(rules, row)) == []
    ensures Normalize(rules, Clean(rules, row).email) == Clean(rules, row).email
    ensures Clean(rules, Clean(rules, row)) == Clean(rules, row) <==> SteadyName(rules, row.firstName) && SteadyName(rules, row.lastName)
  {
    NameAgainIff(rules, row.firstName);
    NameAgainIff(rules, row.lastName);
    StripIdempotent(row.companyName);
    AcceptedIsNormal(rules, row.email);
    CleanAddress(rules, row.email);
    WebsiteStable(row);
  }

  lemma CleanAddress(rules: Rules, email: string)
    requires Normalize(rules, Normalize(rules, email)) == Normalize(rules, email) != "" && EmailIssue(rules, email) == None
    ensures EmailIssue(rules, Normalize(rules, email)) == None
  {
  }

  lemma WebsiteStable(row: LeadRow)
    ensures FixWebsite(FixWebsite(row)) == FixWebsite(row)
  {
    if FixWebsite(row) != row {
      var fixed := "https://" + row.website.value;
      assert fixed[..8] == "https://";
    }
  }

  // ---- A batch: first occurrence, then filter ---------------------------------------------

  datatype Rejection = Rejection(row: nat, email: string, issues: seq<Reason>)

  function Keys(rules: Rules, leads: seq<LeadRow>): (keys: seq<string>)
    ensures |keys| == |leads|
  {
    seq(|leads|, i requires 0 <= i < |leads| => Normalize(rules, leads[i].email))
  }

  predicate IsValid(rules: Rules, row: LeadRow) { Issues(rules, row) == [] }

  function Verdicts(rules: Rules, leads: seq<LeadRow>): (verdicts: seq<bool>)
    ensures |verdicts| == |leads|
  {
    seq(|leads|, i requires 0 <= i < |leads| => IsValid(rules, leads[i]))
  }

  /** The rows of the batch that are kept (`want`) or rejected, as indices in order. */
  function Chosen(rules: Rules, leads: seq<LeadRow>, want: bool, n: nat): (rows: seq<nat>)
    requires n <= |leads|
    ensures forall a :: 0 <= a < |rows| ==> rows[a] < n
  {
    RowsExact(Keys(rules, leads), Verdicts(rules, leads), want, n);
    Rows(Keys(rules, leads), Verdicts(rules, leads), want, n)
  }

  function Cleaned(rules: Rules, leads: seq<LeadRow>, rows: seq<nat>): seq<LeadRow>
    requires forall a :: 0 <= a < |rows| ==> rows[a] < |leads|
  {
    seq(|rows|, a requires 0 <= a < |rows| => Clean(rules, leads[rows[a]]))
  }

  function RejectionOf(rules: Rules, leads: seq<LeadRow>, i: nat): Rejection
    requires i < |leads|
  {
    Rejection(i + 1, Normalize(rules, leads[i].email), Issues(rules, leads[i]))
  }

  function Rejections(rules: Rules, leads: seq<LeadRow>, rows: seq<nat>): seq<Rejection>
    requires forall a :: 0 <= a < |rows| ==> rows[a] < |leads|
  {
    seq(|rows|, a requires 0 <= a < |rows| => RejectionOf(rules, leads, rows[a]))
  }

  function ValidUpTo(rules: Rules, leads: seq<LeadRow>, n: nat): seq<LeadRow>
    requires n <= |leads|
  {
    Cleaned(rules, leads, Chosen(rules, leads, true, n))
  }

  function RejectedUpTo(rules: Rules, leads: seq<LeadRow>, n: nat): seq<Rejection>
    requires n <= |leads|
  {
    Rejections(rules, leads, Chosen(rules, leads, false, n))
  }

  /** The leads a batch returns. */
  function Valid(rules: Rules, leads: seq<LeadRow>): seq<LeadRow> { ValidUpTo(rules, leads, |leads|) }

  function Rejected(rules: Rules, leads: seq<LeadRow>): seq<Rejection> { RejectedUpTo(rules, leads, |leads|) }

  /** How the batch leaves a row: duplicates untouched, rejected rows with their website fixed. */
  function RowAfter(rules: Rules, leads: seq<LeadRow>, i: nat): LeadRow
    requires i < |leads|
  {
    if !IsFirst(Keys(rules, leads), i) then leads[i]
    else if IsValid(rules, leads[i]) then Clean(rules, leads[i]) else FixWebsite(leads[i])
  }

  /** The whole batch as it is left. */
  function RowsAfter(rules: Rules, leads: seq<LeadRow>): seq<LeadRow>
  {
    seq(|leads|, i requires 0 <= i < |leads| => RowAfter(rules, leads, i))
  }

  // ---- Properties of the batch ------------------------------------------------------------

  /** total = valid + invalid + duplicate. */
  lemma StatsAddUp(rules: Rules, leads: seq<LeadRow>)
    ensures |Valid(rules, leads)| + |Rejected(rules, leads)| + Duplicates(Keys(rules, leads), |leads|) == |leads|
  {
    RowsAddUp(Keys(rules, leads), Verdicts(rules, leads), |leads|);
  }

  function ValidEmails(rules: Rules, leads: seq<LeadRow>): seq<string>
  {
    seq(|Valid(rules, leads)|, a requires 0 <= a < |Valid(rules, leads)| => Valid(rules, leads)[a].email)
  }

  function RejectedEmails(rules: Rules, leads: seq<LeadRow>): seq<string>
  {
    seq(|Rejected(rules, leads)|, a requires 0 <= a < |Rejected(rules, leads)| => Rejected(rules, leads)[a].email)
  }

  lemma ValidLands(rules: Rules, leads: seq<LeadRow>, email: string)
    ensures email in ValidEmails(rules, leads) <==> Lands(Keys(rules, leads), Verdicts(rules, leads), true, email)
  {
    LandsInList(Keys(rules, leads), Verdicts(rules, leads), true, ValidEmails(rules, leads), email);
  }

  lemma RejectedLands(rules: Rules, leads: seq<LeadRow>, email: string)
    ensures email in RejectedEmails(rules, leads) <==> Lands(Keys(rules, leads), Verdicts(rules, leads), false, email)
  {
    LandsInList(Keys(rules, leads), Verdicts(rules, leads), false, RejectedEmails(rules, leads), email);
  }

  /** Every address of the batch lands in exactly one of the two lists, by the verdict on the
      first row that has it. */
  lemma EachAddressLandsOnce(rules: Rules, leads: seq<LeadRow>, i: nat, email: string) returns (first: nat)
    requires i < |leads| && email == Normalize(rules, leads[i].email)
    ensures first <= i && IsFirst(Keys(rules, leads), first) && Keys(rules, leads)[first] == email
    ensures email in ValidEmails(rules, leads) <==> IsValid(rules, leads[first])
    ensures email in RejectedEmails(rules, leads) <==> !IsValid(rules, leads[first])
  {
    first := EachKeyLandsOnce(Keys(rules, leads), Verdicts(rules, leads), i);
    ValidLands(rules, leads, email);
    RejectedLands(rules, leads, email);
  }

  /** The first row with an address is returned, cleaned, exactly if it is complete, and otherwise
      rejected under its number with the reasons that apply. */
  lemma FirstRowDecides(rules: Rules, leads: seq<LeadRow>, i: nat)
    requires i < |leads| && IsFirst(Keys(rules, leads), i)
    ensures Complete(rules, leads[i]) <==> Normalize(rules, leads[i].email) in ValidEmails(rules, leads)
    ensures Complete(rules, leads[i]) ==> Clean(rules, leads[i]) in Valid(rules, leads)
    ensures !Complete(rules, leads[i]) ==>
              Rejection(i + 1, Normalize(rules, leads[i].email), Issues(rules, leads[i])) in Rejected(rules, leads)
  {
    ValidIff(rules, leads[i]);
    LandsByFirst(Keys(rules, leads), Verdicts(rules, leads), true, i);
    ValidLands(rules, leads, Keys(rules, leads)[i]);
    var rows := Chosen(rules, leads, IsValid(rules, leads[i]), |leads|);
    var a := PlaceOf(rules, leads, i);
    if IsValid(rules, leads[i]) {
      assert Valid(rules, leads)[a] == Clean(rules, leads[i]);
    } else {
      assert Rejected(rules, leads)[a] == RejectionOf(rules, leads, i);
    }
  }

  /** How the batch leaves its rows: a later row with an address already seen as it was, the first
      one as it is returned if it is complete, and otherwise with its website completed. */
  lemma RowsLeft(rules: Rules, leads: seq<LeadRow>, i: nat)
    requires i < |leads|
    ensures |RowsAfter(rules, leads)| == |leads|
    ensures var first, after := IsFirst(Keys(rules, leads), i), RowsAfter(rules, leads)[i];
            && (!first ==> after == leads[i])
            && (first && Complete(rules, leads[i]) ==> after in Valid(rules, leads))
            && (first && !Complete(rules, leads[i]) ==> after == leads[i].(website := FixWebsite(leads[i]).website))
  {
    ValidIff(rules, leads[i]);
    if IsFirst(Keys(rules, leads), i) {
      FirstRowDecides(rules, leads, i);
    }
  }

  lemma PlaceOf(rules: Rules, leads: seq<LeadRow>, i: nat) returns (a: nat)
    requires i < |leads| && IsFirst(Keys(rules, leads), i)
    ensures var rows := Chosen(rules, leads, IsValid(rules, leads[i]), |leads|); a < |rows| && rows[a] == i
  {
    var want := IsValid(rules, leads[i]);
    RowsExact(Keys(rules, leads), Verdicts(rules, leads), want, |leads|);
    var rows := Chosen(rules, leads, want, |leads|);
    assert i in rows;
    a :| 0 <= a < |rows| && rows[a] == i;
  }

  predicate DistinctEmails(leads: seq<LeadRow>)
  {
    forall a, b :: 0 <= a < b < |leads| ==> leads[a].email != leads[b].email
  }

  /** The returned leads have pairwise different addresses and keep the order of their rows. */
  lemma ValidDistinct(rules: Rules, leads: seq<LeadRow>)
    ensures DistinctEmails(Valid(rules, leads))
    ensures var kept := Chosen(rules, leads, true, |leads|);
            && |kept| == |Valid(rules, leads)|
            && (forall a :: 0 <= a < |kept| ==> kept[a] < |leads| && Valid(rules, leads)[a] == Clean(rules, leads[kept[a]]))
            && (forall a, b :: 0 <= a < b < |kept| ==> kept[a] < kept[b])
  {
    var kept := Chosen(rules, leads, true, |leads|);
    RowsExact(Keys(rules, leads), Verdicts(rules, leads), true, |leads|);
    forall a, b | 0 <= a < b < |kept|
      ensures Valid(rules, leads)[a].email != Valid(rules, leads)[b].email
    {
      assert IsFirst(Keys(rules, leads), kept[b]);
      assert Keys(rules, leads)[kept[a]] != Keys(rules, leads)[kept[b]];
    }
  }

  /** A batch of valid leads with different, normalized addresses. */
  predicate Settled(rules: Rules, leads: seq<LeadRow>)
  {
    && DistinctEmails(leads)
    && forall a :: 0 <= a < |leads| ==> IsValid(rules, leads[a]) && Normalize(rules, leads[a].email) == leads[a].email
  }

  lemma ValidSettled(rules: Rules, leads: seq<LeadRow>)
    requires rules.cases.Sound()
    ensures Settled(rules, Valid(rules, leads))
  {
    ValidDistinct(rules, leads);
    var kept := Chosen(rules, leads, true, |leads|);
    RowsExact(Keys(rules, leads), Verdicts(rules, leads), true, |leads|);
    forall a | 0 <= a < |Valid(rules, leads)|
      ensures var v := Valid(rules, leads)[a]; IsValid(rules, v) && Normalize(rules, v.email) == v.email
    {
      assert Verdicts(rules, leads)[kept[a]];
      CleanAgainIff(rules, leads[kept[a]]);
    }
  }

  lemma SettledChosen(rules: Rules, leads: seq<LeadRow>)
    requires Settled(rules, leads)
    ensures Chosen(rules, leads, true, |leads|) == seq(|leads|, i => i)
    ensures Chosen(rules, leads, false, |leads|) == [] && Duplicates(Keys(rules, leads), |leads|) == 0
  {
    var keys, verdicts := Keys(rules, leads), Verdicts(rules, leads);
    forall a | 0 <= a < |keys|
      ensures keys[a] == leads[a].email && verdicts[a]
    {
      assert IsValid(rules, leads[a]);
    }
    forall a, b | 0 <= a < b < |keys|
      ensures keys[a] != keys[b]
    {
      assert keys[a] == leads[a].email && keys[b] == leads[b].email;
    }
    AllSurvive(keys, verdicts, |leads|);
  }

  function CleanedEach(rules: Rules, leads: seq<LeadRow>): (rows: seq<LeadRow>)
    ensures |rows| == |leads|
  {
    seq(|leads|, a requires 0 <= a < |leads| => Clean(rules, leads[a]))
  }

  /** Validating settled leads again only cleans each of them once more. */
  lemma SettledAreCleaned(rules: Rules, leads: seq<LeadRow>)
    requires Settled(rules, leads)
    ensures Rejected(rules, leads) == [] && Duplicates(Keys(rules, leads), |leads|) == 0
    ensures Valid(rules, leads) == CleanedEach(rules, leads)
  {
    SettledChosen(rules, leads);
    var rows := Chosen(rules, leads, true, |leads|);
    assert Valid(rules, leads) == Cleaned(rules, leads, rows);
    CleanedAll(rules, leads, rows);
  }

  lemma CleanedAll(rules: Rules, leads: seq<LeadRow>, rows: seq<nat>)
    requires rows == seq(|leads|, i => i)
    ensures Cleaned(rules, leads, rows) == CleanedEach(rules, leads)
  {
  }

  /** Validating the returned leads again rejects none and drops none, whatever the alphabet; it
      returns them unchanged exactly when the names of the rows they come from are steady. */
  lemma RevalidationIff(rules: Rules, leads: seq<LeadRow>)
    requires rules.cases.Sound()
    ensures var valid, kept := Valid(rules, leads), Chosen(rules, leads, true, |leads|);
            && Rejected(rules, valid) == [] && Duplicates(Keys(rules, valid), |valid|) == 0
            && (Valid(rules, valid) == valid <==> AllSteady(rules, leads, kept))
  {
    var valid, kept := Valid(rules, leads), Chosen(rules, leads, true, |leads|);
    ValidSettled(rules, leads);
    SettledAreCleaned(rules, valid);
    RowsExact(Keys(rules, leads), Verdicts(rules, leads), true, |leads|);
    forall a | 0 <= a < |kept|
      ensures Clean(rules, valid[a]) == valid[a] <==> SteadyName(rules, leads[kept[a]].firstName) && SteadyName(rules, leads[kept[a]].lastName)
    {
      assert Verdicts(rules, leads)[kept[a]] && valid[a] == Clean(rules, leads[kept[a]]);
      CleanAgainIff(rules, leads[kept[a]]);
    }
    AllFixedIff(rules, valid, leads, kept);
  }

  predicate KeepsCase(rules: Rules, name: string)
  {
    forall i :: 0 <= i < |Strip(name)| ==> rules.cases.KeepsCase(Strip(name)[i])
  }

  /** In particular it returns them unchanged when the names they come from are made of characters
      that keep their case, as all of ASCII does. */
  lemma RevalidationIsIdentity(rules: Rules, leads: seq<LeadRow>)
    requires rules.cases.Sound()
    requires forall lead <- leads :: IsValid(rules, lead) ==> KeepsCase(rules, lead.firstName) && KeepsCase(rules, lead.lastName)
    ensures var valid := Valid(rules, leads);
            Valid(rules, valid) == valid && Rejected(rules, valid) == [] && Duplicates(Keys(rules, valid), |valid|) == 0
  {
    var kept := Chosen(rules, leads, true, |leads|);
    RevalidationIff(rules, leads);
    RowsExact(Keys(rules, leads), Verdicts(rules, leads), true, |leads|);
    forall a | 0 <= a < |kept|
      ensures SteadyName(rules, leads[kept[a]].firstName) && SteadyName(rules, leads[kept[a]].lastName)
    {
      var lead := leads[kept[a]];
      assert Verdicts(rules, leads)[kept[a]] && lead in leads;
      SteadyWhenCaseKept(rules.cases, Strip(lead.firstName));
      SteadyWhenCaseKept(rules.cases, Strip(lead.lastName));
    }
  }

  lemma AsciiNameKeepsCase(rules: Rules, name: string)
    requires rules.cases.Sound() && rules.cases.AsciiTitles() && Ascii(Strip(name))
    ensures KeepsCase(rules, name)
  {
    forall i | 0 <= i < |Strip(name)|
      ensures rules.cases.KeepsCase(Strip(name)[i])
    {
      AsciiKeepsCase(rules.cases, Strip(name)[i]);
    }
  }

  /** So it does whenever the names are ASCII. */
  lemma AsciiRevalidationIsIdentity(rules: Rules, leads: seq<LeadRow>)
    requires rules.cases.Sound() && rules.cases.AsciiTitles()
    requires forall lead <- leads :: Ascii(Strip(lead.firstName)) && Ascii(Strip(lead.lastName))
    ensures Valid(rules, Valid(rules, leads)) == Valid(rules, leads)
  {
    forall lead <- leads
      ensures KeepsCase(rules, lead.firstName) && KeepsCase(rules, lead.lastName)
    {
      AsciiNameKeepsCase(rules, lead.firstName);
      AsciiNameKeepsCase(rules, lead.lastName);
    }
    RevalidationIsIdentity(rules, leads);
  }

  predicate AllSteady(rules: Rules, leads: seq<LeadRow>, kept: seq<nat>)
  {
    forall a :: 0 <= a < |kept| ==>
      kept[a] < |leads| && SteadyName(rules, leads[kept[a]].firstName) && SteadyName(rules, leads[kept[a]].lastName)
  }

  lemma AllFixedIff(rules: Rules, valid: seq<LeadRow>, leads: seq<LeadRow>, kept: seq<nat>)
    requires |kept| == |valid| && forall a :: 0 <= a < |kept| ==> kept[a] < |leads|
    requires forall a :: 0 <= a < |valid| ==>
               (Clean(rules, valid[a]) == valid[a] <==> SteadyName(rules, leads[kept[a]].firstName) && SteadyName(rules, leads[kept[a]].lastName))
    ensures CleanedEach(rules, valid) == valid <==> AllSteady(rules, leads, kept)
  {
    var cleaned := CleanedEach(rules, valid);
    if cleaned == valid {
      forall a | 0 <= a < |kept|
        ensures SteadyName(rules, leads[kept[a]].firstName) && SteadyName(rules, leads[kept[a]].lastName)
      {
        assert cleaned[a] == Clean(rules, valid[a]);
      }
    }
  }
}

/** The validator's methods: decision lists on one address and one lead, and the loop over a
    batch that rewrites its rows in place. */
module BatchValidator {
  import opened Text
  import opened TextCase
  import opened Batches
  import opened LeadValidator

  datatype Stats = Stats(total: nat, valid: nat, invalid: nat, duplicate: nat)

  lemma CleanedAppend(rules: Rules, leads: seq<LeadRow>, rows: seq<nat>, i: nat)
    requires i < |leads| && forall a :: 0 <= a < |rows| ==> rows[a] < |leads|
    ensures Cleaned(rules, leads, rows + [i]) == Cleaned(rules, leads, rows) + [Clean(rules, leads[i])]
  {
  }

  lemma RejectionsAppend(rules: Rules, leads: seq<LeadRow>, rows: seq<nat>, i: nat)
    requires i < |leads| && forall a :: 0 <= a < |rows| ==> rows[a] < |leads|
    ensures Rejections(rules, leads, rows + [i]) == Rejections(rules, leads, rows) + [RejectionOf(rules, leads, i)]
  {
  }

  /** What the first `n` rows have produced. */
  ghost predicate Produced(rules: Rules, was: seq<LeadRow>, n: nat, valid: seq<LeadRow>, rejected: seq<Rejection>, duplicates: nat)
  {
    && n <= |was| && valid == ValidUpTo(rules, was, n) && rejected == RejectedUpTo(rules, was, n)
    && duplicates == Duplicates(Keys(rules, was), n)
  }

  lemma ProducedNext(rules: Rules, was: seq<LeadRow>, n: nat, valid: seq<LeadRow>, rejected: seq<Rejection>, duplicates: nat)
    requires Produced(rules, was, n, valid, rejected, duplicates) && n < |was|
    ensures !IsFirst(Keys(rules, was), n) ==> Produced(rules, was, n + 1, valid, rejected, duplicates + 1)
    ensures IsFirst(Keys(rules, was), n) && IsValid(rules, was[n]) ==>
              Produced(rules, was, n + 1, valid + [Clean(rules, was[n])], rejected, duplicates)
    ensures IsFirst(Keys(rules, was), n) && !IsValid(rules, was[n]) ==>
              Produced(rules, was, n + 1, valid, rejected + [RejectionOf(rules, was, n)], duplicates)
  {
    CleanedAppend(rules, was, Chosen(rules, was, true, n), n);
    RejectionsAppend(rules, was, Chosen(rules, was, false, n), n);
  }

  /** The addresses of the first `n` rows. */
  ghost predicate Seen(keys: seq<string>, n: nat, seen: set<string>)
  {
    n <= |keys| && forall e :: e in seen <==> e in keys[..n]
  }

  lemma SeenNext(keys: seq<string>, n: nat, seen: set<string>)
    requires Seen(keys, n, seen) && n < |keys|
    ensures keys[n] in seen <==> !IsFirst(keys, n)
    ensures Seen(keys, n + 1, seen + {keys[n]})
  {
    assert keys[..n + 1] == keys[..n] + [keys[n]];
    if keys[n] in seen {
      var j :| 0 <= j < n && keys[..n][j] == keys[n];
      assert keys[j] == keys[n];
    }
    if !IsFirst(keys, n) {
      var j :| 0 <= j < n && keys[j] == keys[n];
      assert keys[..n][j] == keys[n];
    }
  }

  /** The first `n` rows are rewritten, the others are as they were. */
  ghost predicate Rewritten(rules: Rules, was: seq<LeadRow>, rows: seq<LeadRow>, n: nat)
  {
    && n <= |was| == |rows|
    && (forall i :: 0 <= i < n ==> rows[i] == RowAfter(rules, was, i))
    && (forall i :: n <= i < |was| ==> rows[i] == was[i])
  }

  lemma RewrittenNext(rules: Rules, was: seq<LeadRow>, rows: seq<LeadRow>, n: nat, row: LeadRow)
    requires Rewritten(rules, was, rows, n) && n < |was| && row == RowAfter(rules, was, n)
    ensures Rewritten(rules, was, rows[n := row], n + 1)
  {
  }

  lemma NothingYet(rules: Rules, was: seq<LeadRow>)
    ensures Produced(rules, was, 0, [], [], 0) && Seen(Keys(rules, was), 0, {}) && Rewritten(rules, was, was, 0)
  {
  }

  lemma AllRewritten(rules: Rules, was: seq<LeadRow>, rows: seq<LeadRow>)
    requires Rewritten(rules, was, rows, |was|)
    ensures rows == RowsAfter(rules, was)
  {
    var after := RowsAfter(rules, was);
    assert |rows| == |after|;
    forall i | 0 <= i < |rows|
      ensures rows[i] == after[i]
    {
    }
  }

  lemma AllProduced(rules: Rules, was: seq<LeadRow>, valid: seq<LeadRow>, rejected: seq<Rejection>, duplicates: nat)
    requires Produced(rules, was, |was|, valid, rejected, duplicates)
    ensures valid == Valid(rules, was) && rejected == Rejected(rules, was) && duplicates == Duplicates(Keys(rules, was), |was|)
    ensures |was| == |valid| + |rejected| + duplicates
  {
    StatsAddUp(rules, was);
  }

  class Validator {
    const rules: Rules

    constructor (rules: Rules)
      ensures this.rules == rules
    {
      this.rules := rules;
    }

    /** None when the address is accepted. */
    method ValidateEmail(raw: string) returns (issue: Option<Reason>)
      ensures issue == EmailIssue(rules, raw)
    {
      if raw == "" {
        return Some(EmptyEmail);
      }
      var email := Lower(rules.cases, Strip(raw));
      if !MatchesPattern(email) {
        return Some(BadFormat);
      }
      if |email| > MAX_EMAIL_LENGTH {
        return Some(TooLong);
      }
      var domain := Split(email, '@')[1];
      var labels := Split(domain, '.');
      if |labels| < 2 {
        return Some(NoDomainDot);
      }
      if |labels[|labels| - 1]| < 2 {
        return Some(ShortTld);
      }
      if rules.checkDisposable && domain in DISPOSABLE_DOMAINS {
        return Some(DisposableDomain);
      }
      return None;
    }

    /** The issues of one lead, in the order they are checked. */
    method CollectIssues(lead: LeadRow) returns (issues: seq<Reason>)
      ensures issues == Issues(rules, lead)
    {
      issues := [];
      if Strip(lead.firstName) == "" {
        issues := issues + [MissingFirstName];
      }
      if Strip(lead.lastName) == "" {
        issues := issues + [MissingLastName];
      }
      if Strip(lead.companyName) == "" {
        issues := issues + [MissingCompanyName];
      }
      var issue := ValidateEmail(lead.email);
      if issue.Some? {
        issues := issues + [issue.value];
      }
    }

    /** Collects the issues of row `idx` and completes its website in place, valid or not. */
    method ValidateLead(leads: array<LeadRow>, idx: nat) returns (issues: seq<Reason>)
      requires idx < leads.Length
      modifies leads
      ensures issues == Issues(rules, old(leads[idx]))
      ensures leads[..] == old(leads[..])[idx := FixWebsite(old(leads[idx]))]
    {
      issues := CollectIssues(leads[idx]);
      var website := leads[idx].website;
      if website.Some? && website.value != "" && !StartsWith(website.value, "http://") && !StartsWith(website.value, "https://") {
        leads[idx] := leads[idx].(website := Some("https://" + website.value));
      }
    }

    /** One row of the batch loop that is no duplicate: validate, then normalize and keep it, or
        reject it. */
    method ValidateRow(leads: array<LeadRow>, idx: nat, email: string, valid: seq<LeadRow>, rejected: seq<Rejection>)
      returns (valid': seq<LeadRow>, rejected': seq<Rejection>)
      requires idx < leads.Length && email == Normalize(rules, leads[idx].email)
      modifies leads
      ensures var row := old(leads[idx]);
              if IsValid(rules, row)
              then valid' == valid + [Clean(rules, row)] && rejected' == rejected && leads[..] == old(leads[..])[idx := Clean(rules, row)]
              else valid' == valid && rejected' == rejected + [Rejection(idx + 1, email, Issues(rules, row))]
                   && leads[..] == old(leads[..])[idx := FixWebsite(row)]
    {
      valid', rejected' := valid, rejected;
      var issues := ValidateLead(leads, idx);
      if |issues| == 0 {
        var lead := leads[idx];
        lead := lead.(email := email);
        lead := lead.(firstName := Title(rules.cases, Strip(lead.firstName)));
        lead := lead.(lastName := Title(rules.cases, Strip(lead.lastName)));
        lead := lead.(companyName := Strip(lead.companyName));
        leads[idx] := lead;
        valid' := valid + [lead];
      } else {
        rejected' := rejected + [Rejection(idx + 1, email, issues)];
      }
    }

    /** The body of the batch loop. */
    method NextRow(leads: array<LeadRow>, idx: nat, seen: set<string>, valid: seq<LeadRow>,
                   rejected: seq<Rejection>, duplicates: nat, ghost was: seq<LeadRow>)
      returns (seen': set<string>, valid': seq<LeadRow>, rejected': seq<Rejection>, duplicates': nat)
      requires idx < leads.Length == |was|
      requires Produced(rules, was, idx, valid, rejected, duplicates) && Seen(Keys(rules, was), idx, seen)
      requires Rewritten(rules, was, leads[..], idx)
      modifies leads
      ensures Produced(rules, was, idx + 1, valid', rejected', duplicates') && Seen(Keys(rules, was), idx + 1, seen')
      ensures Rewritten(rules, was, leads[..], idx + 1)
    {
      var email := Normalize(rules, leads[idx].email);
      SeenNext(Keys(rules, was), idx, seen);
      ProducedNext(rules, was, idx, valid, rejected, duplicates);
      RewrittenNext(rules, was, leads[..], idx, RowAfter(rules, was, idx));
      seen', valid', rejected', duplicates' := seen, valid, rejected, duplicates;
      if email in seen {
        duplicates' := duplicates + 1;
        assert seen + {email} == seen && leads[..][idx := leads[idx]] == leads[..];
      } else {
        seen' := seen + {email};
        valid', rejected' := ValidateRow(leads, idx, email, valid, rejected);
      }
    }

    /** The batch loop. */
    method ProcessRows(leads: array<LeadRow>, ghost was: seq<LeadRow>) returns (valid: seq<LeadRow>, rejected: seq<Rejection>, duplicates: nat)
      requires was == leads[..]
      modifies leads
      ensures Produced(rules, was, |was|, valid, rejected, duplicates)
      ensures Rewritten(rules, was, leads[..], |was|)
    {
      var seen: set<string> := {};
      valid, rejected, duplicates := [], [], 0;
      NothingYet(rules, was);
      var idx := 0;
      while idx < leads.Length
        invariant idx <= leads.Length == |was|
        invariant Produced(rules, was, idx, valid, rejected, duplicates)
        invariant Seen(Keys(rules, was), idx, seen)
        invariant Rewritten(rules, was, leads[..], idx)
      {
        seen, valid, rejected, duplicates := NextRow(leads, idx, seen, valid, rejected, duplicates, was);
        idx := idx + 1;
      }
    }

    /** The batch: the returned lists and counts are those of "first occurrence, then filter",
        and every row is left as that reading says. */
    method ValidateLeads(leads: array<LeadRow>) returns (valid: seq<LeadRow>, rejected: seq<Rejection>, stats: Stats)
      modifies leads
      ensures valid == Valid(rules, old(leads[..])) && rejected == Rejected(rules, old(leads[..]))
      ensures stats == Stats(leads.Length, |valid|, |rejected|, Duplicates(Keys(rules, old(leads[..])), leads.Length))
      ensures stats.total == stats.valid + stats.invalid + stats.duplicate
      ensures leads[..] == RowsAfter(rules, old(leads[..]))
    {
      ghost var was := leads[..];
      var duplicates;
      valid, rejected, duplicates := ProcessRows(leads, was);
      AllProduced(rules, was, valid, rejected, duplicates);
      AllRewritten(rules, was, leads[..]);
      stats := Stats(leads.Length, |valid|, |rejected|, duplicates);
    }
  }
}

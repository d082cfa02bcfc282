/** `str.strip`, `str.lower` and `str.title`. White space is all of it; the case tables of the
    alphabet are a parameter, and a character may map to several. */
module TextCase {

  predicate IsSpace(c: char)
  {
    var n := c as int;
    || 9 <= n <= 13 || 28 <= n <= 32 || n == 0x85 || n == 0xA0 || n == 0x1680 || 0x2000 <= n <= 0x200A
    || n == 0x2028 || n == 0x2029 || n == 0x202F || n == 0x205F || n == 0x3000
  }

  predicate IsUpper(c: char) { 'A' <= c <= 'Z' }

  predicate IsLower(c: char) { 'a' <= c <= 'z' }

  predicate IsLetter(c: char) { IsUpper(c) || IsLower(c) }

  // ---- Strip ------------------------------------------------------------------------------

  function StripLeft(s: string): string
  {
    if s != "" && IsSpace(s[0]) then StripLeft(s[1..]) else s
  }

  function StripRight(s: string): string
  {
    if s != "" && IsSpace(s[|s| - 1]) then StripRight(s[..|s| - 1]) else s
  }

  function Strip(s: string): string { StripRight(StripLeft(s)) }

  /** No white space at either end. */
  predicate Trimmed(s: string)
  {
    s == "" || (!IsSpace(s[0]) && !IsSpace(s[|s| - 1]))
  }

  lemma {:induction false} StripRightTrims(s: string)
    requires s != "" && !IsSpace(s[0])
    ensures Trimmed(StripRight(s)) && StripRight(s) != ""
  {
    if IsSpace(s[|s| - 1]) {
      StripRightTrims(s[..|s| - 1]);
    }
  }

  lemma {:induction false} StripLeftTrims(s: string)
    ensures StripLeft(s) == "" || !IsSpace(StripLeft(s)[0])
  {
    if s != "" && IsSpace(s[0]) {
      StripLeftTrims(s[1..]);
    }
  }

  lemma StripTrims(s: string)
    ensures Trimmed(Strip(s))
  {
    StripLeftTrims(s);
    if StripLeft(s) != "" {
      StripRightTrims(StripLeft(s));
    }
  }

  lemma TrimmedStaysPut(s: string)
    requires Trimmed(s)
    ensures Strip(s) == s
  {
  }

  lemma StripIdempotent(s: string)
    ensures Strip(Strip(s)) == Strip(s)
  {
    StripTrims(s);
    TrimmedStaysPut(Strip(s));
  }

  /** White space only. */
  predicate AllSpace(s: string)
  {
    forall i :: 0 <= i < |s| ==> IsSpace(s[i])
  }

  lemma {:induction false} StripLeftPieces(s: string) returns (left: string)
    ensures AllSpace(left) && s == left + StripLeft(s)
  {
    left := "";
    if s != "" && IsSpace(s[0]) {
      left := StripLeftPieces(s[1..]);
      left := [s[0]] + left;
    }
  }

  lemma {:induction false} StripRightPieces(s: string) returns (right: string)
    ensures AllSpace(right) && s == StripRight(s) + right
  {
    right := "";
    if s != "" && IsSpace(s[|s| - 1]) {
      right := StripRightPieces(s[..|s| - 1]);
      right := right + [s[|s| - 1]];
    }
  }

  /** What stripping takes off is white space at both ends, and all of it. */
  lemma StripPieces(s: string) returns (left: string, right: string)
    ensures AllSpace(left) && AllSpace(right) && s == left + Strip(s) + right && Trimmed(Strip(s))
  {
    left := StripLeftPieces(s);
    right := StripRightPieces(StripLeft(s));
    StripTrims(s);
  }

  /** Nothing is left exactly of a text without any other character. */
  lemma StripBlankIff(s: string)
    ensures Strip(s) == "" <==> AllSpace(s)
  {
    var left, right := StripPieces(s);
    if Strip(s) != "" {
      assert s[|left|] == Strip(s)[0];
    }
  }

  // ---- Case tables ------------------------------------------------------------------------

  const SIGMA: char := '\U{03A3}'
  const SMALL_SIGMA: char := '\U{03C3}'
  const FINAL_SIGMA: char := '\U{03C2}'

  /** The full lower-case and title-case forms of every character, which characters have case,
      and which are ignored when looking for one that has. */
  datatype Cases = Cases(lower: char -> string, title: char -> string, cased: char -> bool, ignorable: char -> bool)
  {
    predicate CasedBefore(s: string)
    {
      s != "" && if ignorable(s[|s| - 1]) then CasedBefore(s[..|s| - 1]) else cased(s[|s| - 1])
    }

    predicate CasedAfter(s: string)
    {
      s != "" && if ignorable(s[0]) then CasedAfter(s[1..]) else cased(s[0])
    }

    /** The lower-case form of `s[i]` in its place: a capital sigma that ends a word is lowered
        to a final one. */
    function LowerAt(s: string, i: nat): string
      requires i < |s|
    {
      if s[i] != SIGMA then lower(s[i])
      else if CasedBefore(s[..i]) && !CasedAfter(s[i + 1..]) then [FINAL_SIGMA]
      else [SMALL_SIGMA]
    }

    /** How `str.title` prints `s[i]`. */
    function Form(s: string, i: nat): string
      requires i < |s|
    {
      if i > 0 && cased(s[i - 1]) then LowerAt(s, i) else title(s[i])
    }

    /** No character is dropped. */
    ghost predicate FormsKeep()
    {
      forall c {:trigger lower(c)} {:trigger title(c)} :: lower(c) != "" && title(c) != ""
    }

    /** Forms of a character that is no space do not begin or end with one. */
    ghost predicate FormsSolid()
    {
      forall c {:trigger lower(c)} {:trigger title(c)} :: !IsSpace(c) ==> SolidEnds(lower(c)) && SolidEnds(title(c))
    }

    /** ASCII is lowered as usual, and no other character is lowered to an ASCII capital. */
    ghost predicate AsciiLowers()
    {
      && (forall c {:trigger lower(c)} :: c < 128 as char ==> lower(c) == [LowerAscii(c)])
      && (forall c, i :: 0 <= i < |lower(c)| ==> !IsUpper(lower(c)[i]))
    }

    /** The laws the results rest on; they say nothing about case itself beyond ASCII. */
    ghost predicate Sound() { FormsKeep() && FormsSolid() && AsciiLowers() }

    /** ASCII letters have case and are titled as usual, and no other ASCII character is. */
    ghost predicate AsciiTitles()
    {
      forall c {:trigger title(c)} {:trigger cased(c)} :: c < 128 as char ==> title(c) == [UpperAscii(c)] && (cased(c) <==> IsLetter(c))
    }

    predicate EndsCased(s: string) { s != "" && cased(s[|s| - 1]) }

    /** `str.title` prints `c` as itself where the character before it has case (`seen`), or where
        none does. */
    predicate Holds(seen: bool, c: char)
    {
      if seen then c != SIGMA && lower(c) == [c] else title(c) == [c]
    }

    /** Every character of `t` is printed as itself after the character before it. */
    predicate Stays(seen: bool, t: string)
      decreases |t|
    {
      t == "" || (Holds(seen, t[0]) && Stays(cased(t[0]), t[1..]))
    }

    predicate Keeps(c: char, seen: bool, form: string) { Stays(seen, form) && EndsCased(form) == cased(c) }

    /** All forms of `c` stay as they are and end with the case that `c` has. */
    predicate KeepsCase(c: char)
    {
      && Keeps(c, false, title(c))
      && if c == SIGMA then Keeps(c, true, [SMALL_SIGMA]) && Keeps(c, true, [FINAL_SIGMA]) else Keeps(c, true, lower(c))
    }
  }

  function LowerAscii(c: char): char { if IsUpper(c) then c + ' ' else c }

  function UpperAscii(c: char): char { if IsLower(c) then c - ' ' else c }

  predicate SolidEnds(s: string) { s != "" && !IsSpace(s[0]) && !IsSpace(s[|s| - 1]) }

  /** `s.lower()` */
  function Lower(cases: Cases, s: string): string { LowerFrom(cases, s, 0) }

  function LowerFrom(cases: Cases, s: string, i: nat): string
    requires i <= |s|
    decreases |s| - i
  {
    if i == |s| then "" else cases.LowerAt(s, i) + LowerFrom(cases, s, i + 1)
  }

  /** `s.title()` */
  function Title(cases: Cases, s: string): string { TitleFrom(cases, s, 0) }

  function TitleFrom(cases: Cases, s: string, i: nat): string
    requires i <= |s|
    decreases |s| - i
  {
    if i == |s| then "" else cases.Form(s, i) + TitleFrom(cases, s, i + 1)
  }

  // ---- Lower ------------------------------------------------------------------------------

  predicate Ascii(s: string)
  {
    forall i :: 0 <= i < |s| ==> s[i] < 128 as char
  }

  predicate NoUpper(s: string)
  {
    forall i :: 0 <= i < |s| ==> !IsUpper(s[i])
  }

  lemma LowerHasNoUpper(cases: Cases, s: string)
    requires cases.Sound()
    ensures NoUpper(Lower(cases, s))
  {
    RestHasNoUpper(cases, s, 0);
  }

  lemma {:induction false} RestHasNoUpper(cases: Cases, s: string, i: nat)
    requires cases.Sound() && i <= |s|
    ensures NoUpper(LowerFrom(cases, s, i))
    decreases |s| - i
  {
    if i < |s| {
      RestHasNoUpper(cases, s, i + 1);
    }
  }

  lemma AsciiStaysLower(cases: Cases, s: string)
    requires cases.Sound() && Ascii(s) && NoUpper(s)
    ensures Lower(cases, s) == s
  {
    RestStaysLower(cases, s, 0);
  }

  lemma {:induction false} RestStaysLower(cases: Cases, s: string, i: nat)
    requires cases.Sound() && Ascii(s) && NoUpper(s) && i <= |s|
    ensures LowerFrom(cases, s, i) == s[i..]
    decreases |s| - i
  {
    if i < |s| {
      RestStaysLower(cases, s, i + 1);
      assert s[i..] == [s[i]] + s[i + 1..];
    }
  }

  /** An ASCII text is lowered letter by letter. */
  lemma AsciiLower(cases: Cases, s: string)
    requires cases.Sound() && Ascii(s)
    ensures Lower(cases, s) == LoweredAscii(s)
  {
    RestLower(cases, s, 0);
  }

  function LoweredAscii(s: string): string { seq(|s|, i requires 0 <= i < |s| => LowerAscii(s[i])) }

  lemma {:induction false} RestLower(cases: Cases, s: string, i: nat)
    requires cases.Sound() && Ascii(s) && i <= |s|
    ensures LowerFrom(cases, s, i) == LoweredAscii(s)[i..]
    decreases |s| - i
  {
    if i < |s| {
      RestLower(cases, s, i + 1);
      assert LoweredAscii(s)[i..] == [LowerAscii(s[i])] + LoweredAscii(s)[i + 1..];
    }
  }

  // ---- Title ------------------------------------------------------------------------------

  /** `str.title` of an ASCII text: a letter is a capital exactly if no letter stands before it. */
  function TitledAscii(s: string): string
  {
    seq(|s|, i requires 0 <= i < |s| => if i > 0 && IsLetter(s[i - 1]) then LowerAscii(s[i]) else UpperAscii(s[i]))
  }

  lemma AsciiTitle(cases: Cases, s: string)
    requires cases.Sound() && cases.AsciiTitles() && Ascii(s)
    ensures Title(cases, s) == TitledAscii(s)
  {
    RestTitle(cases, s, 0);
  }

  lemma {:induction false} RestTitle(cases: Cases, s: string, i: nat)
    requires cases.Sound() && cases.AsciiTitles() && Ascii(s) && i <= |s|
    ensures TitleFrom(cases, s, i) == TitledAscii(s)[i..]
    decreases |s| - i
  {
    if i < |s| {
      FormAscii(cases, s, i);
      RestTitle(cases, s, i + 1);
      assert TitledAscii(s)[i..] == [TitledAscii(s)[i]] + TitledAscii(s)[i + 1..];
    }
  }

  lemma FormAscii(cases: Cases, s: string, i: nat)
    requires cases.Sound() && cases.AsciiTitles() && Ascii(s) && i < |s|
    ensures cases.Form(s, i) == [TitledAscii(s)[i]]
  {
    assert i > 0 ==> (cases.cased(s[i - 1]) <==> IsLetter(s[i - 1]));
  }

  lemma FormIsKept(cases: Cases, s: string, i: nat)
    requires cases.Sound() && i < |s|
    ensures cases.Form(s, i) != "" && (!IsSpace(s[i]) ==> SolidEnds(cases.Form(s, i)))
  {
  }

  lemma {:induction false} TitleNeverShrinks(cases: Cases, s: string, i: nat)
    requires cases.Sound() && i <= |s|
    ensures |TitleFrom(cases, s, i)| >= |s| - i
    decreases |s| - i
  {
    if i < |s| {
      FormIsKept(cases, s, i);
      TitleNeverShrinks(cases, s, i + 1);
    }
  }

  lemma SumsMatch(a: string, b: string, c: string, d: string)
    requires |a| >= |c| && |b| >= |d|
    ensures a + b == c + d <==> a == c && b == d
  {
    if a + b == c + d {
      assert |a + b| == |c + d|;
      assert a == (a + b)[..|a|] && b == (a + b)[|a|..];
      assert c == (c + d)[..|c|] && d == (c + d)[|c|..];
    }
  }

  /** Titling leaves a text as it is exactly when it prints every character as itself. Where a
      word ends does not matter: no capital sigma is lowered to itself. */
  lemma {:induction false} TitleFixedIff(cases: Cases, t: string, i: nat)
    requires cases.Sound() && i <= |t|
    ensures TitleFrom(cases, t, i) == t[i..] <==> cases.Stays(i > 0 && cases.cased(t[i - 1]), t[i..])
    decreases |t| - i
  {
    if i < |t| {
      FormIsKept(cases, t, i);
      TitleNeverShrinks(cases, t, i + 1);
      TitleFixedIff(cases, t, i + 1);
      assert t[i..] == [t[i]] + t[i + 1..] && t[i..][1..] == t[i + 1..];
      SumsMatch(cases.Form(t, i), TitleFrom(cases, t, i + 1), [t[i]], t[i + 1..]);
    }
  }

  lemma {:induction false} StaysJoins(cases: Cases, seen: bool, a: string, b: string)
    requires a != ""
    ensures cases.Stays(seen, a + b) <==> cases.Stays(seen, a) && cases.Stays(cases.EndsCased(a), b)
    decreases |a|
  {
    assert (a + b)[1..] == a[1..] + b;
    if |a| == 1 {
      assert a[1..] == "" && "" + b == b;
    } else {
      StaysJoins(cases, cases.cased(a[0]), a[1..], b);
    }
  }

  /** The printed form of `s[i]`, read after the printed form of the character before it, stays
      as it is. */
  predicate SteadyAt(cases: Cases, s: string, i: nat)
    requires i < |s|
  {
    cases.Stays(i > 0 && cases.EndsCased(cases.Form(s, i - 1)), cases.Form(s, i))
  }

  predicate SteadyFrom(cases: Cases, s: string, i: nat)
  {
    forall j :: i <= j < |s| ==> SteadyAt(cases, s, j)
  }

  predicate Steady(cases: Cases, s: string) { SteadyFrom(cases, s, 0) }

  lemma SteadyStep(cases: Cases, s: string, i: nat)
    requires i < |s|
    ensures SteadyFrom(cases, s, i) <==> SteadyAt(cases, s, i) && SteadyFrom(cases, s, i + 1)
  {
  }

  lemma {:induction false} RestStaysIff(cases: Cases, s: string, i: nat)
    requires cases.Sound() && i <= |s|
    ensures cases.Stays(i > 0 && cases.EndsCased(cases.Form(s, i - 1)), TitleFrom(cases, s, i)) <==> SteadyFrom(cases, s, i)
    decreases |s| - i
  {
    if i < |s| {
      var form, rest := cases.Form(s, i), TitleFrom(cases, s, i + 1);
      FormIsKept(cases, s, i);
      RestStaysIff(cases, s, i + 1);
      StaysJoins(cases, i > 0 && cases.EndsCased(cases.Form(s, i - 1)), form, rest);
      SteadyStep(cases, s, i);
    }
  }

  /** Titling is not idempotent in every alphabet. Titling a titled text again changes nothing
      exactly when every form holds after the form before it. */
  lemma TitleAgainIff(cases: Cases, s: string)
    requires cases.Sound()
    ensures Title(cases, Title(cases, s)) == Title(cases, s) <==> Steady(cases, s)
  {
    var t := Title(cases, s);
    assert t[0..] == t;
    TitleFixedIff(cases, t, 0);
    RestStaysIff(cases, s, 0);
  }

  /** A capital sigma between characters that are not ignored is lowered to a final one exactly where
      a word ends. */
  lemma SigmaInPlace(cases: Cases, s: string, i: nat)
    requires i < |s| && s[i] == SIGMA
    requires (i > 0 ==> !cases.ignorable(s[i - 1])) && (i + 1 < |s| ==> !cases.ignorable(s[i + 1]))
    ensures cases.LowerAt(s, i) == [FINAL_SIGMA] <==> i > 0 && cases.cased(s[i - 1]) && (i + 1 < |s| ==> !cases.cased(s[i + 1]))
    ensures cases.LowerAt(s, i) != [FINAL_SIGMA] ==> cases.LowerAt(s, i) == [SMALL_SIGMA]
  {
    if i > 0 {
      assert s[..i][i - 1] == s[i - 1];
    }
    if i + 1 < |s| {
      assert s[i + 1..][0] == s[i + 1];
    }
  }

  /** A text of characters that keep their case is steady. */
  lemma SteadyWhenCaseKept(cases: Cases, s: string)
    requires forall i :: 0 <= i < |s| ==> cases.KeepsCase(s[i])
    ensures Steady(cases, s)
  {
    forall i | 0 <= i < |s|
      ensures SteadyAt(cases, s, i)
    {
      assert cases.KeepsCase(s[i]);
      if i > 0 {
        assert cases.KeepsCase(s[i - 1]);
      }
    }
  }

  /** ASCII characters keep their case. */
  lemma AsciiKeepsCase(cases: Cases, c: char)
    requires cases.Sound() && cases.AsciiTitles() && c < 128 as char
    ensures cases.KeepsCase(c)
  {
    var lower, upper := LowerAscii(c), UpperAscii(c);
    assert cases.lower(c) == [lower] && cases.title(c) == [upper];
    assert cases.title(upper) == [upper] && cases.lower(lower) == [lower];
    assert [upper][1..] == "" && [lower][1..] == "";
    assert cases.cased(upper) == cases.cased(lower) == cases.cased(c);
  }

  lemma {:induction false} TitleEnds(cases: Cases, s: string, i: nat)
    requires cases.Sound() && i < |s| && !IsSpace(s[|s| - 1])
    ensures var t := TitleFrom(cases, s, i); t != "" && !IsSpace(t[|t| - 1])
    decreases |s| - i
  {
    FormIsKept(cases, s, i);
    if i + 1 < |s| {
      TitleEnds(cases, s, i + 1);
    } else {
      assert TitleFrom(cases, s, i) == cases.Form(s, i) + "";
    }
  }

  lemma TitleKeepsTrimmed(cases: Cases, s: string)
    requires cases.Sound() && Trimmed(s)
    ensures Trimmed(Title(cases, s)) && (Title(cases, s) == "" <==> s == "")
  {
    if s != "" {
      FormIsKept(cases, s, 0);
      TitleEnds(cases, s, 0);
    }
  }

  // ---- Inputs -----------------------------------------------------------------------------

  /** U+01F0, whose title form is two characters, the second of which (U+030C) has no case. */
  const J_CARON: char := '\U{01F0}'

  /** U+1FB7, whose title form is U+0391, U+0342 without case, and U+0345, titled to U+0399. */
  const ALPHA: char := '\U{1FB7}'

  function SampleLower(c: char): string
  {
    if c == '\U{0391}' then "\U{03B1}" else if c == '\U{0399}' then "\U{03B9}" else [LowerAscii(c)]
  }

  function SampleTitle(c: char): string
  {
    if c == J_CARON then "J\U{030C}"
    else if c == ALPHA then "\U{0391}\U{0342}\U{0345}"
    else if c == '\U{0345}' || c == '\U{03B9}' then "\U{0399}"
    else if c == '\U{03B1}' then "\U{0391}"
    else [UpperAscii(c)]
  }

  predicate SampleIgnorable(c: char) { c in {'\'', '.', ':', '^', '`', '\U{0342}', '\U{0345}', '\U{030C}'} }

  predicate SampleCased(c: char)
  {
    IsLetter(c) || c in {J_CARON, ALPHA, '\U{0345}', '\U{0391}', '\U{0399}', '\U{03B1}', '\U{03B9}'}
  }

  /** The entries of the case tables for ASCII and for these characters. */
  const SAMPLE: Cases := Cases(SampleLower, SampleTitle, SampleCased, SampleIgnorable)

  lemma SampleFormsAreKept()
    ensures SAMPLE.FormsKeep() && SAMPLE.FormsSolid()
  {
  }

  lemma SampleLowersAscii()
    ensures SAMPLE.AsciiLowers() && SAMPLE.AsciiTitles()
  {
  }

  lemma SampleIsSound()
    ensures SAMPLE.Sound() && SAMPLE.AsciiTitles()
  {
    SampleFormsAreKept();
    SampleLowersAscii();
  }

  /** Two names that are printed differently the second time: one whose second letter loses the
      letter before it, and a single letter. */
  lemma TitleNotIdempotent()
    ensures SAMPLE.Sound()
    ensures Title(SAMPLE, Title(SAMPLE, [J_CARON, 'a'])) != Title(SAMPLE, [J_CARON, 'a'])
    ensures Title(SAMPLE, Title(SAMPLE, [ALPHA])) != Title(SAMPLE, [ALPHA])
  {
    SampleIsSound();
    CaronIsUnsteady();
    AlphaIsUnsteady();
    TitleAgainIff(SAMPLE, [J_CARON, 'a']);
    TitleAgainIff(SAMPLE, [ALPHA]);
  }

  lemma CaronIsUnsteady()
    ensures !Steady(SAMPLE, [J_CARON, 'a'])
  {
    var s := [J_CARON, 'a'];
    assert SAMPLE.Form(s, 0) == "J\U{030C}" && SAMPLE.Form(s, 1) == "a";
    assert !SteadyAt(SAMPLE, s, 1);
  }

  lemma AlphaIsUnsteady()
    ensures !Steady(SAMPLE, [ALPHA])
  {
    var form := "\U{0391}\U{0342}\U{0345}";
    assert SAMPLE.Form([ALPHA], 0) == form;
    assert form[1..][1..][0] == '\U{0345}' && form[1..][0] == '\U{0342}';
    assert !SAMPLE.Stays(false, form[1..][1..]);
    assert !SteadyAt(SAMPLE, [ALPHA], 0);
  }
}

/** Base64 with the URL-safe alphabet (section 5 of RFC 4648): the encoder, the removal of its
    padding, and the lenient decoder of the Python library run on re-padded text. */
module Base64url {
  import opened Text

  type Byte = x: int | 0 <= x < 256

  type Sextet = x: int | 0 <= x < 64

  function Symbol(v: Sextet): char
  {
    if v < 26 then 'A' + v as char
    else if v < 52 then 'a' + (v - 26) as char
    else if v < 62 then '0' + (v - 52) as char
    else if v == 62 then '-' else '_'
  }

  /** The decoder takes both alphabets: it rewrites '-' and '_' to '+' and '/' first. */
  function ValueOf(c: char): Option<Sextet>
  {
    if 'A' <= c <= 'Z' then Some((c - 'A') as int)
    else if 'a' <= c <= 'z' then Some((c - 'a') as int + 26)
    else if '0' <= c <= '9' then Some((c - '0') as int + 52)
    else if c == '-' || c == '+' then Some(62)
    else if c == '_' || c == '/' then Some(63)
    else None
  }

  lemma SymbolHasValue(v: Sextet)
    ensures ValueOf(Symbol(v)) == Some(v) && Symbol(v) != '=' && Symbol(v) != '.' && Symbol(v) < 128 as char
  {
  }

  /** Table 2 of RFC 4648: A to Z, a to z, 0 to 9, each run in order, then '-' and '_'. */
  lemma SymbolTable(v: Sextet)
    ensures Symbol(0) == 'A' && Symbol(26) == 'a' && Symbol(52) == '0' && Symbol(62) == '-' && Symbol(63) == '_'
    ensures v !in {0, 26, 52, 62, 63} ==> Symbol(v) as int == Symbol(v - 1) as int + 1
  {
  }

  function Group(a: Byte, b: Byte, c: Byte): seq<Sextet>
  {
    [a / 4, a % 4 * 16 + b / 16, b % 16 * 4 + c / 64, c % 64]
  }

  /** The bits of the bytes in groups of six: three bytes make four groups, and the last group
      of one or two left-over bytes is filled with zeros. */
  function Sextets(bytes: seq<Byte>): seq<Sextet>
  {
    if |bytes| == 0 then []
    else if |bytes| == 1 then [bytes[0] / 4, bytes[0] % 4 * 16]
    else if |bytes| == 2 then [bytes[0] / 4, bytes[0] % 4 * 16 + bytes[1] / 16, bytes[1] % 16 * 4]
    else Group(bytes[0], bytes[1], bytes[2]) + Sextets(bytes[3..])
  }

  /** The number whose digits in base 64 are `values`, after those of `high`. */
  function Number64(high: int, values: seq<Sextet>): int
    decreases |values|
  {
    if values == [] then high else Number64(high * 64 + values[0], values[1..])
  }

  function Number256(high: int, bytes: seq<Byte>): int
    decreases |bytes|
  {
    if bytes == [] then high else Number256(high * 256 + bytes[0], bytes[1..])
  }

  lemma OneDigit(high: int, v: Sextet, b: Byte, values: seq<Sextet>, bytes: seq<Byte>)
    ensures Number64(high, [v] + values) == Number64(high * 64 + v, values)
    ensures Number256(high, [b] + bytes) == Number256(high * 256 + b, bytes)
  {
    assert ([v] + values)[1..] == values && ([b] + bytes)[1..] == bytes;
  }

  lemma FourDigits(high: int, v0: Sextet, v1: Sextet, v2: Sextet, v3: Sextet, rest: seq<Sextet>, next: int)
    requires next == (((high * 64 + v0) * 64 + v1) * 64 + v2) * 64 + v3
    ensures Number64(high, [v0, v1, v2, v3] + rest) == Number64(next, rest)
  {
    assert [v0, v1, v2, v3] + rest == [v0] + ([v1] + ([v2] + ([v3] + rest)));
    OneDigit(high, v0, 0, [v1] + ([v2] + ([v3] + rest)), []);
    OneDigit(high * 64 + v0, v1, 0, [v2] + ([v3] + rest), []);
    OneDigit((high * 64 + v0) * 64 + v1, v2, 0, [v3] + rest, []);
    OneDigit(((high * 64 + v0) * 64 + v1) * 64 + v2, v3, 0, rest, []);
  }

  lemma ThreeDigits(high: int, a: Byte, b: Byte, c: Byte, rest: seq<Byte>, next: int)
    requires next == ((high * 256 + a) * 256 + b) * 256 + c
    ensures Number256(high, [a, b, c] + rest) == Number256(next, rest)
  {
    assert [a, b, c] + rest == [a] + ([b] + ([c] + rest));
    OneDigit(high, 0, a, [], [b] + ([c] + rest));
    OneDigit(high * 256 + a, 0, b, [], [c] + rest);
    OneDigit((high * 256 + a) * 256 + b, 0, c, [], rest);
  }

  lemma SameNumber(high: int, a: Byte, b: Byte, c: Byte, values: seq<Sextet>) returns (next: int)
    ensures Number64(high, Group(a, b, c) + values) == Number64(next, values)
    ensures next == ((high * 256 + a) * 256 + b) * 256 + c
  {
    next := ((high * 256 + a) * 256 + b) * 256 + c;
    var v0, v1, v2, v3 := GroupBytes(a, b, c);
    FourDigits(high, v0, v1, v2, v3, values, next);
  }

  lemma LastByte(high: int, a: Byte)
    ensures Number64(high, [a / 4, a % 4 * 16]) == Number256(high, [a]) * 16
  {
    var v0, v1 := a / 4, a % 4 * 16;
    assert [v0, v1] == [v0] + ([v1] + []) && [a] == [a] + [];
    OneDigit(high, v0, a, [v1] + [], []);
    OneDigit(high * 64 + v0, v1, 0, [], []);
  }

  lemma LastTwoBytes(high: int, a: Byte, b: Byte)
    ensures Number64(high, [a / 4, a % 4 * 16 + b / 16, b % 16 * 4]) == Number256(high, [a, b]) * 4
  {
    var v0, v1, v2 := a / 4, a % 4 * 16 + b / 16, b % 16 * 4;
    assert [v0, v1, v2] == [v0] + ([v1] + ([v2] + [])) && [a, b] == [a] + ([b] + []);
    OneDigit(high, v0, a, [v1] + ([v2] + []), [b] + []);
    OneDigit(high * 64 + v0, v1, 0, [v2] + [], []);
    OneDigit((high * 64 + v0) * 64 + v1, v2, 0, [], []);
    OneDigit(high * 256 + a, 0, b, [], []);
  }

  /** The number of `n` bytes, followed by the zeros that fill the last symbol. */
  function Filled(number: int, n: nat): int
    decreases n
  {
    if n == 0 then number else if n == 1 then number * 16 else if n == 2 then number * 4 else Filled(number, n - 3)
  }

  /** The symbols are the digits, in base 64, of the number the bytes are in base 256, times 16 or 4
      for the zeros that fill the last symbol after one or two left-over bytes. */
  lemma {:induction false} SextetsAreDigits(high: int, bytes: seq<Byte>)
    ensures Number64(high, Sextets(bytes)) == Filled(Number256(high, bytes), |bytes|)
    decreases |bytes|, 1
  {
    if |bytes| == 1 {
      LastByte(high, bytes[0]);
      assert bytes == [bytes[0]];
    } else if |bytes| == 2 {
      LastTwoBytes(high, bytes[0], bytes[1]);
      assert bytes == [bytes[0], bytes[1]];
    } else if |bytes| > 2 {
      MoreDigits(high, bytes);
    }
  }

  lemma {:induction false} MoreDigits(high: int, bytes: seq<Byte>)
    requires |bytes| > 2
    ensures Number64(high, Sextets(bytes)) == Filled(Number256(high, bytes), |bytes|)
    decreases |bytes|, 0
  {
    var rest := bytes[3..];
    var next := OneGroup(high, bytes[0], bytes[1], bytes[2], Sextets(rest), rest);
    assert bytes == [bytes[0], bytes[1], bytes[2]] + rest;
    SextetsAreDigits(next, rest);
  }

  lemma OneGroup(high: int, a: Byte, b: Byte, c: Byte, values: seq<Sextet>, bytes: seq<Byte>) returns (next: int)
    ensures Number64(high, Group(a, b, c) + values) == Number64(next, values)
    ensures Number256(high, [a, b, c] + bytes) == Number256(next, bytes)
  {
    next := SameNumber(high, a, b, c, values);
    ThreeDigits(high, a, b, c, bytes, next);
  }

  function Symbols(values: seq<Sextet>): (text: string)
    ensures |text| == |values|
  {
    seq(|values|, i requires 0 <= i < |values| => Symbol(values[i]))
  }

  function Pads(n: nat): (pads: string)
    requires n < 4
  {
    if n == 0 then "" else if n == 1 then "=" else if n == 2 then "==" else "==="
  }

  /** How many pads bring `n` up to a multiple of `group`. */
  function Short(n: nat, group: nat): nat
    requires group > 0
  {
    if n % group == 0 then 0 else group - n % group
  }

  /** One or two left-over bytes are marked by two pads or one. */
  function Encode(bytes: seq<Byte>): string
  {
    Symbols(Sextets(bytes)) + Pads(Short(|bytes|, 3))
  }

  /** `text.rstrip("=")` */
  function Unpadded(text: string): string
  {
    if text != "" && text[|text| - 1] == '=' then Unpadded(text[..|text| - 1]) else text
  }

  /** A segment of a token. */
  function Segment(bytes: seq<Byte>): string { Unpadded(Encode(bytes)) }

  /** Padding put back: as many '=' as make the length a multiple of four. */
  function Repadded(text: string): string
  {
    text + Pads(Short(|text|, 4))
  }

  /** The decoder's state: how many symbols of the current group it has read, the bits of the
      last one not yet used, and the pads seen since. */
  datatype Quad = Quad(pos: nat, left: nat, pads: nat)
  {
    predicate Ok()
    {
      pos < 4 && left < (if pos == 0 then 1 else if pos == 1 then 64 else if pos == 2 then 16 else 4)
    }
  }

  const START: Quad := Quad(0, 0, 0)

  function AfterSymbol(q: Quad, v: Sextet): (next: Quad)
    requires q.Ok()
    ensures next.Ok()
  {
    if q.pos == 0 then Quad(1, v, 0)
    else if q.pos == 1 then Quad(2, v % 16, 0)
    else if q.pos == 2 then Quad(3, v % 4, 0)
    else START
  }

  /** The byte a symbol completes, if any. */
  function Completed(q: Quad, v: Sextet): seq<Byte>
    requires q.Ok()
  {
    if q.pos == 0 then []
    else if q.pos == 1 then [q.left * 4 + v / 16]
    else if q.pos == 2 then [q.left * 16 + v / 4]
    else [q.left * 64 + v]
  }

  function Prepend(head: seq<Byte>, rest: Option<seq<Byte>>): Option<seq<Byte>>
  {
    if rest.Some? then Some(head + rest.value) else None
  }

  /** None for text that ends inside a group. Characters outside the alphabet are skipped, and
      enough pads end the text early. */
  function Run(text: string, q: Quad): Option<seq<Byte>>
    requires q.Ok()
  {
    if text == "" then if q.pos == 0 then Some([]) else None
    else if text[0] == '=' then
      if q.pos < 2 then Run(text[1..], q)
      else if q.pos + q.pads + 1 >= 4 then Some([])
      else Run(text[1..], q.(pads := q.pads + 1))
    else
      match ValueOf(text[0])
      case None => Run(text[1..], q)
      case Some(v) => Prepend(Completed(q, v), Run(text[1..], AfterSymbol(q, v)))
  }

  function Decode(text: string): Option<seq<Byte>> { Run(text, START) }

  /** A token's segment, re-padded and decoded. */
  function DecodeSegment(text: string): Option<seq<Byte>> { Decode(Repadded(text)) }

  // ---- Round trip -------------------------------------------------------------------------

  /** The bytes that a run of symbols completes, and the state it leaves. */
  function Emitted(values: seq<Sextet>, q: Quad): seq<Byte>
    requires q.Ok()
  {
    if values == [] then [] else Completed(q, values[0]) + Emitted(values[1..], AfterSymbol(q, values[0]))
  }

  function StateAfter(values: seq<Sextet>, q: Quad): (next: Quad)
    requires q.Ok()
    ensures next.Ok()
  {
    if values == [] then q else StateAfter(values[1..], AfterSymbol(q, values[0]))
  }

  lemma PrependJoins(head: seq<Byte>, more: seq<Byte>, rest: Option<seq<Byte>>)
    ensures Prepend(head, Prepend(more, rest)) == Prepend(head + more, rest)
  {
    if rest.Some? {
      assert head + (more + rest.value) == head + more + rest.value;
    }
  }

  lemma PrependNothing(rest: Option<seq<Byte>>)
    ensures Prepend([], rest) == rest
  {
    if rest.Some? {
      assert [] + rest.value == rest.value;
    }
  }

  lemma {:induction false} RunSymbols(values: seq<Sextet>, tail: string, q: Quad)
    requires q.Ok()
    ensures Run(Symbols(values) + tail, q) == Prepend(Emitted(values, q), Run(tail, StateAfter(values, q)))
  {
    var text := Symbols(values) + tail;
    if values == [] {
      assert text == tail;
      PrependNothing(Run(tail, q));
    } else {
      var next := AfterSymbol(q, values[0]);
      SymbolHasValue(values[0]);
      assert text[0] == Symbol(values[0]) && text[1..] == Symbols(values[1..]) + tail;
      RunSymbols(values[1..], tail, next);
      PrependJoins(Completed(q, values[0]), Emitted(values[1..], next), Run(tail, StateAfter(values, q)));
    }
  }

  lemma EmittedFirst(v: Sextet, rest: seq<Sextet>, q: Quad)
    requires q.Ok()
    ensures Emitted([v] + rest, q) == Completed(q, v) + Emitted(rest, AfterSymbol(q, v))
    ensures StateAfter([v] + rest, q) == StateAfter(rest, AfterSymbol(q, v))
  {
    assert ([v] + rest)[1..] == rest;
  }

  /** The first two symbols of a group complete a byte and leave four bits. */
  lemma EmittedTwo(v0: Sextet, v1: Sextet, rest: seq<Sextet>)
    ensures Emitted([v0, v1] + rest, START) == [v0 * 4 + v1 / 16] + Emitted(rest, Quad(2, v1 % 16, 0))
    ensures StateAfter([v0, v1] + rest, START) == StateAfter(rest, Quad(2, v1 % 16, 0))
  {
    assert [v0, v1] + rest == [v0] + ([v1] + rest);
    EmittedFirst(v0, [v1] + rest, START);
    EmittedFirst(v1, rest, Quad(1, v0, 0));
  }

  lemma EmittedThree(v0: Sextet, v1: Sextet, v2: Sextet, rest: seq<Sextet>)
    ensures Emitted([v0, v1, v2] + rest, START) == [v0 * 4 + v1 / 16, v1 % 16 * 16 + v2 / 4] + Emitted(rest, Quad(3, v2 % 4, 0))
    ensures StateAfter([v0, v1, v2] + rest, START) == StateAfter(rest, Quad(3, v2 % 4, 0))
  {
    assert [v0, v1, v2] + rest == [v0, v1] + ([v2] + rest);
    EmittedTwo(v0, v1, [v2] + rest);
    EmittedFirst(v2, rest, Quad(2, v1 % 16, 0));
  }

  lemma EmittedFour(v0: Sextet, v1: Sextet, v2: Sextet, v3: Sextet, rest: seq<Sextet>)
    ensures Emitted([v0, v1, v2, v3] + rest, START)
              == [v0 * 4 + v1 / 16, v1 % 16 * 16 + v2 / 4, v2 % 4 * 64 + v3] + Emitted(rest, START)
    ensures StateAfter([v0, v1, v2, v3] + rest, START) == StateAfter(rest, START)
  {
    assert [v0, v1, v2, v3] + rest == [v0, v1, v2] + ([v3] + rest);
    EmittedThree(v0, v1, v2, [v3] + rest);
    EmittedFirst(v3, rest, Quad(3, v2 % 4, 0));
  }

  /** The symbols of three bytes, and how the bytes are put together again from them. */
  lemma GroupBytes(a: Byte, b: Byte, c: Byte) returns (v0: Sextet, v1: Sextet, v2: Sextet, v3: Sextet)
    ensures v0 == a / 4 && v1 == a % 4 * 16 + b / 16 && v2 == b % 16 * 4 + c / 64 && v3 == c % 64
    ensures v0 * 4 + v1 / 16 == a && v1 % 16 * 16 + v2 / 4 == b && v2 % 4 * 64 + v3 == c
  {
    v0, v1, v2, v3 := a / 4, a % 4 * 16 + b / 16, b % 16 * 4 + c / 64, c % 64;
  }

  lemma EmittedGroup(a: Byte, b: Byte, c: Byte, values: seq<Sextet>, rest: seq<Sextet>)
    requires values == Group(a, b, c) + rest
    ensures Emitted(values, START) == [a, b, c] + Emitted(rest, START)
    ensures StateAfter(values, START) == StateAfter(rest, START)
  {
    var v0, v1, v2, v3 := GroupBytes(a, b, c);
    assert values == [v0, v1, v2, v3] + rest;
    EmittedFour(v0, v1, v2, v3, rest);
  }

  lemma EmittedOneByte(a: Byte, values: seq<Sextet>)
    requires values == [a / 4, a % 4 * 16]
    ensures Emitted(values, START) == [a] && StateAfter(values, START) == Quad(2, 0, 0)
  {
    var v0, v1, v2, v3 := GroupBytes(a, 0, 0);
    assert values == [v0, v1] + [] && v1 % 16 == 0;
    EmittedTwo(v0, v1, []);
  }

  lemma EmittedTwoBytes(a: Byte, b: Byte, values: seq<Sextet>)
    requires values == [a / 4, a % 4 * 16 + b / 16, b % 16 * 4]
    ensures Emitted(values, START) == [a, b] && StateAfter(values, START) == Quad(3, 0, 0)
  {
    var v0, v1, v2, v3 := GroupBytes(a, b, 0);
    assert values == [v0, v1, v2] + [] && v2 % 4 == 0;
    EmittedThree(v0, v1, v2, []);
  }

  /** The decoder's state when the symbols of `n` bytes are read. */
  function StateFor(n: nat): (q: Quad)
    ensures q.Ok()
  {
    if n == 0 then START else if n == 1 then Quad(2, 0, 0) else if n == 2 then Quad(3, 0, 0) else StateFor(n - 3)
  }

  lemma {:induction false} EmittedSextets(bytes: seq<Byte>)
    ensures Emitted(Sextets(bytes), START) == bytes && StateAfter(Sextets(bytes), START) == StateFor(|bytes|)
    decreases |bytes|, 1
  {
    if |bytes| == 1 {
      EmittedOneByte(bytes[0], Sextets(bytes));
    } else if |bytes| == 2 {
      EmittedTwoBytes(bytes[0], bytes[1], Sextets(bytes));
    } else if |bytes| > 2 {
      EmittedMore(bytes);
    }
  }

  lemma {:induction false} EmittedMore(bytes: seq<Byte>)
    requires |bytes| > 2
    ensures Emitted(Sextets(bytes), START) == bytes && StateAfter(Sextets(bytes), START) == StateFor(|bytes|)
    decreases |bytes|, 0
  {
    var rest := bytes[3..];
    EmittedGroup(bytes[0], bytes[1], bytes[2], Sextets(bytes), Sextets(rest));
    EmittedSextets(rest);
    assert bytes == [bytes[0], bytes[1], bytes[2]] + rest;
  }

  /** Counting the symbols in fours asks for as many pads as counting the bytes in threes. */
  lemma {:induction false} PadsAgree(bytes: seq<Byte>)
    ensures Short(|Sextets(bytes)|, 4) == Short(|bytes|, 3)
  {
    if |bytes| > 2 {
      PadsAgree(bytes[3..]);
      assert |Sextets(bytes)| == 4 + |Sextets(bytes[3..])|;
    }
  }

  lemma {:induction false} UnpaddedPads(body: string, n: nat)
    requires n < 4 && '=' !in body
    ensures Unpadded(body + Pads(n)) == body
  {
    if n > 0 {
      UnpaddedPads(body, n - 1);
      assert (body + Pads(n))[..|body| + n - 1] == body + Pads(n - 1);
    }
  }

  predicate Plain(c: char) { c != '.' && c != '=' && c < 128 as char }

  lemma SymbolsPlain(values: seq<Sextet>)
    ensures forall c <- Symbols(values) :: Plain(c)
  {
    forall i | 0 <= i < |values|
      ensures Plain(Symbols(values)[i])
    {
      SymbolHasValue(values[i]);
    }
  }

  lemma SegmentIsSymbols(bytes: seq<Byte>)
    ensures Segment(bytes) == Symbols(Sextets(bytes))
  {
    SymbolsPlain(Sextets(bytes));
    UnpaddedPads(Symbols(Sextets(bytes)), Short(|bytes|, 3));
  }

  /** A segment is made of alphabet symbols alone, and re-padding it gives back the text the
      padding was stripped from. */
  lemma SegmentRepads(bytes: seq<Byte>)
    ensures Repadded(Segment(bytes)) == Encode(bytes) && forall c <- Segment(bytes) :: Plain(c)
  {
    SegmentIsSymbols(bytes);
    SymbolsPlain(Sextets(bytes));
    PadsAgree(bytes);
  }

  /** Encode, strip, re-pad, decode: the identity on byte strings of every length. */
  lemma SegmentRoundTrip(bytes: seq<Byte>)
    ensures DecodeSegment(Segment(bytes)) == Some(bytes)
  {
    SegmentIsSymbols(bytes);
    SegmentRepads(bytes);
    EmittedSextets(bytes);
    var pads := Pads(Short(|bytes|, 3));
    RunSymbols(Sextets(bytes), pads, START);
    PadsEnd(|bytes|);
    assert bytes + [] == bytes;
  }

  lemma {:induction false} PadsEnd(n: nat)
    ensures Run(Pads(Short(n, 3)), StateFor(n)) == Some([])
  {
    if n == 1 {
      assert "=="[1..] == "=";
      assert Run("=", Quad(2, 0, 1)) == Some([]);
    } else if n > 2 {
      PadsEnd(n - 3);
    }
  }

  lemma {:induction false} StateCounts(values: seq<Sextet>, q: Quad)
    requires q.Ok() && q.pads == 0
    ensures StateAfter(values, q).pos == (q.pos + |values|) % 4 && StateAfter(values, q).pads == 0
  {
    if values != [] {
      StateCounts(values[1..], AfterSymbol(q, values[0]));
    }
  }

  lemma PadsEndIff(q: Quad)
    requires q.Ok() && q.pads == 0
    ensures Run(Pads(Short(q.pos, 4)), q).Some? <==> q.pos != 1
  {
    assert "==="[1..] == "==" && "=="[1..] == "=" && "="[1..] == "";
    if q.pos == 2 {
      assert Run("=", q.(pads := 1)) == Some([]);
    } else if q.pos == 1 {
      assert Run("=", q) == Run("", q) && Run("==", q) == Run("=", q);
    }
  }

  /** A segment of alphabet symbols is refused exactly when one symbol is left over after its
      groups of four: every other length decodes, whatever the unused bits of the last symbol. */
  lemma SymbolsDecodeIff(values: seq<Sextet>)
    ensures DecodeSegment(Symbols(values)).Some? <==> |values| % 4 != 1
  {
    StateCounts(values, START);
    var q := StateAfter(values, START);
    RunSymbols(values, Pads(Short(|values|, 4)), START);
    PadsEndIff(q);
  }
}

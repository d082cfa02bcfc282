/** core/security.py: issuing and checking access tokens in the compact form of section 3.1 of
    RFC 7515, with the padding rules of its appendix C and `exp` of section 4.1.4 of RFC 7519.
    The keyed hash and the JSON text form are parameters. Times are in microseconds. */
module AccessToken {
  import opened Text
  import opened Base64url

  const SECOND: int := 1_000_000

  /** ACCESS_TOKEN_EXPIRE_MINUTES */
  const DEFAULT_LIFETIME: int := 60 * 24 * 60 * SECOND

  /** A JSON value as `json.loads` gives it; of two members with one name the last counts. */
  datatype Json =
    | Null
    | Bool(b: bool)
    | Int(n: int)
    | Float(f: Float)
    | Str(s: string)
    | List(items: seq<Json>)
    | Object(members: map<string, Json>)

  datatype Float = Finite(r: real) | NaN | Infinity | MinusInfinity

  /** `mac` is the HMAC of a signing input under the server's key, `header` the UTF-8 bytes of the
      fixed header's JSON text, `dump` the UTF-8 bytes of a value's JSON text, `load` their
      reading: None for bytes that are not such text. */
  datatype Codec = Codec(mac: string -> seq<Byte>, header: seq<Byte>, dump: Json -> seq<Byte>, load: seq<Byte> -> Option<Json>)
  {
    /** Reading this value undoes printing it. */
    predicate ReadsBack(payload: Json)
    {
      load(dump(payload)) == Some(payload)
    }
  }

  datatype Verdict =
    | Accepted(payload: Json)
    | NotThreeParts | NotAscii | BadBase64 | BadSignature | NotJson | NotAnObject | NotANumber | Expired

  predicate Ascii(text: string)
  {
    forall i :: 0 <= i < |text| ==> text[i] < 128 as char
  }

  // ---- Issuing ----------------------------------------------------------------------------

  /** `int(moment.timestamp())`: truncation toward zero. */
  function Seconds(time: int): int
  {
    if time >= 0 then time / SECOND else -(-time / SECOND)
  }

  /** `expires_delta or default`: no delta and the zero delta both mean the default. */
  function Lifetime(delta: Option<int>): int
  {
    if delta.None? || delta.value == 0 then DEFAULT_LIFETIME else delta.value
  }

  function ClaimsFor(user: int, org: int, role: string, delta: Option<int>, now: int): Json
  {
    Object(map["sub" := Str(PrintInt(user)), "org" := Int(org), "role" := Str(role),
               "exp" := Int(Seconds(now + Lifetime(delta))), "iat" := Int(Seconds(now)), "type" := Str("access")])
  }

  function SigningInput(header: string, payload: string): string { header + "." + payload }

  function Token(codec: Codec, value: Json): string
  {
    var input := SigningInput(Segment(codec.header), Segment(codec.dump(value)));
    input + "." + Segment(codec.mac(input))
  }

  function Create(codec: Codec, user: int, org: int, role: string, delta: Option<int>, now: int): string
  {
    Token(codec, ClaimsFor(user, org, role, delta, now))
  }

  // ---- Checking ---------------------------------------------------------------------------

  /** Python truth. */
  predicate IsTrue(j: Json)
  {
    match j
    case Null => false
    case Bool(b) => b
    case Int(n) => n != 0
    case Float(f) => f != Finite(0.0)
    case Str(s) => s != ""
    case List(items) => items != []
    case Object(members) => members != map[]
  }

  /** `now > j`, for the clock in seconds: None where the comparison raises. */
  function Passed(now: int, j: Json): Option<bool>
  {
    match j
    case Bool(b) => Some(now > if b then SECOND else 0)
    case Int(n) => Some(now > n * SECOND)
    case Float(Finite(r)) => Some(now as real > r * SECOND as real)
    case Float(f) => Some(f.MinusInfinity?)
    case _ => None
  }

  /** What becomes of a payload whose signature is right. A missing `exp`, or one that Python takes
      for false, never expires. */
  function Judge(payload: Json, now: int): Verdict
  {
    if !payload.Object? then NotAnObject
    else if "exp" !in payload.members || !IsTrue(payload.members["exp"]) then Accepted(payload)
    else
      match Passed(now, payload.members["exp"])
      case None => NotANumber
      case Some(passed) => if passed then Expired else Accepted(payload)
  }

  function CheckClaims(codec: Codec, payload: string, now: int): Verdict
  {
    match DecodeSegment(payload)
    case None => BadBase64
    case Some(bytes) =>
      match codec.load(bytes)
      case None => NotJson
      case Some(value) => Judge(value, now)
  }

  function Check(codec: Codec, token: string, now: int): Verdict
  {
    var parts := Split(token, '.');
    if |parts| != 3 then NotThreeParts
    else
      var input := SigningInput(parts[0], parts[1]);
      if !Ascii(input) || !Ascii(parts[2]) then NotAscii
      else
        match DecodeSegment(parts[2])
        case None => BadBase64
        case Some(signature) =>
          if signature != codec.mac(input) then BadSignature else CheckClaims(codec, parts[1], now)
  }

  // ---- Shape ------------------------------------------------------------------------------

  lemma JoinThree(header: string, payload: string, signature: string)
    ensures Join([header, payload, signature], '.') == SigningInput(header, payload) + "." + signature
  {
    assert Join([signature], '.') == signature;
    assert [payload, signature][1..] == [signature];
    assert Join([payload, signature], '.') == payload + ['.'] + signature;
    assert [header, payload, signature][1..] == [payload, signature];
  }

  lemma ThreeParts(header: string, payload: string, signature: string)
    requires '.' !in header && '.' !in payload && '.' !in signature
    ensures Split(SigningInput(header, payload) + "." + signature, '.') == [header, payload, signature]
  {
    JoinThree(header, payload, signature);
    SplitJoin([header, payload, signature], '.');
  }

  /** A text is `header.payload.signature` with these dot-free pieces. */
  ghost predicate IsCompact(token: string, header: string, payload: string, signature: string)
  {
    && '.' !in header && '.' !in payload && '.' !in signature
    && token == SigningInput(header, payload) + "." + signature
  }

  lemma CompactIff(token: string, header: string, payload: string, signature: string)
    ensures IsCompact(token, header, payload, signature) <==> Split(token, '.') == [header, payload, signature]
  {
    if IsCompact(token, header, payload, signature) {
      ThreeParts(header, payload, signature);
    }
    if Split(token, '.') == [header, payload, signature] {
      var parts := Split(token, '.');
      JoinSplit(token, '.');
      assert '.' !in parts[0] && '.' !in parts[1] && '.' !in parts[2];
      JoinThree(header, payload, signature);
    }
  }

  lemma PlainText(text: string)
    requires forall c <- text :: Plain(c)
    ensures '.' !in text && Ascii(text)
  {
    forall i | 0 <= i < |text|
      ensures text[i] < 128 as char
    {
      assert Plain(text[i]);
    }
  }

  lemma SegmentPlain(bytes: seq<Byte>)
    ensures '.' !in Segment(bytes) && Ascii(Segment(bytes))
  {
    SegmentRepads(bytes);
    PlainText(Segment(bytes));
  }

  lemma AsciiInput(header: string, payload: string)
    ensures Ascii(SigningInput(header, payload)) <==> Ascii(header) && Ascii(payload)
  {
    var input := SigningInput(header, payload);
    assert forall i :: 0 <= i < |header| ==> input[i] == header[i];
    assert forall i :: 0 <= i < |payload| ==> input[|header| + 1 + i] == payload[i];
  }

  /** An issued token splits into exactly its three segments. */
  lemma TokenSplits(codec: Codec, value: Json)
    ensures var header, payload := Segment(codec.header), Segment(codec.dump(value));
            && IsCompact(Token(codec, value), header, payload, Segment(codec.mac(SigningInput(header, payload))))
            && Split(Token(codec, value), '.') == [header, payload, Segment(codec.mac(SigningInput(header, payload)))]
            && Ascii(SigningInput(header, payload)) && Ascii(Segment(codec.mac(SigningInput(header, payload))))
  {
    var header, payload := Segment(codec.header), Segment(codec.dump(value));
    var signature := Segment(codec.mac(SigningInput(header, payload)));
    SegmentPlain(codec.header);
    SegmentPlain(codec.dump(value));
    SegmentPlain(codec.mac(SigningInput(header, payload)));
    AsciiInput(header, payload);
    ThreeParts(header, payload, signature);
  }

  // ---- Round trip -------------------------------------------------------------------------

  /** A token issued for any payload is read back as that payload until the clock passes its
      `exp`, and refused from then on. */
  lemma TokenRoundTrip(codec: Codec, value: Json, now: int)
    requires codec.ReadsBack(value)
    ensures Check(codec, Token(codec, value), now) == Judge(value, now)
  {
    var header, payload := Segment(codec.header), Segment(codec.dump(value));
    var input := SigningInput(header, payload);
    TokenSplits(codec, value);
    SegmentRoundTrip(codec.mac(input));
    SegmentRoundTrip(codec.dump(value));
  }

  /** Seen from the caller: a created token is good up to a second before its lifetime ends and
      refused once the lifetime is over, the only exception being an expiry that truncates to
      second 0 of the epoch, which never takes effect. */
  lemma CreatedTokenLifetime(codec: Codec, user: int, org: int, role: string, delta: Option<int>, now: int, later: int)
    requires codec.ReadsBack(ClaimsFor(user, org, role, delta, now))
    ensures var verdict, end := Check(codec, Create(codec, user, org, role, delta, now), later), now + Lifetime(delta);
            && (verdict == Expired || verdict == Accepted(ClaimsFor(user, org, role, delta, now)))
            && (0 <= end && later <= end - SECOND ==> verdict.Accepted?)
            && (SECOND <= end < later ==> verdict == Expired)
            && (-SECOND < end < SECOND ==> verdict.Accepted?)
            // To the microsecond: the expiry is the end of the lifetime, cut to a whole second.
            && (SECOND <= end ==> (verdict == Expired <==> later > end - end % SECOND))
            && (end <= -SECOND ==> (verdict == Expired <==> later > end + -end % SECOND))
  {
    CreatedTokenVerdict(codec, user, org, role, delta, now, later);
  }

  lemma CreatedTokenVerdict(codec: Codec, user: int, org: int, role: string, delta: Option<int>, now: int, later: int)
    requires codec.ReadsBack(ClaimsFor(user, org, role, delta, now))
    ensures var exp := Seconds(now + Lifetime(delta));
            Check(codec, Create(codec, user, org, role, delta, now), later) ==
              if exp != 0 && later > exp * SECOND then Expired else Accepted(ClaimsFor(user, org, role, delta, now))
  {
    TokenRoundTrip(codec, ClaimsFor(user, org, role, delta, now), later);
  }

  /** The second an instant falls in, cut toward the epoch. */
  predicate IsSecondOf(s: int, time: int)
  {
    if time >= 0 then s * 1_000_000 <= time < (s + 1) * 1_000_000 else (s - 1) * 1_000_000 < time <= s * 1_000_000
  }

  lemma SecondsIs(s: int, time: int)
    ensures s == Seconds(time) <==> IsSecondOf(s, time)
  {
  }

  /** What the payload of an access token says. `lifetime` is in microseconds. */
  predicate Says(payload: Json, user: int, org: int, role: string, now: int, lifetime: int)
  {
    && payload.Object? && payload.members.Keys == {"sub", "org", "role", "exp", "iat", "type"}
    && (var m := payload.members;
        && m["sub"].Str? && ParseInt(m["sub"].s) == user
        && m["org"] == Int(org) && m["role"] == Str(role) && m["type"] == Str("access")
        && m["iat"].Int? && IsSecondOf(m["iat"].n, now)
        && m["exp"].Int? && IsSecondOf(m["exp"].n, now + lifetime))
  }

  /** Whoever presents a created token is read as the user, organization and role it was created
      for: whenever it is accepted, these are what its payload says, with the second of issue and
      the end of the lifetime, a day unless another one, not zero, was asked for. */
  lemma CreatedTokenSays(codec: Codec, user: int, org: int, role: string, delta: Option<int>, now: int, later: int, payload: Json)
    requires codec.ReadsBack(ClaimsFor(user, org, role, delta, now))
    requires Check(codec, Create(codec, user, org, role, delta, now), later) == Accepted(payload)
    ensures Says(payload, user, org, role, now, if delta.Some? && delta.value != 0 then delta.value else 86_400_000_000)
  {
    TokenRoundTrip(codec, ClaimsFor(user, org, role, delta, now), later);
    assert payload == ClaimsFor(user, org, role, delta, now);
    ClaimsSay(user, org, role, delta, now);
  }

  lemma ClaimsSay(user: int, org: int, role: string, delta: Option<int>, now: int)
    ensures Says(ClaimsFor(user, org, role, delta, now), user, org, role, now,
                 if delta.Some? && delta.value != 0 then delta.value else 86_400_000_000)
  {
    ParsePrintInt(user);
    SecondsIs(Seconds(now), now);
    SecondsIs(Seconds(now + Lifetime(delta)), now + Lifetime(delta));
  }

  /** The claims identify the request: user, organization and role can be read back. */
  lemma ClaimsIdentify(user: int, org: int, role: string, delta: Option<int>, now: int,
                       user': int, org': int, role': string, delta': Option<int>, now': int)
    requires ClaimsFor(user, org, role, delta, now) == ClaimsFor(user', org', role', delta', now')
    ensures user == user' && org == org' && role == role'
  {
    var a, b := ClaimsFor(user, org, role, delta, now).members, ClaimsFor(user', org', role', delta', now').members;
    assert a["sub"] == b["sub"] && a["org"] == b["org"] && a["role"] == b["role"];
    ParsePrintInt(user);
    ParsePrintInt(user');
  }

  // ---- What acceptance means --------------------------------------------------------------

  /** When an `exp` refuses a token, value by value: a number other than zero that the clock has
      passed expires it; a text, list or object that is not empty cannot be compared; anything
      that is missing or counts as nothing in Python lets it through. */
  lemma JudgeByExp(payload: Json, now: int)
    requires payload.Object?
    ensures "exp" !in payload.members ==> Judge(payload, now) == Accepted(payload)
    ensures "exp" in payload.members ==>
              var verdict := Judge(payload, now);
              match payload.members["exp"]
              case Null => verdict == Accepted(payload)
              case Bool(b) => verdict == if b && now > 1_000_000 then Expired else Accepted(payload)
              case Int(n) => verdict == if n != 0 && now > n * 1_000_000 then Expired else Accepted(payload)
              case Float(Finite(r)) => verdict == if r != 0.0 && now as real > r * 1_000_000.0 then Expired else Accepted(payload)
              case Float(MinusInfinity) => verdict == Expired
              case Float(_) => verdict == Accepted(payload)
              case Str(s) => verdict == if s != "" then NotANumber else Accepted(payload)
              case List(items) => verdict == if items != [] then NotANumber else Accepted(payload)
              case Object(members) => verdict == if members != map[] then NotANumber else Accepted(payload)
  {
  }

  /** Nothing of the payload is looked at before the signature is right. */
  lemma SignatureFirst(codec: Codec, token: string, now: int)
    requires Check(codec, token, now) !in {NotThreeParts, NotAscii, BadBase64, BadSignature}
    ensures exists header: string, payload: string, signature: string ::
              IsCompact(token, header, payload, signature)
              && DecodeSegment(signature) == Some(codec.mac(SigningInput(header, payload)))
  {
    var parts := Split(token, '.');
    assert parts == [parts[0], parts[1], parts[2]];
    CompactIff(token, parts[0], parts[1], parts[2]);
  }

  /** The pieces of an accepted token: the signature piece decodes to the keyed hash of the first
      two pieces exactly as they are printed, and the payload piece to an unexpired object. */
  ghost predicate Signed(codec: Codec, header: string, payload: string, signature: string, value: Json, now: int)
  {
    && Ascii(SigningInput(header, payload)) && Ascii(signature)
    && DecodeSegment(signature) == Some(codec.mac(SigningInput(header, payload)))
    && DecodeSegment(payload).Some? && codec.load(DecodeSegment(payload).value) == Some(value)
    && Unexpired(value, now)
  }

  /** The value is an object, and its `exp` is missing, false to Python, or a number the clock has
      not passed. */
  predicate Unexpired(value: Json, now: int)
  {
    && value.Object?
    && ("exp" in value.members && IsTrue(value.members["exp"]) ==> Passed(now, value.members["exp"]) == Some(false))
  }

  lemma AcceptedIffSigned(codec: Codec, token: string, value: Json, now: int)
    ensures Check(codec, token, now) == Accepted(value) <==>
              exists header: string, payload: string, signature: string ::
                IsCompact(token, header, payload, signature) && Signed(codec, header, payload, signature, value, now)
  {
    var parts := Split(token, '.');
    if Check(codec, token, now) == Accepted(value) {
      assert parts == [parts[0], parts[1], parts[2]];
      CompactIff(token, parts[0], parts[1], parts[2]);
      assert Signed(codec, parts[0], parts[1], parts[2], value, now);
    }
    if header: string, payload: string, signature: string :|
      IsCompact(token, header, payload, signature) && Signed(codec, header, payload, signature, value, now) {
      CompactIff(token, header, payload, signature);
    }
  }

  /** Putting another header or payload in front of an issued token's signature is refused
      whenever the keyed hash tells the two signing inputs apart. */
  lemma ChangedTokenRefused(codec: Codec, value: Json, header: string, payload: string, now: int)
    requires '.' !in header && '.' !in payload && Ascii(SigningInput(header, payload))
    requires var issued := SigningInput(Segment(codec.header), Segment(codec.dump(value)));
             codec.mac(SigningInput(header, payload)) != codec.mac(issued)
    ensures var issued := SigningInput(Segment(codec.header), Segment(codec.dump(value)));
            Check(codec, SigningInput(header, payload) + "." + Segment(codec.mac(issued)), now) == BadSignature
  {
    var issued := SigningInput(Segment(codec.header), Segment(codec.dump(value)));
    SegmentPlain(codec.mac(issued));
    SegmentRoundTrip(codec.mac(issued));
    ThreeParts(header, payload, Segment(codec.mac(issued)));
  }
}

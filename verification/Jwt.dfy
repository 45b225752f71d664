// Demo tokens in compact form (app/core/auth.py): the three-part form of section 7.1 of RFC 7515 and
// the exp claim of section 4.1.4 of RFC 7519. JSON and HMAC are given functions.
module Jwt {
  import opened Prelude
  import opened Base64
  import opened Words

  datatype Json =
    | JNull | JBool(flag: bool) | JInt(value: int) | JNumber(number: real) | JString(text: string)
    | JList(items: seq<Json>) | JObject(fields: map<string, Json>)

  // json.dumps(...).encode(), json.loads (None for its ValueError) and HMAC-SHA256 of an ASCII text.
  datatype Library = Library(
    dumps: Json -> seq<Byte>, loads: seq<Byte> -> Option<Json>, hmac: (string, string) -> seq<Byte>)

  datatype Settings = Settings(issuer: string, audience: string, secret: string)

  datatype Context = Context(tenantId: string, subject: string, scopes: seq<string>)

  datatype Unauthorized =
    | InvalidFormat | InvalidEncoding | InvalidContent | UnsupportedAlgorithm | InvalidSignature
    | MissingClaim(claim: string) | InvalidIssuer | InvalidAudience | Expired

  // str.split(".")
  function Split(s: string): (parts: seq<string>)
    ensures parts != []
  {
    if s == "" then [""]
    else if s[0] == '.' then [""] + Split(s[1..])
    else
      var rest := Split(s[1..]);
      [[s[0]] + rest[0]] + rest[1..]
  }

  // int(...) of a time stamp truncates toward zero.
  function Truncate(x: real): int
  {
    if x >= 0.0 then x.Floor else -((-x).Floor)
  }

  function Strings(texts: seq<string>): seq<Json>
  {
    seq(|texts|, i requires 0 <= i < |texts| => JString(texts[i]))
  }

  const HEADER := JObject(map["alg" := JString("HS256"), "typ" := JString("JWT")])

  function Payload(s: Settings, tenantId: string, subject: string, scopes: seq<string>, issued: real,
                   lifetime: real): Json
  {
    JObject(map[
      "iss" := JString(s.issuer), "aud" := JString(s.audience), "sub" := JString(subject),
      "tenant_id" := JString(tenantId), "scopes" := JList(Strings(scopes)),
      "iat" := JInt(Truncate(issued)), "exp" := JInt(Truncate(issued + lifetime))])
  }

  function SigningInput(lib: Library, payload: Json): string
  {
    Encode(lib.dumps(HEADER)) + "." + Encode(lib.dumps(payload))
  }

  function EncodeJwt(lib: Library, payload: Json, secret: string): string
  {
    var input := SigningInput(lib, payload);
    input + "." + Encode(lib.hmac(secret, input))
  }

  function CreateJwt(lib: Library, s: Settings, tenantId: string, subject: string, scopes: seq<string>,
                     issued: real, lifetime: real): string
  {
    EncodeJwt(lib, Payload(s, tenantId, subject, scopes, issued, lifetime), s.secret)
  }

  datatype Parts = Parts(header: map<string, Json>, payload: map<string, Json>, input: string, signature: seq<Byte>)

  function LoadJson(lib: Library, text: string): Option<Json>
  {
    match Decode(text)
    case Ok(bytes) => lib.loads(bytes)
    case Err(_) => None
  }

  function DecodeParts(lib: Library, token: string): Result<Parts, Unauthorized>
  {
    var parts := Split(token);
    if |parts| != 3 then Err(InvalidFormat)
    else
      var header, payload, signature := LoadJson(lib, parts[0]), LoadJson(lib, parts[1]), Decode(parts[2]);
      if header.None? || payload.None? || signature.Err? then Err(InvalidEncoding)
      else if !header.value.JObject? || !payload.value.JObject? then Err(InvalidContent)
      else Ok(Parts(header.value.fields, payload.value.fields, parts[0] + "." + parts[1], signature.value))
  }

  function Claim(m: map<string, Json>, name: string): Json
  {
    if name in m then m[name] else JNull
  }

  function RequiredString(m: map<string, Json>, name: string): Result<string, Unauthorized>
  {
    var v := Claim(m, name);
    if v.JString? && v.text != "" then Ok(v.text) else Err(MissingClaim(name))
  }

  // isinstance(value, int) holds of booleans too.
  function RequiredInt(m: map<string, Json>, name: string): Result<int, Unauthorized>
  {
    var v := Claim(m, name);
    if v.JInt? then Ok(v.value) else if v.JBool? then Ok(if v.flag then 1 else 0) else Err(MissingClaim(name))
  }

  predicate AudienceMatches(v: Json, expected: string)
  {
    match v
    case JString(text) => text == expected
    case JList(items) => JString(expected) in items
    case _ => false
  }

  predicate IsSpace(c: char) { c == ' ' || c == '\t' || c == '\n' || c == '\r' }

  // The strings of a list of nothing but strings.
  function Texts(items: seq<Json>): seq<string>
  {
    if forall i :: 0 <= i < |items| ==> items[i].JString? then
      seq(|items|, i requires 0 <= i < |items| && items[i].JString? => items[i].text)
    else []
  }

  function Scopes(m: map<string, Json>): seq<string>
  {
    var v := if "scopes" in m then m["scopes"] else JNull;
    if v.JString? then Tokens(IsSpace, v.text, "")
    else if v.JList? then Texts(v.items)
    else []
  }

  // What validate_demo_jwt checks once the signature is right.
  function CheckClaims(m: map<string, Json>, s: Settings, now: real): Result<Context, Unauthorized>
  {
    var iss, exp := RequiredString(m, "iss"), RequiredInt(m, "exp");
    var tenant, sub := RequiredString(m, "tenant_id"), RequiredString(m, "sub");
    if iss.Err? then Err(iss.error)
    else if iss.value != s.issuer then Err(InvalidIssuer)
    else if !AudienceMatches(Claim(m, "aud"), s.audience) then Err(InvalidAudience)
    else if exp.Err? then Err(exp.error)
    else if exp.value <= Truncate(now) then Err(Expired)
    else if tenant.Err? then Err(tenant.error)
    else if sub.Err? then Err(sub.error)
    else Ok(Context(tenant.value, sub.value, Scopes(m)))
  }

  function ValidateJwt(lib: Library, token: string, s: Settings, now: real): Result<Context, Unauthorized>
  {
    match DecodeParts(lib, token)
    case Err(e) => Err(e)
    case Ok(p) =>
      if Claim(p.header, "alg") != JString("HS256") then Err(UnsupportedAlgorithm)
      else if p.signature != lib.hmac(s.secret, p.input) then Err(InvalidSignature)
      else CheckClaims(p.payload, s, now)
  }

  // ----- Printing and parsing -----

  predicate DotFree(s: string)
  {
    forall i :: 0 <= i < |s| ==> s[i] != '.'
  }

  lemma {:induction false} SplitFirst(a: string, rest: string)
    requires DotFree(a)
    ensures Split(a) == [a]
    ensures Split(a + "." + rest) == [a] + Split(rest)
  {
    var s := a + "." + rest;
    if a == "" {
      assert s == "." + rest && s[1..] == rest;
    } else {
      SplitFirst(a[1..], rest);
      assert s[1..] == a[1..] + "." + rest;
      assert [a[0]] + a[1..] == a;
    }
  }

  // A dot is not in the alphabet, so a printed token splits into exactly what was joined.
  lemma SplitUndoesJoin(a: string, b: string, c: string)
    requires DotFree(a) && DotFree(b) && DotFree(c)
    ensures Split(a + "." + b + "." + c) == [a, b, c]
  {
    assert a + "." + b + "." + c == a + "." + (b + "." + c);
    SplitFirst(a, b + "." + c);
    SplitFirst(b, c);
    SplitFirst(c, "");
  }

  lemma EncodedIsDotFree(b: seq<Byte>)
    ensures DotFree(Encode(b))
  {
    PaddedSplits(b);
    var e := Encode(b);
    forall i | 0 <= i < |e| ensures e[i] != '.' { assert IsLetter(e[i]); }
  }

  // A printed token parses back to its header, claims, signing input and signature.
  lemma DecodePartsUndoesEncode(lib: Library, payload: Json, secret: string)
    requires payload.JObject? && lib.loads(lib.dumps(HEADER)) == Some(HEADER)
              && lib.loads(lib.dumps(payload)) == Some(payload)
    ensures DecodeParts(lib, EncodeJwt(lib, payload, secret))
              == Ok(Parts(HEADER.fields, payload.fields, SigningInput(lib, payload),
                          lib.hmac(secret, SigningInput(lib, payload))))
  {
    var h, p := Encode(lib.dumps(HEADER)), Encode(lib.dumps(payload));
    var sig := Encode(lib.hmac(secret, SigningInput(lib, payload)));
    EncodedIsDotFree(lib.dumps(HEADER));
    EncodedIsDotFree(lib.dumps(payload));
    EncodedIsDotFree(lib.hmac(secret, SigningInput(lib, payload)));
    SplitUndoesJoin(h, p, sig);
    DecodeUndoesEncode(lib.dumps(HEADER));
    DecodeUndoesEncode(lib.dumps(payload));
    DecodeUndoesEncode(lib.hmac(secret, SigningInput(lib, payload)));
  }

  lemma ScopesRoundTrip(scopes: seq<string>, m: map<string, Json>)
    requires "scopes" in m && m["scopes"] == JList(Strings(scopes))
    ensures Scopes(m) == scopes
  {
    assert forall i :: 0 <= i < |scopes| ==> Strings(scopes)[i] == JString(scopes[i]);
  }

  lemma CreatedClaimsPass(creator: Settings, checker: Settings, tenantId: string, subject: string,
                          scopes: seq<string>, issued: real, lifetime: real, now: real)
    ensures var answer :=
              CheckClaims(Payload(creator, tenantId, subject, scopes, issued, lifetime).fields, checker, now);
            && (answer.Ok? <==>
                  && Truncate(now) < Truncate(issued + lifetime)
                  && creator.issuer == checker.issuer && checker.issuer != "" && creator.audience == checker.audience
                  && tenantId != "" && subject != "")
            && (answer.Ok? ==> answer.value == Context(tenantId, subject, scopes))
  {
    var m := Payload(creator, tenantId, subject, scopes, issued, lifetime).fields;
    ScopesRoundTrip(scopes, m);
    assert Claim(m, "iss") == JString(creator.issuer) && Claim(m, "aud") == JString(creator.audience);
    assert Claim(m, "tenant_id") == JString(tenantId) && Claim(m, "sub") == JString(subject);
    assert Claim(m, "exp") == JInt(Truncate(issued + lifetime));
  }

  // A token created under the settings creator is accepted under the settings checker exactly while it has
  // not reached the whole second it expires at, its claims are nonempty, issuer and audience are the expected ones
  // and the signature is what the other secret gives; then it yields the tenant, subject and scopes it was created
  // with.
  lemma CreatedTokenValidates(lib: Library, creator: Settings, checker: Settings, tenantId: string, subject: string,
                              scopes: seq<string>, issued: real, lifetime: real, now: real)
    requires var payload := Payload(creator, tenantId, subject, scopes, issued, lifetime);
             lib.loads(lib.dumps(HEADER)) == Some(HEADER) && lib.loads(lib.dumps(payload)) == Some(payload)
    ensures var payload, end := Payload(creator, tenantId, subject, scopes, issued, lifetime), issued + lifetime;
            var answer :=
              ValidateJwt(lib, CreateJwt(lib, creator, tenantId, subject, scopes, issued, lifetime), checker, now);
            && (answer.Ok? <==>
                  && Unexpired(if end >= 0.0 then end.Floor else -((-end).Floor), now)
                  && creator.issuer == checker.issuer && checker.issuer != "" && creator.audience == checker.audience
                  && tenantId != "" && subject != ""
                  && lib.hmac(creator.secret, SigningInput(lib, payload))
                     == lib.hmac(checker.secret, SigningInput(lib, payload)))
            && (answer.Ok? ==> answer.value == Context(tenantId, subject, scopes))
  {
    var payload := Payload(creator, tenantId, subject, scopes, issued, lifetime);
    DecodePartsUndoesEncode(lib, payload, creator.secret);
    CreatedClaimsPass(creator, checker, tenantId, subject, scopes, issued, lifetime, now);
    UnexpiredIff(Truncate(issued + lifetime), now);
    assert Claim(HEADER.fields, "alg") == JString("HS256");
  }

  // ----- Time stamps -----

  // Truncation takes the whole seconds: of a nonnegative time those that have passed.
  lemma TruncateIsWholeSeconds(x: real)
    ensures x >= 0.0 ==> Truncate(x) == x.Floor
    ensures x < 0.0 ==> Truncate(x) as real - 1.0 < x <= Truncate(x) as real
  {
  }

  // A token that expires at the whole second n has not expired yet.
  ghost predicate Unexpired(n: int, now: real)
  {
    if now >= 0.0 then now < n as real else now <= (n - 1) as real
  }

  lemma UnexpiredIff(n: int, now: real)
    ensures Truncate(now) < n <==> Unexpired(n, now)
  {
  }

  lemma CreatedClaimsExpire(s: Settings, tenantId: string, subject: string, scopes: seq<string>,
                            issued: real, lifetime: real, now: real)
    requires s.issuer != "" && tenantId != "" && subject != ""
    ensures var answer := CheckClaims(Payload(s, tenantId, subject, scopes, issued, lifetime).fields, s, now);
            answer.Ok? || answer == Err(Expired)
  {
    var m := Payload(s, tenantId, subject, scopes, issued, lifetime).fields;
    assert Claim(m, "iss") == JString(s.issuer) && Claim(m, "aud") == JString(s.audience);
    assert Claim(m, "exp") == JInt(Truncate(issued + lifetime));
    assert Claim(m, "tenant_id") == JString(tenantId) && Claim(m, "sub") == JString(subject);
  }

  lemma CreatedTokenExpires(lib: Library, s: Settings, tenantId: string, subject: string, scopes: seq<string>,
                            issued: real, lifetime: real, now: real)
    requires var payload := Payload(s, tenantId, subject, scopes, issued, lifetime);
             lib.loads(lib.dumps(HEADER)) == Some(HEADER) && lib.loads(lib.dumps(payload)) == Some(payload)
    requires s.issuer != "" && tenantId != "" && subject != ""
    ensures var answer := ValidateJwt(lib, CreateJwt(lib, s, tenantId, subject, scopes, issued, lifetime), s, now);
            answer.Ok? || answer == Err(Expired)
  {
    DecodePartsUndoesEncode(lib, Payload(s, tenantId, subject, scopes, issued, lifetime), s.secret);
    assert Claim(HEADER.fields, "alg") == JString("HS256");
    CreatedClaimsExpire(s, tenantId, subject, scopes, issued, lifetime, now);
  }

  // A created token is accepted, by checkers with its issuer, audience and secret, exactly before the last whole
  // second of its lifetime ends: never after its lifetime, and all of it if that ends on a whole second.
  lemma CreatedTokenLives(lib: Library, s: Settings, tenantId: string, subject: string, scopes: seq<string>,
                          issued: real, lifetime: real, now: real)
    requires var payload := Payload(s, tenantId, subject, scopes, issued, lifetime);
             lib.loads(lib.dumps(HEADER)) == Some(HEADER) && lib.loads(lib.dumps(payload)) == Some(payload)
    requires now >= 0.0 && issued + lifetime >= 0.0 && s.issuer != "" && tenantId != "" && subject != ""
    ensures var answer := ValidateJwt(lib, CreateJwt(lib, s, tenantId, subject, scopes, issued, lifetime), s, now);
            && (answer.Ok? <==> now < (issued + lifetime).Floor as real)
            && (answer.Ok? ==> now < issued + lifetime && answer.value == Context(tenantId, subject, scopes))
            && ((issued + lifetime).Floor as real == issued + lifetime ==>
                  (answer.Ok? <==> now < issued + lifetime))
            && (answer.Err? ==> answer.error == Expired)
  {
    CreatedTokenValidates(lib, s, s, tenantId, subject, scopes, issued, lifetime, now);
    TruncateIsWholeSeconds(issued + lifetime);
    UnexpiredIff((issued + lifetime).Floor, now);
    CreatedTokenExpires(lib, s, tenantId, subject, scopes, issued, lifetime, now);
  }

  lemma PayloadCarries(s: Settings, tenantId: string, subject: string, scopes: seq<string>,
                       issued: real, lifetime: real)
    requires issued >= 0.0 && issued + lifetime >= 0.0
    ensures var m := Payload(s, tenantId, subject, scopes, issued, lifetime).fields;
            && m.Keys == {"iss", "aud", "sub", "tenant_id", "scopes", "iat", "exp"}
            && m["iss"] == JString(s.issuer) && m["aud"] == JString(s.audience)
            && m["sub"] == JString(subject) && m["tenant_id"] == JString(tenantId)
            && m["scopes"] == JList(Strings(scopes))
            && m["iat"] == JInt(issued.Floor) && m["exp"] == JInt((issued + lifetime).Floor)
  {
    TruncateIsWholeSeconds(issued);
    TruncateIsWholeSeconds(issued + lifetime);
  }

  // What a created token carries: the header, the claims, one by one, and its signature.
  lemma CreatedTokenCarries(lib: Library, s: Settings, tenantId: string, subject: string, scopes: seq<string>,
                            issued: real, lifetime: real)
    requires var payload := Payload(s, tenantId, subject, scopes, issued, lifetime);
             lib.loads(lib.dumps(HEADER)) == Some(HEADER) && lib.loads(lib.dumps(payload)) == Some(payload)
    requires issued >= 0.0 && issued + lifetime >= 0.0
    ensures var parts := DecodeParts(lib, CreateJwt(lib, s, tenantId, subject, scopes, issued, lifetime));
            && parts.Ok?
            && parts.value.header == map["alg" := JString("HS256"), "typ" := JString("JWT")]
            && parts.value.signature == lib.hmac(s.secret, parts.value.input)
            && var m := parts.value.payload;
               && m.Keys == {"iss", "aud", "sub", "tenant_id", "scopes", "iat", "exp"}
               && m["iss"] == JString(s.issuer) && m["aud"] == JString(s.audience)
               && m["sub"] == JString(subject) && m["tenant_id"] == JString(tenantId)
               && m["scopes"] == JList(Strings(scopes))
               && m["iat"] == JInt(issued.Floor) && m["exp"] == JInt((issued + lifetime).Floor)
  {
    DecodePartsUndoesEncode(lib, Payload(s, tenantId, subject, scopes, issued, lifetime), s.secret);
    PayloadCarries(s, tenantId, subject, scopes, issued, lifetime);
  }

  // ----- Any token -----

  function Dots(s: string): nat
  {
    if s == "" then 0 else (if s[0] == '.' then 1 else 0) + Dots(s[1..])
  }

  // Splitting takes a text apart at its dots and loses nothing.
  lemma {:induction false} SplitIsExact(s: string)
    ensures Join(Split(s), ".") == s && |Split(s)| == Dots(s) + 1
    ensures forall i :: 0 <= i < |Split(s)| ==> DotFree(Split(s)[i])
  {
    if s != "" {
      SplitIsExact(s[1..]);
      var rest := Split(s[1..]);
      assert s == [s[0]] + s[1..];
      if s[0] == '.' {
        assert ([""] + rest)[1..] == rest;
      } else {
        assert ([[s[0]] + rest[0]] + rest[1..])[1..] == rest[1..];
      }
    }
  }

  lemma JoinThree(a: string, b: string, c: string)
    ensures Join([a, b, c], ".") == a + "." + b + "." + c
  {
    assert [a, b, c][1..] == [b, c] && [b, c][1..] == [c];
    assert Join([b, c], ".") == b + "." + c;
    assert a + "." + (b + "." + c) == a + "." + b + "." + c;
  }

  // A token is rejected for its format exactly if it has not two dots; otherwise it is three parts joined by them.
  lemma FormatIff(lib: Library, token: string, s: Settings, now: real)
    ensures ValidateJwt(lib, token, s, now) == Err(InvalidFormat) <==> Dots(token) != 2
    ensures Dots(token) == 2 ==>
              exists h: string, p: string, g: string :: IsToken(token, h, p, g)
  {
    SplitIsExact(token);
    if Dots(token) == 2 {
      var parts := Split(token);
      assert parts == [parts[0], parts[1], parts[2]];
      JoinThree(parts[0], parts[1], parts[2]);
      assert IsToken(token, parts[0], parts[1], parts[2]);
    }
  }

  ghost predicate IsToken(token: string, h: string, p: string, g: string)
  {
    token == h + "." + p + "." + g && DotFree(h) && DotFree(p) && DotFree(g)
  }

  // The part is base64url of what JSON reads as v.
  ghost predicate Reads(lib: Library, part: string, v: Json)
  {
    Decode(part).Ok? && lib.loads(Decode(part).value) == Some(v)
  }

  lemma PartsOfToken(lib: Library, token: string, h: string, p: string, g: string)
    requires IsToken(token, h, p, g)
    ensures Split(token) == [h, p, g]
  {
    SplitUndoesJoin(h, p, g);
  }

  // A token is rejected for its encoding exactly if one of its parts is no base64url, or one of the first two no
  // JSON; and for its content exactly if these are not both objects.
  lemma EncodingIff(lib: Library, token: string, h: string, p: string, g: string, s: Settings, now: real)
    requires IsToken(token, h, p, g)
    ensures var answer := ValidateJwt(lib, token, s, now);
            && (answer == Err(InvalidEncoding) <==>
                  Decode(g).Err? || (forall v :: !Reads(lib, h, v)) || forall v :: !Reads(lib, p, v))
            && (answer == Err(InvalidContent) <==>
                  && Decode(g).Ok?
                  && exists v, w :: Reads(lib, h, v) && Reads(lib, p, w) && !(v.JObject? && w.JObject?))
  {
    PartsOfToken(lib, token, h, p, g);
    var header, payload := LoadJson(lib, h), LoadJson(lib, p);
    assert header.Some? ==> Reads(lib, h, header.value);
    assert payload.Some? ==> Reads(lib, p, payload.value);
  }

  // ----- The checks of a well-formed token -----

  ghost predicate Names(m: map<string, Json>, name: string, text: string)
  {
    name in m && m[name] == JString(text)
  }

  ghost predicate NamesSomething(m: map<string, Json>, name: string)
  {
    exists text: string :: text != "" && Names(m, name, text)
  }

  ghost predicate MeantFor(m: map<string, Json>, audience: string)
  {
    Names(m, "aud", audience) || ("aud" in m && m["aud"].JList? && JString(audience) in m["aud"].items)
  }

  // The claim is the whole number n; JSON's true and false count as 1 and 0.
  ghost predicate IsNumber(m: map<string, Json>, name: string, n: int)
  {
    name in m && (m[name] == JInt(n) || (m[name] == JBool(true) && n == 1) || (m[name] == JBool(false) && n == 0))
  }

  lemma RequiredStringIff(m: map<string, Json>, name: string)
    ensures RequiredString(m, name)
              == if NamesSomething(m, name) then Ok(m[name].text) else Err(MissingClaim(name))
  {
    if name in m && m[name].JString? && m[name].text != "" { assert Names(m, name, m[name].text); }
  }

  lemma RequiredIntIff(m: map<string, Json>, name: string, n: int)
    ensures RequiredInt(m, name) == Ok(n) <==> IsNumber(m, name, n)
    ensures RequiredInt(m, name).Err? ==> RequiredInt(m, name) == Err(MissingClaim(name))
  {
  }

  // The claims are what the settings and the time ask for.
  ghost predicate ClaimsHold(m: map<string, Json>, s: Settings, now: real)
  {
    && s.issuer != "" && Names(m, "iss", s.issuer) && MeantFor(m, s.audience)
    && (exists n: int :: IsNumber(m, "exp", n) && Unexpired(n, now))
    && NamesSomething(m, "tenant_id") && NamesSomething(m, "sub")
  }

  // The first of the checks on the claims to fail gives the error.
  lemma FirstFailingClaim(m: map<string, Json>, s: Settings, now: real)
    ensures var answer := CheckClaims(m, s, now);
            && (!NamesSomething(m, "iss") ==> answer == Err(MissingClaim("iss")))
            && (NamesSomething(m, "iss") && !Names(m, "iss", s.issuer) ==> answer == Err(InvalidIssuer))
            && (s.issuer != "" && Names(m, "iss", s.issuer) ==>
                  && (!MeantFor(m, s.audience) ==> answer == Err(InvalidAudience))
                  && (MeantFor(m, s.audience) ==>
                        && ((forall n: int :: !IsNumber(m, "exp", n)) ==> answer == Err(MissingClaim("exp")))
                        && forall n: int :: IsNumber(m, "exp", n) ==>
                             && (!Unexpired(n, now) ==> answer == Err(Expired))
                             && (Unexpired(n, now) ==>
                                   && (!NamesSomething(m, "tenant_id") ==> answer == Err(MissingClaim("tenant_id")))
                                   && (NamesSomething(m, "tenant_id") && !NamesSomething(m, "sub") ==>
                                         answer == Err(MissingClaim("sub"))))))
  {
    RequiredStringIff(m, "iss");
    RequiredStringIff(m, "tenant_id");
    RequiredStringIff(m, "sub");
    var exp := RequiredInt(m, "exp");
    if exp.Ok? { RequiredIntIff(m, "exp", exp.value); }
    forall n: int | IsNumber(m, "exp", n) ensures exp == Ok(n) && (Truncate(now) < n <==> Unexpired(n, now)) {
      RequiredIntIff(m, "exp", n);
      UnexpiredIff(n, now);
    }
  }

  lemma ClaimsHoldIff(m: map<string, Json>, s: Settings, now: real)
    ensures var answer := CheckClaims(m, s, now);
            && (answer.Ok? <==> ClaimsHold(m, s, now))
            && (answer.Ok? ==>
                  && Names(m, "tenant_id", answer.value.tenantId) && Names(m, "sub", answer.value.subject)
                  && answer.value.scopes == Scopes(m))
  {
    FirstFailingClaim(m, s, now);
    RequiredStringIff(m, "iss");
    RequiredStringIff(m, "tenant_id");
    RequiredStringIff(m, "sub");
    var exp := RequiredInt(m, "exp");
    if exp.Ok? {
      RequiredIntIff(m, "exp", exp.value);
      UnexpiredIff(exp.value, now);
    }
  }

  // Any token whose first parts read as objects is accepted exactly if its algorithm is HS256, its signature is the
  // one of the two parts before it under the secret, and its claims hold; then the context is what they name. A
  // wrong algorithm is reported before a wrong signature, and that before any claim.
  lemma AcceptedIff(lib: Library, token: string, h: string, p: string, g: string, head: map<string, Json>,
                    m: map<string, Json>, s: Settings, now: real)
    requires IsToken(token, h, p, g) && Reads(lib, h, JObject(head)) && Reads(lib, p, JObject(m)) && Decode(g).Ok?
    ensures var answer, signed := ValidateJwt(lib, token, s, now), Decode(g).value == lib.hmac(s.secret, h + "." + p);
            && (answer.Ok? <==> Names(head, "alg", "HS256") && signed && ClaimsHold(m, s, now))
            && (answer.Ok? ==>
                  && Names(m, "tenant_id", answer.value.tenantId) && Names(m, "sub", answer.value.subject)
                  && answer.value.scopes == Scopes(m))
            && (!Names(head, "alg", "HS256") ==> answer == Err(UnsupportedAlgorithm))
            && (Names(head, "alg", "HS256") && !signed ==> answer == Err(InvalidSignature))
            && (Names(head, "alg", "HS256") && signed ==> answer == CheckClaims(m, s, now))
  {
    PartsOfToken(lib, token, h, p, g);
    ClaimsHoldIff(m, s, now);
  }

  lemma TextsAre(items: seq<Json>)
    ensures (forall i :: 0 <= i < |items| ==> items[i].JString?) ==>
              |Texts(items)| == |items| && forall i :: 0 <= i < |items| ==> items[i] == JString(Texts(items)[i])
    ensures (exists i :: 0 <= i < |items| && !items[i].JString?) ==> Texts(items) == []
  {
    if forall i :: 0 <= i < |items| ==> items[i].JString? {
      forall i | 0 <= i < |items| ensures items[i] == JString(Texts(items)[i]) {}
    }
  }

  // The scopes of a list of strings are these, those of a string are its words, and anything else has none.
  lemma ScopesAre(m: map<string, Json>)
    ensures "scopes" !in m || !(m["scopes"].JString? || m["scopes"].JList?) ==> Scopes(m) == []
    ensures "scopes" in m && m["scopes"].JString? ==>
              forall x :: x in Scopes(m) <==> IsWord(IsSpace, m["scopes"].text, x)
    ensures "scopes" in m && m["scopes"].JList? ==>
              var items := m["scopes"].items;
              && ((exists i :: 0 <= i < |items| && !items[i].JString?) ==> Scopes(m) == [])
              && ((forall i :: 0 <= i < |items| ==> items[i].JString?) ==>
                    |Scopes(m)| == |items| && forall i :: 0 <= i < |items| ==> items[i] == JString(Scopes(m)[i]))
  {
    if "scopes" in m && m["scopes"].JString? {
      forall x ensures x in Scopes(m) <==> IsWord(IsSpace, m["scopes"].text, x) {
        TokensAreWords(IsSpace, m["scopes"].text, x);
      }
    }
    if "scopes" in m && m["scopes"].JList? { TextsAre(m["scopes"].items); }
  }

  // Scopes written as one string with single spaces come back in order.
  lemma ScopeStringRoundTrip(m: map<string, Json>, scopes: seq<string>)
    requires forall i :: 0 <= i < |scopes| ==> scopes[i] != "" && Solid(IsSpace, scopes[i])
    requires Names(m, "scopes", Join(scopes, " "))
    ensures Scopes(m) == scopes
  {
    TokensUndoJoin(IsSpace, scopes, ' ');
  }
}

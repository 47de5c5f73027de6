/**
 The signed, short-lived link that lets a browser download an export
 (birr-track-backend/src/transactions/export-link.service.ts).
 */
module ExportLink {
  import opened Common
  import opened Base64Url

  const EXPORT_LINK_TTL_SECONDS: int := 120

  const SIGNING_CONTEXT: string := "transactions-export"

  datatype ExportAuth = ExportAuth(userId: Option<string>, businessId: Option<string>, role: Role,
                                   telegramUserId: string)

  datatype ExportQuery = ExportQuery(
    startDate: Option<string>, endDate: Option<string>, telegramUserId: Option<string>, status: Option<string>,
    bank: Option<string>, duplicate: Option<string>, edited: Option<string>)

  /** `exp` is None when it is not a finite number, `auth` and `query` when they are missing. */
  datatype Payload = Payload(v: int, exp: Option<int>, auth: Option<ExportAuth>, query: Option<ExportQuery>)

  const EMPTY_QUERY := ExportQuery(None, None, None, None, None, None, None)

  /** JSON text in UTF-8 and the keyed hash, both opaque, and the base64 alphabet, which is STANDARD. */
  datatype Codec = Codec(
    serialize: Payload -> seq<Byte>, parse: seq<Byte> -> Option<Payload>, mac: string -> seq<Byte>, alphabet: Alphabet)
  {
    ghost predicate Faithful() {
      && alphabet.Fits()
      && (forall p :: parse(serialize(p)) == Some(p) && serialize(p) != [])
      && (forall text :: |mac(text)| == 32)
    }
  }

  datatype LinkError = MissingToken | InvalidToken | TokenExpired | InvalidRole | InvalidBusiness

  datatype Grant = Grant(query: ExportQuery, auth: ExportAuth, iat: int, exp: int)

  /** `text.split('.')`. */
  function Split(text: string): (parts: seq<string>)
    ensures |parts| > 0
  {
    if text == "" then [""]
    else
      var rest := Split(text[1..]);
      if text[0] == '.' then [""] + rest else [[text[0]] + rest[0]] + rest[1..]
  }

  function Sign(codec: Codec, encodedPayload: string): string {
    UrlEncode(codec.alphabet, codec.mac(SIGNING_CONTEXT + "." + encodedPayload))
  }

  function Create(codec: Codec, now: int, query: ExportQuery, auth: ExportAuth): (string, int) {
    var expiresAt := now + EXPORT_LINK_TTL_SECONDS;
    var encodedPayload := UrlEncode(codec.alphabet,
                                    codec.serialize(Payload(1, Some(expiresAt), Some(auth), Some(query))));
    (encodedPayload + "." + Sign(codec, encodedPayload), expiresAt)
  }

  /** The source destructures the first three parts; a missing or empty one is falsy. */
  function PartAt(parts: seq<string>, i: nat): string {
    if i < |parts| then parts[i] else ""
  }

  function Verify(codec: Codec, token: Option<string>, now: int): Result<Grant, LinkError> {
    if token.None? || token.value == "" then Err(MissingToken)
    else
      var parts := Split(token.value);
      var encodedPayload, providedSignature, extra := PartAt(parts, 0), PartAt(parts, 1), PartAt(parts, 2);
      if encodedPayload == "" || providedSignature == "" || extra != ""
        || Sign(codec, encodedPayload) != providedSignature
      then Err(InvalidToken)
      else Open(codec, encodedPayload, now)
  }

  /** What happens to a payload whose signature matched. */
  function Open(codec: Codec, encodedPayload: string, now: int): Result<Grant, LinkError> {
    match UrlDecode(codec.alphabet, encodedPayload)
    case None => Err(InvalidToken)
    case Some(bytes) =>
      match codec.parse(bytes)
      case None => Err(InvalidToken)
      case Some(payload) => Admit(payload, now)
  }

  function Admit(payload: Payload, now: int): Result<Grant, LinkError> {
    if payload.v != 1 || payload.exp.None? || payload.exp.value < now
      || payload.exp.value > now + EXPORT_LINK_TTL_SECONDS
    then Err(TokenExpired)
    else if payload.auth.None? || payload.auth.value.role == Waiter then Err(InvalidRole)
    else if payload.auth.value.role != PlatformOwner
      && (payload.auth.value.businessId == None || payload.auth.value.businessId == Some(""))
    then Err(InvalidBusiness)
    else
      var query := if payload.query.Some? then payload.query.value else EMPTY_QUERY;
      Ok(Grant(query, payload.auth.value, now, payload.exp.value))
  }

  /** Who may download exports at all. */
  predicate MayExport(auth: ExportAuth) {
    auth.role != Waiter && (auth.role == PlatformOwner || (auth.businessId.Some? && auth.businessId.value != ""))
  }

  // -------------------------------------------------------------------- framing

  lemma {:induction false} SplitPlain(a: string)
    requires '.' !in a
    ensures Split(a) == [a]
  {
    if a != "" {
      SplitPlain(a[1..]);
      assert [a[0]] + a[1..] == a;
    }
  }

  lemma {:induction false} SplitAtDot(a: string, rest: string)
    requires '.' !in a
    ensures Split(a + ("." + rest)) == [a] + Split(rest)
  {
    var text := a + ("." + rest);
    if a == "" {
      assert text == "." + rest;
      assert text[1..] == rest;
    } else {
      assert text[1..] == a[1..] + ("." + rest);
      SplitAtDot(a[1..], rest);
      assert [a[0]] + a[1..] == a;
    }
  }

  /** The unpadded base64url text of the keyed hash of the context, a dot and the payload. */
  function Signature(codec: Codec, encoded: string): string {
    UrlEncode(codec.alphabet, codec.mac("transactions-export." + encoded))
  }

  lemma SignIsTheSignature(codec: Codec, encoded: string)
    ensures Sign(codec, encoded) == Signature(codec, encoded)
  {
    assert SIGNING_CONTEXT + "." + encoded == "transactions-export." + encoded;
  }

  /** An issued token splits back into its two parts. */
  lemma IssuedTokenSplits(codec: Codec, now: int, query: ExportQuery, auth: ExportAuth)
    requires codec.Faithful()
    ensures var encoded := UrlEncode(codec.alphabet,
                                     codec.serialize(Payload(1, Some(now + 120), Some(auth), Some(query))));
            Split(Create(codec, now, query, auth).0) == [encoded, Signature(codec, encoded)]
            && encoded != "" && Signature(codec, encoded) != ""
  {
    var bytes := codec.serialize(Payload(1, Some(now + 120), Some(auth), Some(query)));
    var encoded := UrlEncode(codec.alphabet, bytes);
    var signature := Signature(codec, encoded);
    SignIsTheSignature(codec, encoded);
    UrlEncodeAlphabet(codec.alphabet, bytes);
    UrlEncodeAlphabet(codec.alphabet, codec.mac("transactions-export." + encoded));
    assert encoded + "." + signature == encoded + ("." + signature);
    SplitAtDot(encoded, signature);
    SplitPlain(signature);
  }

  /**
   A token issued at `t` verifies at `now` exactly when its bearer may export and
   `t <= now <= t + 120`, and then gives back the query and identity it was issued for.
   */
  lemma IssuedTokenVerifiesInWindow(codec: Codec, t: int, now: int, query: ExportQuery, auth: ExportAuth)
    requires codec.Faithful()
    ensures var token := Create(codec, t, query, auth).0;
            && (Verify(codec, Some(token), now).Ok? <==> MayExport(auth) && t <= now <= t + 120)
            && (Verify(codec, Some(token), now).Ok? ==>
                Verify(codec, Some(token), now) == Ok(Grant(query, auth, now, t + 120)))
  {
    var payload := Payload(1, Some(t + 120), Some(auth), Some(query));
    IssuedTokenSplits(codec, t, query, auth);
    SignIsTheSignature(codec, UrlEncode(codec.alphabet, codec.serialize(payload)));
    UrlRoundTrip(codec.alphabet, codec.serialize(payload));
    assert codec.parse(codec.serialize(payload)) == Some(payload);
  }

  /** The first part of split text, and the text behind its dot. */
  lemma {:induction false} SplitHead(text: string) returns (head: string, rest: string)
    ensures '.' !in head && Split(text)[0] == head
    ensures if |Split(text)| == 1 then text == head && rest == ""
            else text == head + ("." + rest) && Split(rest) == Split(text)[1..]
  {
    if text == "" {
      return "", "";
    }
    if text[0] == '.' {
      assert text == "" + ("." + text[1..]);
      return "", text[1..];
    }
    var h, r := SplitHead(text[1..]);
    head, rest := [text[0]] + h, r;
    if |Split(text)| > 1 {
      assert text == [text[0]] + (h + ("." + r));
    } else {
      assert text == [text[0]] + text[1..];
    }
  }

  /** What may follow a signature unnoticed: nothing, a final dot, or two dots and anything. */
  predicate Unnoticed(suffix: string) {
    suffix == "" || suffix == "." || (|suffix| >= 2 && suffix[0] == '.' && suffix[1] == '.')
  }

  lemma SplitUnnoticed(a: string, suffix: string)
    requires '.' !in a && Unnoticed(suffix)
    ensures Split(a + suffix)[0] == a && PartAt(Split(a + suffix), 1) == ""
  {
    if suffix == "" {
      assert a + suffix == a;
      SplitPlain(a);
    } else {
      assert suffix == "." + suffix[1..];
      SplitAtDot(a, suffix[1..]);
    }
  }

  /** The parts of a framed token that `Verify` looks at. */
  lemma SplitFramed(encoded: string, signature: string, suffix: string)
    requires '.' !in encoded && '.' !in signature && Unnoticed(suffix)
    ensures var parts := Split(encoded + ("." + (signature + suffix)));
            PartAt(parts, 0) == encoded && PartAt(parts, 1) == signature && PartAt(parts, 2) == ""
  {
    SplitAtDot(encoded, signature + suffix);
    SplitUnnoticed(signature, suffix);
    var tail := Split(signature + suffix);
    assert Split(encoded + ("." + (signature + suffix))) == [encoded] + tail;
    assert PartAt([encoded] + tail, 2) == PartAt(tail, 1);
  }

  ghost predicate Framed(codec: Codec, token: string, encoded: string, suffix: string) {
    && '.' !in encoded && encoded != "" && Unnoticed(suffix)
    && token == encoded + ("." + (Signature(codec, encoded) + suffix))
  }

  /** The payload that a text holds, and what `verify` asks of it and answers. */
  predicate Holds(codec: Codec, encoded: string, payload: Payload) {
    UrlDecode(codec.alphabet, encoded).Some? && codec.parse(UrlDecode(codec.alphabet, encoded).value) == Some(payload)
  }

  predicate Acceptable(payload: Payload, now: int) {
    && payload.v == 1
    && payload.exp.Some? && now <= payload.exp.value <= now + 120
    && payload.auth.Some? && MayExport(payload.auth.value)
  }

  function Granted(payload: Payload, now: int): Grant
    requires Acceptable(payload, now)
  {
    match payload.query
    case Some(query) => Grant(query, payload.auth.value, now, payload.exp.value)
    case None =>
      Grant(ExportQuery(None, None, None, None, None, None, None), payload.auth.value, now, payload.exp.value)
  }

  ghost predicate AcceptedAs(codec: Codec, token: string, now: int, grant: Grant, encoded: string, suffix: string,
                             payload: Payload)
  {
    && Framed(codec, token, encoded, suffix) && Holds(codec, encoded, payload)
    && Acceptable(payload, now) && grant == Granted(payload, now)
  }

  /**
   Exactly which texts are accepted, and as what: an acceptable payload, a dot, the keyed hash of
   that payload, and a suffix that the three-part destructuring does not notice.
   */
  lemma AcceptedTokens(codec: Codec, token: string, now: int, grant: Grant)
    requires codec.Faithful()
    ensures Verify(codec, Some(token), now) == Ok(grant) <==>
            exists encoded, suffix, payload :: AcceptedAs(codec, token, now, grant, encoded, suffix, payload)
  {
    if Verify(codec, Some(token), now) == Ok(grant) {
      var encoded, suffix := Unframe(codec, token, now);
      FramedVerifies(codec, token, encoded, suffix, now);
      var payload := codec.parse(UrlDecode(codec.alphabet, encoded).value).value;
      assert AcceptedAs(codec, token, now, grant, encoded, suffix, payload);
    }
    forall encoded, suffix, payload | AcceptedAs(codec, token, now, grant, encoded, suffix, payload)
      ensures Verify(codec, Some(token), now) == Ok(grant)
    {
      FramedVerifies(codec, token, encoded, suffix, now);
    }
  }

  predicate InTime(payload: Payload, now: int) {
    payload.v == 1 && payload.exp.Some? && now <= payload.exp.value <= now + 120
  }

  predicate HasRole(payload: Payload) { payload.auth.Some? && payload.auth.value.role != Waiter }

  /** Which refusal a signed payload gets, and that an unsigned one gets none of these. */
  lemma RefusalsAreExact(codec: Codec, token: string, now: int, encoded: string, suffix: string, payload: Payload)
    requires codec.Faithful() && Framed(codec, token, encoded, suffix) && Holds(codec, encoded, payload)
    ensures Verify(codec, Some(token), now) == Err(TokenExpired) <==> !InTime(payload, now)
    ensures Verify(codec, Some(token), now) == Err(InvalidRole) <==> InTime(payload, now) && !HasRole(payload)
    ensures Verify(codec, Some(token), now) == Err(InvalidBusiness) <==>
            InTime(payload, now) && HasRole(payload) && !MayExport(payload.auth.value)
    ensures Verify(codec, Some(token), now).Ok? <==> Acceptable(payload, now)
  {
    FramedVerifies(codec, token, encoded, suffix, now);
  }

  ghost predicate SignedPayload(codec: Codec, token: string, encoded: string, suffix: string, payload: Payload) {
    Framed(codec, token, encoded, suffix) && Holds(codec, encoded, payload)
  }

  /** A token is missing exactly if it is absent or empty, and invalid exactly if it is no signed payload. */
  lemma InvalidExactlyIf(codec: Codec, token: Option<string>, now: int)
    requires codec.Faithful()
    ensures Verify(codec, token, now) == Err(MissingToken) <==> token == None || token == Some("")
    ensures token.Some? && token.value != "" ==>
              (Verify(codec, token, now) == Err(InvalidToken) <==>
               !exists encoded, suffix, payload :: SignedPayload(codec, token.value, encoded, suffix, payload))
  {
    if token.Some? && token.value != "" {
      forall encoded, suffix, payload | SignedPayload(codec, token.value, encoded, suffix, payload)
        ensures Verify(codec, token, now) != Err(InvalidToken)
      {
        FramedVerifies(codec, token.value, encoded, suffix, now);
      }
      if Verify(codec, token, now) != Err(InvalidToken) {
        var encoded, suffix := Unframe(codec, token.value, now);
        assert SignedPayload(codec, token.value, encoded, suffix,
                             codec.parse(UrlDecode(codec.alphabet, encoded).value).value);
      }
    }
  }

  lemma FramedVerifies(codec: Codec, token: string, encoded: string, suffix: string, now: int)
    requires codec.Faithful() && Framed(codec, token, encoded, suffix)
    ensures Verify(codec, Some(token), now) == Open(codec, encoded, now)
  {
    UrlEncodeAlphabet(codec.alphabet, codec.mac("transactions-export." + encoded));
    SignIsTheSignature(codec, encoded);
    SplitFramed(encoded, Signature(codec, encoded), suffix);
  }

  /** What the signature check lets through is framed. */
  lemma {:induction false} Unframe(codec: Codec, token: string, now: int) returns (encoded: string, suffix: string)
    requires Verify(codec, Some(token), now) != Err(MissingToken)
    requires Verify(codec, Some(token), now) != Err(InvalidToken)
    ensures Framed(codec, token, encoded, suffix) && Open(codec, encoded, now) == Verify(codec, Some(token), now)
  {
    var head, tail := SplitHead(token);
    var signature, rest := SplitHead(tail);
    encoded := head;
    SignIsTheSignature(codec, encoded);
    assert PartAt(Split(token), 1) == signature;
    if |Split(tail)| == 1 {
      suffix := "";
      assert signature + "" == tail;
    } else {
      suffix := "." + rest;
      assert signature + suffix == tail;
      assert Split(token)[2] == Split(rest)[0] == "";
      var first, more := SplitHead(rest);
    }
  }

  /** Two payloads under one signature have the same keyed hash. */
  lemma OneSignatureOneHash(codec: Codec, p: string, q: string, signature: string, now: int, later: int)
    requires codec.Faithful() && '.' !in p && '.' !in q && '.' !in signature
    requires Verify(codec, Some(p + ("." + signature)), now).Ok?
    requires Verify(codec, Some(q + ("." + signature)), later).Ok?
    ensures codec.mac("transactions-export." + p) == codec.mac("transactions-export." + q)
  {
    SignatureOf(codec, p, signature, now);
    SignatureOf(codec, q, signature, later);
    UrlEncodeInjective(codec.alphabet, codec.mac("transactions-export." + p), codec.mac("transactions-export." + q));
  }

  lemma SignatureOf(codec: Codec, p: string, signature: string, now: int)
    requires '.' !in p && '.' !in signature && Verify(codec, Some(p + ("." + signature)), now).Ok?
    ensures signature == Signature(codec, p)
  {
    SplitAtDot(p, signature);
    SplitPlain(signature);
    SignIsTheSignature(codec, p);
  }

  /** Two payloads whose keyed hashes are the same. */
  ghost predicate Collides(codec: Codec, p: string, q: string) {
    p != q && codec.mac("transactions-export." + p) == codec.mac("transactions-export." + q)
  }

  /**
   Behind the signature of an issued token only that token's payload is accepted, at whatever
   time, unless the keyed hash collides on the two payloads.
   */
  lemma IssuedSignatureFitsOnePayload(codec: Codec, t: int, query: ExportQuery, auth: ExportAuth, p: string, now: int)
    requires codec.Faithful() && '.' !in p
    ensures var encoded := UrlEncode(codec.alphabet,
                                     codec.serialize(Payload(1, Some(t + 120), Some(auth), Some(query))));
            var answer := Verify(codec, Some(p + ("." + Signature(codec, encoded))), now);
            && Create(codec, t, query, auth).0 == encoded + ("." + Signature(codec, encoded))
            && (answer.Ok? && !Collides(codec, encoded, p) ==> p == encoded && answer.value.auth == auth)
  {
    var payload := Payload(1, Some(t + 120), Some(auth), Some(query));
    var encoded := UrlEncode(codec.alphabet, codec.serialize(payload));
    var signature := Signature(codec, encoded);
    SignIsTheSignature(codec, encoded);
    assert encoded + "." + signature == encoded + ("." + signature);
    UrlEncodeAlphabet(codec.alphabet, codec.mac("transactions-export." + encoded));
    if Verify(codec, Some(p + ("." + signature)), now).Ok? {
      SignatureOf(codec, p, signature, now);
      UrlEncodeInjective(codec.alphabet, codec.mac("transactions-export." + p),
                         codec.mac("transactions-export." + encoded));
      if p == encoded {
        IssuedTokenVerifiesInWindow(codec, t, now, query, auth);
      }
    }
  }

  /**
   Tokens are not unique: only a non-empty third part is refused, so one dot behind a
   two-part token changes nothing.
   */
  lemma TrailingDotIsIgnored(codec: Codec, a: string, b: string, now: int)
    requires '.' !in a && '.' !in b
    ensures Verify(codec, Some(a + ("." + (b + "."))), now) == Verify(codec, Some(a + ("." + b)), now)
  {
    SplitAtDot(a, b);
    SplitPlain(b);
    SplitAtDot(a, b + ".");
    SplitAtDot(b, "");
    assert b + ("." + "") == b + ".";
  }
}

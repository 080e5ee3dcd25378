/** Signing and verification of webhook deliveries (`WebhookUtils` in
    src/utils/webhooks.ts). A signature header reads `t=<ts>,v1=<hex>`; the
    digest is HMAC-SHA256 under the shared secret of `"<ts>.<payload>"`. */
module Webhooks {
  import opened Wrappers
  import opened Json
  import opened Host
  import opened Text
  import opened Hex

  /** Seconds of clock skew accepted when no tolerance is given. */
  const DefaultTolerance: int := 300

  /** `WebhookVerificationOptions`; `None` is an omitted tolerance. */
  datatype VerificationOptions = VerificationOptions(tolerance: Option<int>)

  const NoOptions := VerificationOptions(None)

  /** `const { tolerance = 300 } = options`: only an omitted tolerance takes
      the default; an explicit 0 is kept. */
  function Tolerance(options: VerificationOptions): int {
    if options.tolerance.Some? then options.tolerance.value else DefaultTolerance
  }

  function Abs(x: int): nat {
    if x < 0 then -x else x
  }

  /** `Math.floor(Date.now() / 1000)` for a clock reading in milliseconds. */
  function ClockSeconds(clockMs: int): int {
    clockMs / 1000
  }

  /** The exact text that is signed. */
  function SignedPayload(timestamp: string, payload: string): string {
    timestamp + "." + payload
  }

  /** `crypto.createHmac('sha256', secret).update(signed, 'utf8').digest('hex')` */
  function ExpectedSignature(payload: string, secret: string, timestamp: string, rt: Runtime): string {
    HexEncode(rt.hmacSha256(secret, SignedPayload(timestamp, payload)))
  }

  /** The staleness test `Math.abs(now - parseInt(t)) > tolerance`. A
      timestamp that does not parse is `NaN`, and every comparison with
      `NaN` is false, so such a timestamp is never stale. */
  predicate OutsideTolerance(timestamp: Option<int>, now: int, tolerance: int) {
    match timestamp
    case None => false
    case Some(t) => Abs(now - t) > tolerance
  }

  /** The reasons verification throws internally (all caught). */
  datatype Rejection = InvalidSignatureFormat | TimestampOutsideTolerance | DigestLengthMismatch

  /** `crypto.timingSafeEqual(a, b)`: throws a RangeError when the lengths
      differ, otherwise compares every byte. */
  function TimingSafeEqual(a: seq<Byte>, b: seq<Byte>): (r: Result<bool, Rejection>)
    ensures r.Failure? <==> |a| != |b|
    ensures r.Success? ==> (r.value <==> a == b)
  {
    if |a| != |b| then Failure(DigestLengthMismatch) else Success(a == b)
  }

  /** The body of the `try` block of `verifySignature`: which of its three
      throws happens, if any. A malformed header throws first, a stale
      timestamp next, and a `v1` value that does not decode to 32 bytes
      makes the comparison throw. */
  function CheckSignature(payload: string, signature: string, secret: string,
                          options: VerificationOptions, clockMs: int, rt: Runtime): (r: Result<bool, Rejection>)
    ensures var t := FirstWithPrefix(Split(signature, ','), "t=");
            var v := FirstWithPrefix(Split(signature, ','), "v1=");
            var wellFormed := t.Some? && t.value != "" && v.Some? && v.value != "";
            && (r == Failure(InvalidSignatureFormat) <==> !wellFormed)
            && (r == Failure(TimestampOutsideTolerance)
                <==> wellFormed && OutsideTolerance(ParseInt(t.value), ClockSeconds(clockMs), Tolerance(options)))
            && (r == Failure(DigestLengthMismatch)
                <==> wellFormed && !OutsideTolerance(ParseInt(t.value), ClockSeconds(clockMs), Tolerance(options))
                     && |HexDecode(v.value)| != 32)
  {
    var elements := Split(signature, ',');
    var timestamp := FirstWithPrefix(elements, "t=");
    var sig := FirstWithPrefix(elements, "v1=");
    if timestamp.None? || timestamp.value == "" || sig.None? || sig.value == "" then
      Failure(InvalidSignatureFormat)
    else if OutsideTolerance(ParseInt(timestamp.value), ClockSeconds(clockMs), Tolerance(options)) then
      Failure(TimestampOutsideTolerance)
    else
      var expected := ExpectedSignature(payload, secret, timestamp.value, rt);
      HexRoundTrip(rt.hmacSha256(secret, SignedPayload(timestamp.value, payload)));
      TimingSafeEqual(HexDecode(sig.value), HexDecode(expected))
  }

  /** `WebhookUtils.verifySignature`: every internal failure is caught and
      becomes `false`. */
  function VerifySignature(payload: string, signature: string, secret: string,
                           options: VerificationOptions, clockMs: int, rt: Runtime): (r: bool)
    ensures r ==> var t := FirstWithPrefix(Split(signature, ','), "t=");
                  var v := FirstWithPrefix(Split(signature, ','), "v1=");
                  && t.Some? && t.value != "" && v.Some? && v.value != ""
                  && !OutsideTolerance(ParseInt(t.value), ClockSeconds(clockMs), Tolerance(options))
                  && |HexDecode(v.value)| == 32
  {
    match CheckSignature(payload, signature, secret, options, clockMs, rt)
    case Success(equal) => equal
    case Failure(_) => false
  }

  /** What verification accepts, stated without the intermediate throws: the
      first `t=` and first `v1=` elements are present and non-empty, the
      timestamp is not stale, and the `v1` text decodes to exactly the HMAC
      of `"<t>.<payload>"`. */
  lemma VerifySignatureIff(payload: string, signature: string, secret: string,
                           options: VerificationOptions, clockMs: int, rt: Runtime)
    ensures VerifySignature(payload, signature, secret, options, clockMs, rt) <==>
      var elements := Split(signature, ',');
      var t := FirstWithPrefix(elements, "t=");
      var v := FirstWithPrefix(elements, "v1=");
      && t.Some? && t.value != "" && v.Some? && v.value != ""
      && !OutsideTolerance(ParseInt(t.value), ClockSeconds(clockMs), Tolerance(options))
      && HexDecode(v.value) == rt.hmacSha256(secret, SignedPayload(t.value, payload))
  {
    var elements := Split(signature, ',');
    var t := FirstWithPrefix(elements, "t=");
    if t.Some? {
      HexRoundTrip(rt.hmacSha256(secret, SignedPayload(t.value, payload)));
    }
  }

  /** A header whose `t=` or `v1=` element is missing or empty is rejected
      before anything else is looked at. */
  lemma MalformedHeaderRejected(payload: string, signature: string, secret: string,
                                options: VerificationOptions, clockMs: int, rt: Runtime)
    requires var elements := Split(signature, ',');
             || (forall i :: 0 <= i < |elements| ==> !("t=" <= elements[i]))
             || (forall i :: 0 <= i < |elements| ==> !("v1=" <= elements[i]))
             || FirstWithPrefix(elements, "t=") == Some("")
             || FirstWithPrefix(elements, "v1=") == Some("")
    ensures CheckSignature(payload, signature, secret, options, clockMs, rt) == Failure(InvalidSignatureFormat)
    ensures !VerifySignature(payload, signature, secret, options, clockMs, rt)
  {
    var elements := Split(signature, ',');
    var t := FirstWithPrefix(elements, "t=");
    var v := FirstWithPrefix(elements, "v1=");
    assert t.None? || v.None? || t.value == "" || v.value == "";
  }

  /** The timestamp used for signing: `timestamp || now`, so an omitted
      timestamp and a timestamp of 0 both take the current time. */
  function SigningTimestamp(timestamp: Option<int>, clockMs: int): (ts: int)
    ensures timestamp.None? || timestamp == Some(0) ==> ts == ClockSeconds(clockMs)
    ensures timestamp.Some? && timestamp.value != 0 ==> ts == timestamp.value
  {
    if timestamp.Some? && timestamp.value != 0 then timestamp.value else ClockSeconds(clockMs)
  }

  /** `WebhookUtils.generateSignature`: `t=`, the decimal signing time,
      `,v1=` and 64 hex characters. */
  function GenerateSignature(payload: string, secret: string, timestamp: Option<int>,
                             clockMs: int, rt: Runtime): (sig: string)
    ensures var d := IntToDecimal(SigningTimestamp(timestamp, clockMs));
            && |sig| == |d| + 70
            && sig[..2] == "t=" && sig[2..2 + |d|] == d && sig[2 + |d|..6 + |d|] == ",v1="
  {
    var ts := IntToDecimal(SigningTimestamp(timestamp, clockMs));
    "t=" + ts + ",v1=" + ExpectedSignature(payload, secret, ts, rt)
  }

  lemma DecimalHasNoComma(n: int)
    ensures |IntToDecimal(n)| >= 1 && ',' !in IntToDecimal(n)
  {
    var d := NatToDecimal(if n < 0 then -n else n);
    assert forall i :: 0 <= i < |d| ==> d[i] != ',';
  }

  /** How the header `t=<d>,v1=<h>` splits when neither part has a comma. */
  lemma {:induction false} HeaderFields(d: string, h: string)
    requires ',' !in d && ',' !in h
    ensures Split("t=" + d + ",v1=" + h, ',') == ["t=" + d, "v1=" + h]
    ensures FirstWithPrefix(["t=" + d, "v1=" + h], "t=") == Some(d)
    ensures FirstWithPrefix(["t=" + d, "v1=" + h], "v1=") == Some(h)
  {
    var parts := ["t=" + d, "v1=" + h];
    assert Join(parts, ',') == "t=" + d + ",v1=" + h;
    SplitJoin(parts, ',');
    assert ("t=" + d)[..2] == "t=";
    assert ("t=" + d)[2..] == d;
    assert !("v1=" <= "t=" + d) by { assert ("t=" + d)[0] != 'v'; }
    assert ("v1=" + h)[3..] == h;
    assert FirstWithPrefix(parts[1..], "v1=") == Some(h);
  }

  /** A generated header has exactly two comma-separated fields: `t=` with
      the decimal signing time, and `v1=` with 64 lower-case hexadecimal
      characters that decode to the HMAC of `"<ts>.<payload>"`. */
  lemma GeneratedSignatureShape(payload: string, secret: string, timestamp: Option<int>,
                                clockMs: int, rt: Runtime)
    ensures var ts := SigningTimestamp(timestamp, clockMs);
            var parts := Split(GenerateSignature(payload, secret, timestamp, clockMs, rt), ',');
            && |parts| == 2
            && parts[0] == "t=" + IntToDecimal(ts)
            && ParseInt(IntToDecimal(ts)) == Some(ts)
            && |parts[1]| == 3 + 64 && parts[1][..3] == "v1="
            && (forall i :: 3 <= i < |parts[1]| ==> IsLowerHex(parts[1][i]))
            && HexDecode(parts[1][3..]) == rt.hmacSha256(secret, SignedPayload(IntToDecimal(ts), payload))
  {
    var ts := SigningTimestamp(timestamp, clockMs);
    var d := IntToDecimal(ts);
    var h := ExpectedSignature(payload, secret, d, rt);
    DecimalHasNoComma(ts);
    assert forall i :: 0 <= i < |h| ==> h[i] != ',';
    HeaderFields(d, h);
    ParseIntOfDecimal(ts);
    assert ("v1=" + h)[3..] == h;
    HexRoundTrip(rt.hmacSha256(secret, SignedPayload(d, payload)));
  }

  /** Header fields of a generated signature, as `verifySignature` reads them. */
  lemma GeneratedFields(payload: string, secret: string, timestamp: Option<int>, clockMs: int, rt: Runtime)
    ensures var d := IntToDecimal(SigningTimestamp(timestamp, clockMs));
            var elements := Split(GenerateSignature(payload, secret, timestamp, clockMs, rt), ',');
            && FirstWithPrefix(elements, "t=") == Some(d)
            && FirstWithPrefix(elements, "v1=") == Some(ExpectedSignature(payload, secret, d, rt))
            && d != [] && ExpectedSignature(payload, secret, d, rt) != []
  {
    var ts := SigningTimestamp(timestamp, clockMs);
    var d := IntToDecimal(ts);
    var h := ExpectedSignature(payload, secret, d, rt);
    DecimalHasNoComma(ts);
    assert forall i :: 0 <= i < |h| ==> h[i] != ',';
    HeaderFields(d, h);
  }

  /** Signing then verifying succeeds exactly when the verifier's clock is
      within the tolerance of the signing timestamp: the boundary
      `|now - ts| == tolerance` is accepted, one second more is rejected. */
  lemma GeneratedSignatureVerifiesIff(payload: string, secret: string, timestamp: Option<int>,
                                      signClockMs: int, options: VerificationOptions,
                                      verifyClockMs: int, rt: Runtime)
    ensures VerifySignature(payload, GenerateSignature(payload, secret, timestamp, signClockMs, rt),
                            secret, options, verifyClockMs, rt)
            <==> Abs(ClockSeconds(verifyClockMs) - SigningTimestamp(timestamp, signClockMs)) <= Tolerance(options)
  {
    var ts := SigningTimestamp(timestamp, signClockMs);
    GeneratedFields(payload, secret, timestamp, signClockMs, rt);
    ParseIntOfDecimal(ts);
  }

  /** The round trip the test suite checks: a signature generated now, with
      the default timestamp, verifies now under any non-negative tolerance. */
  lemma SignThenVerify(payload: string, secret: string, options: VerificationOptions,
                       clockMs: int, rt: Runtime)
    requires Tolerance(options) >= 0
    ensures VerifySignature(payload, GenerateSignature(payload, secret, None, clockMs, rt),
                            secret, options, clockMs, rt)
  {
    GeneratedSignatureVerifiesIff(payload, secret, None, clockMs, options, clockMs, rt);
  }

  /** A timestamp of 0 is treated as omitted. */
  lemma ZeroTimestampMeansNow(payload: string, secret: string, clockMs: int, rt: Runtime)
    ensures GenerateSignature(payload, secret, Some(0), clockMs, rt)
         == GenerateSignature(payload, secret, None, clockMs, rt)
         == "t=" + IntToDecimal(ClockSeconds(clockMs)) + ",v1="
            + ExpectedSignature(payload, secret, IntToDecimal(ClockSeconds(clockMs)), rt)
  {
  }

  /** A signature made for one payload is rejected for another payload
      unless the two signed texts have the same HMAC. */
  lemma TamperedPayloadRejected(payload: string, tampered: string, secret: string,
                                timestamp: Option<int>, signClockMs: int,
                                options: VerificationOptions, verifyClockMs: int, rt: Runtime)
    requires var d := IntToDecimal(SigningTimestamp(timestamp, signClockMs));
             rt.hmacSha256(secret, SignedPayload(d, tampered)) != rt.hmacSha256(secret, SignedPayload(d, payload))
    ensures !VerifySignature(tampered, GenerateSignature(payload, secret, timestamp, signClockMs, rt),
                             secret, options, verifyClockMs, rt)
  {
    var d := IntToDecimal(SigningTimestamp(timestamp, signClockMs));
    GeneratedFields(payload, secret, timestamp, signClockMs, rt);
    HexRoundTrip(rt.hmacSha256(secret, SignedPayload(d, payload)));
    HexRoundTrip(rt.hmacSha256(secret, SignedPayload(d, tampered)));
  }

  /** The HMAC covers the raw `t` text while the staleness test uses
      `parseInt` of it: a correctly signed header whose `t` does not parse
      (for instance `t=now`) verifies at every clock reading and under
      every tolerance. */
  lemma NonNumericTimestampSkipsTolerance(payload: string, secret: string, t: string,
                                          options: VerificationOptions, clockMs: int, rt: Runtime)
    requires t != [] && ',' !in t && ParseInt(t).None?
    ensures VerifySignature(payload, "t=" + t + ",v1=" + ExpectedSignature(payload, secret, t, rt),
                            secret, options, clockMs, rt)
  {
    var h := ExpectedSignature(payload, secret, t, rt);
    assert forall i :: 0 <= i < |h| ==> h[i] != ',';
    HeaderFields(t, h);
  }

  lemma AppendAssociative(a: string, b: string, c: string)
    ensures (a + b) + c == a + (b + c)
  {
  }

  /** Verification looks at a header only through its `t` text and the bytes
      its non-empty `v1` text decodes to. */
  lemma CheckSeesDecodedFields(payload: string, sig1: string, sig2: string, secret: string,
                               options: VerificationOptions, clockMs: int, rt: Runtime)
    requires FirstWithPrefix(Split(sig1, ','), "t=") == FirstWithPrefix(Split(sig2, ','), "t=")
    requires var v1 := FirstWithPrefix(Split(sig1, ','), "v1=");
             var v2 := FirstWithPrefix(Split(sig2, ','), "v1=");
             v1.Some? && v2.Some? && v1.value != "" && v2.value != "" && HexDecode(v1.value) == HexDecode(v2.value)
    ensures CheckSignature(payload, sig1, secret, options, clockMs, rt)
         == CheckSignature(payload, sig2, secret, options, clockMs, rt)
  {
  }

  /** Because Node's hex decoding stops at the first non-hexadecimal pair,
      text appended to a valid `v1` value does not change the verdict. */
  lemma TrailingTextAfterDigestIgnored(payload: string, secret: string, timestamp: Option<int>,
                                       signClockMs: int, junk: string,
                                       options: VerificationOptions, verifyClockMs: int, rt: Runtime)
    requires ',' !in junk && HexDecode(junk) == []
    ensures VerifySignature(payload, GenerateSignature(payload, secret, timestamp, signClockMs, rt) + junk,
                            secret, options, verifyClockMs, rt)
        <==> VerifySignature(payload, GenerateSignature(payload, secret, timestamp, signClockMs, rt),
                             secret, options, verifyClockMs, rt)
  {
    var ts := SigningTimestamp(timestamp, signClockMs);
    var d := IntToDecimal(ts);
    var digest := rt.hmacSha256(secret, SignedPayload(d, payload));
    var h := HexEncode(digest);
    var sig := GenerateSignature(payload, secret, timestamp, signClockMs, rt);
    DecimalHasNoComma(ts);
    assert forall i :: 0 <= i < |h| ==> h[i] != ',';
    var hj := h + junk;
    assert ',' !in hj by {
      forall i | 0 <= i < |hj| ensures hj[i] != ',' {
        if i >= |h| { assert hj[i] == junk[i - |h|]; }
      }
    }
    HeaderFields(d, h);
    HeaderFields(d, hj);
    var prefix := "t=" + d + ",v1=";
    assert sig == prefix + h;
    AppendAssociative(prefix, h, junk);
    assert HexDecode(hj) == digest by {
      HexDecodeOfEncodedPrefix(digest, junk);
      assert digest + [] == digest;
    }
    assert HexDecode(h) == digest by {
      HexRoundTrip(digest);
    }
    CheckSeesDecodedFields(payload, sig + junk, sig, secret, options, verifyClockMs, rt);
  }

  // ---------------------------------------------------------------------------
  // Payload parsing

  /** Why `parsePayload` throws: `JSON.parse` failed, the document is `null`
      (reading `.id` of it throws), or a required member is falsy. */
  datatype PayloadFault = JsonSyntaxError(message: string) | NullDocument(message: string) | InvalidStructure

  /** The envelope check of `parsePayload`, stated on the object's members:
      `id`, `timestamp` and `event` are all present and truthy. */
  predicate HasEnvelopeMembers(v: Value) {
    && v.Object?
    && "id" in v.fields && Truthy(v.fields["id"])
    && "timestamp" in v.fields && Truthy(v.fields["timestamp"])
    && "event" in v.fields && Truthy(v.fields["event"])
  }

  /** `WebhookUtils.parsePayload`: the parsed document is returned unchanged
      (a cast, not a conversion) when its envelope members are truthy. */
  function ParsePayload(raw: string, rt: Runtime): (r: Result<Value, PayloadFault>)
    ensures r.Success? <==> rt.parseJson(raw).Success? && HasEnvelopeMembers(rt.parseJson(raw).value)
    ensures r.Success? ==> r.value == rt.parseJson(raw).value
    ensures rt.parseJson(raw).Failure? ==> r == Failure(JsonSyntaxError(rt.parseJson(raw).error))
  {
    match rt.parseJson(raw)
    case Failure(message) => Failure(JsonSyntaxError(message))
    case Success(parsed) =>
      match Property(parsed, "id")
      case Failure(message) => Failure(NullDocument(message))
      case Success(id) =>
        if !Present(id)
           || !Present(Property(parsed, "timestamp").value)
           || !Present(Property(parsed, "event").value)
        then Failure(InvalidStructure)
        else Success(parsed)
  }

  /** `${error}` for each of the errors `parsePayload` can throw. */
  function PayloadErrorMessage(fault: PayloadFault): string {
    "Failed to parse webhook payload: " +
    match fault
    case JsonSyntaxError(m) => "SyntaxError: " + m
    case NullDocument(m) => "TypeError: " + m
    case InvalidStructure => "Error: Invalid webhook payload structure"
  }

  /** What `verifyAndParse` throws. */
  datatype WebhookError = SignatureVerificationFailed | MalformedPayload(fault: PayloadFault)

  /** The message of the thrown Error. */
  function ErrorMessage(e: WebhookError): string {
    match e
    case SignatureVerificationFailed => "Webhook signature verification failed"
    case MalformedPayload(fault) => PayloadErrorMessage(fault)
  }

  /** `WebhookUtils.verifyAndParse`: verify first, and parse only when the
      signature is valid (fail closed). */
  function VerifyAndParse(payload: string, signature: string, secret: string,
                          options: VerificationOptions, clockMs: int, rt: Runtime): (r: Result<Value, WebhookError>)
    ensures !VerifySignature(payload, signature, secret, options, clockMs, rt) ==> r == Failure(SignatureVerificationFailed)
    ensures r.Success? <==> VerifySignature(payload, signature, secret, options, clockMs, rt)
                            && rt.parseJson(payload).Success? && HasEnvelopeMembers(rt.parseJson(payload).value)
    ensures r.Success? ==> r.value == rt.parseJson(payload).value
  {
    if !VerifySignature(payload, signature, secret, options, clockMs, rt) then
      Failure(SignatureVerificationFailed)
    else
      match ParsePayload(payload, rt)
      case Success(v) => Success(v)
      case Failure(fault) => Failure(MalformedPayload(fault))
  }

  /** Whatever `JSON.parse` would do, a payload whose signature fails is
      never handed to it: the outcome does not depend on the parser. */
  lemma VerifyAndParseFailsClosed(payload: string, signature: string, secret: string,
                                  options: VerificationOptions, clockMs: int, rt: Runtime,
                                  otherParser: string -> Result<Value, string>)
    requires !VerifySignature(payload, signature, secret, options, clockMs, rt)
    ensures VerifyAndParse(payload, signature, secret, options, clockMs, rt)
         == VerifyAndParse(payload, signature, secret, options, clockMs, rt.(parseJson := otherParser))
         == Failure(SignatureVerificationFailed)
  {
    assert VerifySignature(payload, signature, secret, options, clockMs, rt)
        == VerifySignature(payload, signature, secret, options, clockMs, rt.(parseJson := otherParser));
  }

  // ---------------------------------------------------------------------------
  // Event kinds and the type guard

  /** The thirteen event kinds `isValidEventType` recognises. */
  const ValidEventTypes: seq<string> := [
    "payment.succeeded", "payment.failed", "payment.refunded",
    "order.created", "order.updated", "order.cancelled",
    "subscription.created", "subscription.updated", "subscription.cancelled",
    "customer.created", "customer.updated",
    "merchant.updated",
    "settlement.completed"
  ]

  /** `WebhookUtils.isValidEventType` (`validEventTypes.includes(eventType)`) */
  function IsValidEventType(eventType: string): (r: bool)
    ensures r <==> exists i :: 0 <= i < |ValidEventTypes| && ValidEventTypes[i] == eventType
  {
    eventType in ValidEventTypes
  }

  /** The list holds thirteen distinct names, each `<resource>.<action>`. */
  lemma ValidEventTypesCatalogue()
    ensures |ValidEventTypes| == 13
    ensures forall i, j :: 0 <= i < j < |ValidEventTypes| ==> ValidEventTypes[i] != ValidEventTypes[j]
    ensures forall i :: 0 <= i < |ValidEventTypes| ==> '.' in ValidEventTypes[i]
    ensures IsValidEventType("payment.succeeded") && IsValidEventType("order.created")
    ensures !IsValidEventType("invalid.event") && !IsValidEventType("bogus.kind")
  {
    assert "invalid.event" != ValidEventTypes[5];
  }

  /** `isWebhookEvent(data)`, for `undefined` (`None`) or a JSON value. */
  function IsWebhookEvent(data: Option<Value>): (r: bool)
    ensures r <==>
      && data.Some? && data.value.Object?
      && "id" in data.value.fields && data.value.fields["id"].Str?
      && "timestamp" in data.value.fields && data.value.fields["timestamp"].Number?
      && "event" in data.value.fields && data.value.fields["event"].Object?
      && "type" in data.value.fields["event"].fields && data.value.fields["event"].fields["type"].Str?
  {
    && Present(data)
    && IsString(Member(data.value, "id"))
    && IsNumber(Member(data.value, "timestamp"))
    && Present(Member(data.value, "event"))
    && IsString(Member(Member(data.value, "event").value, "type"))
  }

  /** The type guard and `parsePayload` check different things: an empty
      `id` and a zero `timestamp` satisfy the guard but not the parser. */
  lemma TypeGuardWeakerThanParser(raw: string, rt: Runtime)
    requires rt.parseJson(raw) == Success(Object(map[
      "id" := Str(""), "timestamp" := Number(0.0),
      "event" := Object(map["type" := Str("payment.succeeded")])]))
    ensures IsWebhookEvent(Some(rt.parseJson(raw).value))
    ensures ParsePayload(raw, rt) == Failure(InvalidStructure)
  {
  }
}

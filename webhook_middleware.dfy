/** The Express middleware returned by `createWebhookMiddleware`: it reads
    the signature header, verifies and parses the body, then either attaches
    the payload to the request and calls `next`, or answers 400. */
module WebhookMiddleware {
  import opened Wrappers
  import opened Json
  import opened Host
  import opened Webhooks

  /** A value whose `typeof` is `'object'`: `null`, an array or an object. */
  type ObjectValue = v: Value | v.Null? || v.Array? || v.Object? witness Null

  /** `req.body` as a body parser leaves it: text, an already-decoded value
      of type `'object'`, or nothing. */
  datatype Body = TextBody(text: string) | ObjectBody(value: ObjectValue) | NoBody

  /** The text handed to `verifyAndParse`: objects are re-encoded with
      `JSON.stringify`, and a missing body becomes the text `undefined`
      (which is what both `${payload}` and `JSON.parse` make of it). */
  function PayloadText(body: Body, rt: Runtime): (text: string)
    ensures body.TextBody? ==> text == body.text
    ensures body.ObjectBody? ==> text == rt.stringify(body.value)
    ensures body.NoBody? ==> text == "undefined"
  {
    match body
    case TextBody(text) => text
    case ObjectBody(value) => rt.stringify(value)
    case NoBody => "undefined"
  }

  /** `req.headers['inkress-signature'] || req.headers['x-inkress-signature']`,
      with `None` for a missing or empty header. */
  function SignatureHeader(headers: map<string, string>): (r: Option<string>)
    ensures r.Some? ==> r.value != ""
    ensures r.None? <==> ("inkress-signature" !in headers || headers["inkress-signature"] == "")
                         && ("x-inkress-signature" !in headers || headers["x-inkress-signature"] == "")
  {
    if "inkress-signature" in headers && headers["inkress-signature"] != "" then Some(headers["inkress-signature"])
    else if "x-inkress-signature" in headers && headers["x-inkress-signature"] != "" then Some(headers["x-inkress-signature"])
    else None
  }

  const MissingSignatureMessage := "Missing signature header"

  /** The `error` text of the 400 answer: `${error}` of a thrown Error is
      `Error: ` followed by its message. */
  function FailureMessage(e: WebhookError): string {
    "Webhook verification failed: Error: " + ErrorMessage(e)
  }

  /** The outcome of one request: pass the payload on, or answer with a
      status and a JSON `{error: message}` body. */
  datatype Decision = Forward(payload: Value) | Reject(status: int, message: string)

  /** The decision logic of the middleware. */
  function Decide(secret: string, options: VerificationOptions, headers: map<string, string>,
                  body: Body, clockMs: int, rt: Runtime): (d: Decision)
    ensures d.Reject? ==> d.status == 400
    ensures SignatureHeader(headers).None? ==> d == Reject(400, MissingSignatureMessage)
  {
    match SignatureHeader(headers)
    case None => Reject(400, MissingSignatureMessage)
    case Some(signature) =>
      match VerifyAndParse(PayloadText(body, rt), signature, secret, options, clockMs, rt)
      case Success(payload) => Forward(payload)
      case Failure(e) => Reject(400, FailureMessage(e))
  }

  /** Only a request whose signature verifies over the exact payload text and
      whose payload has a truthy `id`, `timestamp` and `event` is passed on;
      a bad signature is answered without the payload being parsed. */
  lemma ForwardOnlyVerified(secret: string, options: VerificationOptions, headers: map<string, string>,
                            body: Body, clockMs: int, rt: Runtime)
    ensures var d := Decide(secret, options, headers, body, clockMs, rt);
            d.Forward? <==>
              && SignatureHeader(headers).Some?
              && VerifySignature(PayloadText(body, rt), SignatureHeader(headers).value, secret, options, clockMs, rt)
              && rt.parseJson(PayloadText(body, rt)).Success?
              && HasEnvelopeMembers(rt.parseJson(PayloadText(body, rt)).value)
    ensures var d := Decide(secret, options, headers, body, clockMs, rt);
            d.Forward? ==> d.payload == rt.parseJson(PayloadText(body, rt)).value
    ensures var d := Decide(secret, options, headers, body, clockMs, rt);
            SignatureHeader(headers).Some?
            && !VerifySignature(PayloadText(body, rt), SignatureHeader(headers).value, secret, options, clockMs, rt)
            ==> d == Reject(400, FailureMessage(SignatureVerificationFailed))
  {
    var header := SignatureHeader(headers);
    if header.Some? {
      var text := PayloadText(body, rt);
      var verified := VerifyAndParse(text, header.value, secret, options, clockMs, rt);
      var d := Decide(secret, options, headers, body, clockMs, rt);
      assert d == if verified.Success? then Forward(verified.value)
                  else Reject(400, FailureMessage(verified.error));
    }
  }

  /** The parts of an Express request the middleware uses. */
  class Request {
    var headers: map<string, string>
    var body: Body
    var webhookPayload: Option<Value>

    constructor (headers: map<string, string>, body: Body)
      ensures this.headers == headers && this.body == body && webhookPayload.None?
    {
      this.headers := headers;
      this.body := body;
      webhookPayload := None;
    }
  }

  /** The parts of an Express response the middleware uses:
      `res.status(code).json({ error })`. */
  class Response {
    var statusCode: int
    var errorBody: Option<string>

    constructor ()
      ensures statusCode == 200 && errorBody.None?
    {
      statusCode := 200;
      errorBody := None;
    }

    method SendError(code: int, message: string)
      modifies this
      ensures statusCode == code && errorBody == Some(message)
    {
      statusCode := code;
      errorBody := Some(message);
    }
  }

  /** Express's `next` callback, observed by how often it is called. */
  class Next {
    var calls: nat

    constructor ()
      ensures calls == 0
    {
      calls := 0;
    }

    method Call()
      modifies this
      ensures calls == old(calls) + 1
    {
      calls := calls + 1;
    }
  }

  /** `createWebhookMiddleware(secret, options)` and the handler it returns. */
  class Middleware {
    const secret: string
    const options: VerificationOptions

    constructor (secret: string, options: VerificationOptions)
      ensures this.secret == secret && this.options == options
    {
      this.secret := secret;
      this.options := options;
    }

    method Handle(req: Request, res: Response, next: Next, clockMs: int, rt: Runtime)
      modifies req`webhookPayload, res, next
      ensures var d := Decide(secret, options, old(req.headers), old(req.body), clockMs, rt);
              match d
              case Forward(payload) =>
                && req.webhookPayload == Some(payload) && next.calls == old(next.calls) + 1
                && unchanged(res)
              case Reject(status, message) =>
                && res.statusCode == status && res.errorBody == Some(message)
                && req.webhookPayload == old(req.webhookPayload) && next.calls == old(next.calls)
    {
      var signature := SignatureHeader(req.headers);
      if signature.None? {
        res.SendError(400, MissingSignatureMessage);
        return;
      }
      var payload := PayloadText(req.body, rt);
      var verified := VerifyAndParse(payload, signature.value, secret, options, clockMs, rt);
      match verified {
        case Success(webhookPayload) =>
          req.webhookPayload := Some(webhookPayload);
          next.Call();
        case Failure(e) =>
          res.SendError(400, FailureMessage(e));
      }
    }
  }
}

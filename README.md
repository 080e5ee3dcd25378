# Inkress Admin SDK: webhook verification and the HTTP client

This project is a Dafny model of the two parts of the Inkress Admin SDK that hold logic rather than wiring.

**Webhook utilities** (`src/utils/webhooks.ts`):
- A signature header has the form `t=<unix seconds>,v1=<hex HMAC-SHA256 of "<t>.<payload>">`.
- `verifySignature` splits the header. It takes the first `t=` and the first `v1=` element and rejects a missing or empty one. It checks the timestamp against a tolerance (default 300 s). It recomputes the digest and compares the decoded bytes in constant time. Every failure is folded into `false`.
- `generateSignature` builds such a header. A missing or zero timestamp means "now".
- `parsePayload` requires the envelope members `id`, `timestamp` and `event` to be truthy.
- `verifyAndParse` chains verification and parsing.
- `isValidEventType` tests membership in the thirteen event names.
- `isWebhookEvent` is a structural type guard.
- The Express middleware rejects a request with 400 or attaches the parsed payload and calls `next`.

**HTTP client** (`src/client.ts`):
- `HttpClient` holds a configuration. The constructor builds it from defaults, `updateConfig` replaces it key by key, and `getConfig` returns it without the bearer token.
- Each request carries merged headers: library defaults, then configured headers, then per-call headers, with a non-empty client id written last.
- `makeRequest` turns whatever the transport produced into a reply or an `InkressApiError`.
  - A non-ok response keeps its status unless its body is the JSON text `null`, which gives status 0.
  - Timeouts, network failures and bad JSON in an ok response get status 0.
- `retryRequest` retries status-0 and 5xx errors up to the budget, waiting `1000*k` ms before the k-th retry.
- `get` appends only the defined, non-null query parameters.

Foreign functions are fields of a `Host.Runtime` value passed in by the caller: HMAC-SHA256, `JSON.parse`, `JSON.stringify`, `String()` and form-URL encoding. The clock is a millisecond parameter. The network is a `Transport` function from (attempt number, request) to what the race between `fetch` and the timer produced. Delays are recorded rather than slept. JavaScript's own semantics are written out where the outcome depends on them:
- `split`, `find`/`startsWith`/`slice`, `parseInt(s, 10)` and `${n}`;
- Node's lenient `Buffer.from(s, 'hex')`, which stops at the first non-hex pair;
- `timingSafeEqual` throwing on a length mismatch;
- truthiness;
- the TypeError from reading a property of `null`.

Modules:
- `wrappers.dfy`: `Option` and `Result`.
- `json.dfy`: JSON values, truthiness and property access.
- `host.dfy`: bytes, digests and the runtime.
- `text.dfy`, `hex.dfy`: the string primitives.
- `webhooks.dfy`: the webhook utilities.
- `webhook_middleware.dfy`: the middleware.
- `api_error.dfy`: `InkressApiError` and `shouldRetry`.
- `client_config.dfy`: the configuration.
- `requests.dfy`: headers, request building and normalisation.
- `retry.dfy`: the retry pipeline.
- `query.dfy`: query strings.
- `client.dfy`: the `HttpClient` class.

A `t=` value in which `parseInt` finds no digits (after white space and one sign) is never stale: `parseInt` yields `NaN`, `NaN > tolerance` is false, and the signature is then checked as usual (`Webhooks.NonNumericTimestampSkipsTolerance`).

## Model

| member | source | states |
|---|---|---|
| Text.Split | src/utils/webhooks.ts:40 | `signature.split(',')` yields at least one part, no part contains a comma, and joining the parts with commas gives back the header |
| Text.SplitJoin | src/utils/webhooks.ts:40 | splitting the comma-join of comma-free pieces gives back exactly those pieces |
| Text.FirstWithPrefix | src/utils/webhooks.ts:41-42 | `find(startsWith(p))?.slice(n)`, with n the prefix length, is absent iff no element has the prefix, and otherwise is the rest of the first element that has it |
| Text.ParseInt | src/utils/webhooks.ts:49 | `parseInt(t, 10)` is NaN exactly when, after leading whitespace and one sign, no decimal digit follows |
| Text.ParseIntOfDecimal | src/utils/webhooks.ts:49 | `parseInt` of the decimal text of any integer gives that integer back |
| Text.DecimalRoundTrip | src/utils/webhooks.ts:113-121 | the decimal digits written for a non-negative timestamp read back as the same number |
| Hex.HexEncode | src/utils/webhooks.ts:60-63 | a hex digest is two lowercase hex characters per byte |
| Hex.HexDecode | src/utils/webhooks.ts:67-68 | lenient hex decoding yields at most one byte per two characters |
| Hex.HexRoundTrip | src/utils/webhooks.ts:60-68 | `Buffer.from(hex, 'hex')` of a `digest('hex')` is the digest itself |
| Hex.HexDecodeOfEncodedPrefix | src/utils/webhooks.ts:67 | lenient hex decoding of an encoded digest followed by anything decodes the digest and then continues on the rest |
| Webhooks.CheckSignature | src/utils/webhooks.ts:36-69 | the check throws `Invalid signature format` iff the first `t=` or `v1=` field is missing or empty, `Timestamp outside tolerance` iff the header is well formed but stale, and a length mismatch iff it is well formed and fresh but `v1` does not decode to 32 bytes |
| Webhooks.VerifySignature | src/utils/webhooks.ts:30-74 | every throw becomes `false`, so `true` needs a well-formed, fresh header whose `v1` decodes to 32 bytes |
| Webhooks.TimingSafeEqual | src/utils/webhooks.ts:66-69 | the comparison throws iff the buffers differ in length, and otherwise answers byte-wise equality |
| Webhooks.VerifySignatureIff | src/utils/webhooks.ts:30-74 | `verifySignature` is true iff both fields are present and non-empty, the timestamp is numeric-and-in-tolerance or non-numeric, and the decoded `v1` digest equals the HMAC of `t.payload` |
| Webhooks.MalformedHeaderRejected | src/utils/webhooks.ts:40-46 | a header without a `t=` or `v1=` element, or with an empty one, fails with `Invalid signature format` and verifies as false |
| Webhooks.NonNumericTimestampSkipsTolerance | src/utils/webhooks.ts:49-54 | a `t=` value that `parseInt` cannot read skips the tolerance check, so a correctly signed header verifies whatever the clock says |
| Webhooks.GenerateSignature | src/utils/webhooks.ts:112-122 | the header is `t=`, the decimal signing time, `,v1=` and then 64 characters |
| Webhooks.SigningTimestamp | src/utils/webhooks.ts:113 | the signing time is the given timestamp unless it is missing or zero, in which case it is the current time in whole seconds |
| Webhooks.GeneratedSignatureShape | src/utils/webhooks.ts:112-122 | a generated header is `t=<decimal>,v1=<64 lowercase hex chars>`, its timestamp reads back exactly, and its digest is the HMAC of `<t>.<payload>` |
| Webhooks.GeneratedFields | src/utils/webhooks.ts:112-122 | splitting a generated header finds exactly the written timestamp and the expected digest, both non-empty |
| Webhooks.GeneratedSignatureVerifiesIff | src/utils/webhooks.ts:30-74 | a generated header verifies iff the distance between signing and verifying time in seconds is at most the tolerance |
| Webhooks.SignThenVerify | src/utils/webhooks.ts:112-122 | a header generated now verifies now under any non-negative tolerance |
| Webhooks.ZeroTimestampMeansNow | src/utils/webhooks.ts:113 | signing with timestamp 0 is the same as signing without one |
| Webhooks.TamperedPayloadRejected | src/utils/webhooks.ts:57-69 | a header generated for one payload does not verify another payload whose signed text has a different HMAC |
| Webhooks.TrailingTextAfterDigestIgnored | src/utils/webhooks.ts:42-69 | text appended after the hex digest that decodes to no bytes leaves the verdict unchanged |
| Webhooks.CheckSeesDecodedFields | src/utils/webhooks.ts:40-69 | two headers with the same timestamp field and the same decoded digest get the same verdict |
| Webhooks.ParsePayload | src/utils/webhooks.ts:79-91 | parsing succeeds iff the text is JSON whose `id`, `timestamp` and `event` are present and truthy, returns the parsed value unchanged, and reports a syntax error as such |
| Webhooks.VerifyAndParse | src/utils/webhooks.ts:96-107 | a failed verification fails with `Webhook signature verification failed`, and success happens exactly when verification and parsing both succeed, with the parsed value |
| Webhooks.VerifyAndParseFailsClosed | src/utils/webhooks.ts:102-104 | with a bad signature the result is the verification error whatever the parser would say |
| Webhooks.IsValidEventType | src/utils/webhooks.ts:138-156 | an event type is valid iff it is one of the listed names |
| Webhooks.ValidEventTypesCatalogue | src/utils/webhooks.ts:139-153 | there are thirteen distinct, dotted event names; `payment.succeeded` and `order.created` are valid and `invalid.event` is not |
| Webhooks.IsWebhookEvent | src/utils/webhooks.ts:194-202 | the guard holds iff the value is an object with a string `id`, a number `timestamp`, and an object `event` whose `type` is a string |
| Webhooks.TypeGuardWeakerThanParser | src/utils/webhooks.ts:194-202 | a document with timestamp 0 passes the type guard yet is rejected by `parsePayload` |
| WebhookMiddleware.PayloadText | src/utils/webhooks.ts:176-179 | a text body is verified as it arrived, a body of type `object` (`null`, array, object) as its `JSON.stringify` text, and a missing body as the text `undefined` |
| WebhookMiddleware.SignatureHeader | src/utils/webhooks.ts:170-172 | the signature header is absent iff neither `inkress-signature` nor `x-inkress-signature` holds a non-empty value |
| WebhookMiddleware.Decide | src/utils/webhooks.ts:167-190 | every rejection has status 400, and a missing signature header is rejected with `Missing signature header` |
| WebhookMiddleware.ForwardOnlyVerified | src/utils/webhooks.ts:167-190 | a request is forwarded iff a signature header is present, it verifies against the body text and the body parses with its envelope; the forwarded payload is the parsed body; a bad signature gets the verification failure message |
| WebhookMiddleware.Middleware.Handle | src/utils/webhooks.ts:168-189 | on forwarding, `webhookPayload` is set, `next` is called once and the response is untouched; on rejection, the response carries the status and error and neither `webhookPayload` nor `next` changes |
| WebhookMiddleware.Response.SendError | src/utils/webhooks.ts:172-188 | `res.status(code).json({error})` records the status and the error message |
| WebhookMiddleware.Next.Call | src/utils/webhooks.ts:186 | calling `next` increments its call count by one |
| ApiErrors.Classify | src/client.ts:129-135 | status 0 is a transport failure, 5xx a server error and 4xx a client error, each iff |
| ApiErrors.ShouldRetry | src/client.ts:129-135 | `shouldRetry` holds exactly for transport failures (status 0) and server errors (5xx) |
| ClientConfig.Merge | src/client.ts:176-178 | each supplied key replaces the stored one and every key not supplied keeps its value |
| ClientConfig.MergeLaws | src/client.ts:176-178 | an empty update changes nothing, repeating an update changes nothing more, and two updates equal one combined update |
| ClientConfig.Redact | src/client.ts:181-184 | the public view carries every setting except the bearer token, unchanged |
| ClientConfig.RedactHidesToken | src/client.ts:181-184 | configurations that differ only in their token have the same public view |
| ClientConfig.UpdateShowsInPublicView | src/__tests__/index.test.ts:22-36 | after setting a client id and an endpoint, the public view shows them and the defaults for the rest |
| Requests.BaseUrl | src/client.ts:26-29 | the base URL is the endpoint, then `/api/`, then the API version |
| Requests.RequestHeaders | src/client.ts:31-45 | a header is present iff the precedence gives it a value, and then it has that value |
| Requests.HeaderPrecedence | src/client.ts:31-45 | `Content-Type` and `Authorization` are always set; per-call headers beat configured ones, which beat the defaults; a non-empty client id always wins `Client-Id`; an empty one adds none |
| Requests.EncodedBody | src/client.ts:62-64 | a body is sent iff it is truthy and the method is not GET; a string body is sent verbatim and any other value JSON-encoded |
| Requests.RequestUrlAndTimeout | src/client.ts:26-55 | the URL is `<endpoint>/api/<version><path>`, and a missing or zero per-call timeout falls back to the configured one |
| Requests.BuildRequest | src/client.ts:50-64 | the request goes to base URL plus path with the given method and the merged headers; its body is the encoded body, present iff the body is truthy and the method is not GET; the timeout is the per-call one unless missing or zero |
| Requests.Normalize | src/client.ts:66-110 | success iff the response is 2xx with an empty or JSON body, and then it is `EmptyOk` or the parsed body unchanged; a thrown Error keeps its message, a thrown non-Error becomes `Unknown error`, and bad JSON in a 2xx carries the parser's message, all with status 0; a non-ok failure keeps its status or is 0 |
| Requests.MakeRequest | src/client.ts:47-111 | one attempt succeeds iff the transport answered 2xx with an empty or JSON body; every failure not caused by a non-ok response has status 0 |
| Requests.RetryableOutcomes | src/client.ts:66-135 | timeouts, thrown failures and 5xx responses are retried; a 4xx response whose body is not JSON `null` is not |
| Requests.NonOkResponseError | src/client.ts:77-90 | a non-ok response (body not `null`) fails with its own status; its message is the document's truthy `message`, else the raw text, else `HTTP <status>` |
| Requests.NullErrorBodyBecomesTransportFailure | src/client.ts:82-109 | a non-ok response whose body is JSON `null` becomes a status-0 TypeError, which is retryable |
| Requests.TimeoutAndEmptyBody | src/client.ts:66-97 | a timeout is the status-0 error `Request timeout`; an ok response with an empty body is a success without data |
| Retry.RetryRequest | src/client.ts:113-127 | with counter r, at most r+1 attempts; every attempt but the last failed retryably; the result is the last attempt's; a retryable result means the budget is spent; the i-th wait is `1000*(R-r+i+1)` |
| Retry.Send | src/client.ts:113-127 | a call with budget R makes between 1 and R+1 attempts, all but the last failed retryably, it settles with the last attempt's result, and it ends on a retryable error only after R+1 attempts |
| Retry.SendAttemptsAndDelays | src/client.ts:113-127 | a call with budget R makes at most R+1 attempts, waits 1, 2, … seconds between them and settles with the last attempt's result |
| Retry.NotRetriedSettlesAtOnce | src/client.ts:117-125 | a success or non-retryable error on the first attempt settles the call after one attempt with no wait |
| Retry.ExhaustionRethrowsLastError | src/client.ts:117-125 | when every attempt fails retryably, exactly R+1 attempts are made and the last error is rethrown unchanged |
| Retry.ServerErrorsThenSuccess | src/client.ts:113-135 | 500, 500, 200 with a budget of at least 2 succeeds on the third attempt after waits of 1000 and 2000 ms |
| Retry.ClientErrorNotRetried | src/client.ts:113-135 | a 404 is rethrown after one attempt with no wait |
| Retry.ServerErrorsExhaustBudget | src/client.ts:113-135 | four 500s with the default budget make four attempts, wait 1, 2 and 3 seconds, and rethrow the last 500 |
| Query.Kept | src/client.ts:144-149 | no more pairs are appended than there are entries, and all of them when every value is given |
| Query.KeptAppend | src/client.ts:144-149 | filtering parameters distributes over concatenation, so order is kept |
| Query.KeptExactly | src/client.ts:144-149 | every appended pair comes from a given entry and every given entry is appended: nothing undefined or null, nothing lost |
| Query.Serialize | src/client.ts:150 | the query string is empty iff there are no pairs |
| Query.QueryUrl | src/client.ts:141-157 | the URL starts with the path; it is the path alone iff there are no params or none is kept, and otherwise continues with `?` |
| Query.OnlyGivenValuesSerialised | src/client.ts:141-157 | `{a: 1, b: undefined, c: null}` gives `path?a=1` |
| Client.HttpClient.constructor | src/client.ts:14-24 | the stored configuration is the user's settings over the defaults |
| Client.HttpClient.GetHeaders | src/client.ts:31-45 | the dictionary built and then patched with `Client-Id` is exactly the name-by-name precedence |
| Client.HttpClient.Request | src/client.ts:113-127 | a request runs the retry pipeline with the configured budget: at most R+1 attempts, settling with the last |
| Client.HttpClient.Get | src/client.ts:141-157 | the loop appends exactly the kept parameters, and the GET goes to the path plus a `?query` only when that is non-empty |
| Client.HttpClient.Post | src/client.ts:159-161 | a POST of the body through the retry pipeline |
| Client.HttpClient.Put | src/client.ts:163-165 | a PUT of the body through the retry pipeline |
| Client.HttpClient.Delete | src/client.ts:167-169 | a DELETE without a body through the retry pipeline |
| Client.HttpClient.Patch | src/client.ts:171-173 | a PATCH of the body through the retry pipeline |
| Client.HttpClient.UpdateConfig | src/client.ts:176-178 | the new configuration is the old one with the supplied keys replaced |
| Client.HttpClient.GetConfig | src/client.ts:181-184 | the returned view is the configuration without its token, and is the same whatever the token is |
| Client.GetSendsNoBody | src/client.ts:141-157 | a GET carries no body, goes to the base URL plus path and query, uses the configured timeout and the default headers |
| Client.UpdateThenReadBack | src/__tests__/index.test.ts:22-36 | a client created with a token and updated with a client id and endpoint reports those and keeps the default version, retries and timeout |

## Left out

- Network, timers and I/O: `fetch`, the `Promise.race` timer and `setTimeout` delays are inputs (the `Transport` function) or recorded numbers. The model does not capture real time passing, nor a timer that keeps running after the race.
- Constant-time behaviour: `timingSafeEqual` is modelled by its result only, not by how long it takes.
- HMAC-SHA256, `JSON.parse`, `JSON.stringify`, `String()` and the `URLSearchParams` percent-encoding are uninterpreted functions of the runtime, assumed total and deterministic.
- Webhooks.VerifySignature: the payload is text. A non-string payload's `${payload}` conversion is not modelled, beyond the middleware passing `undefined` as the text `undefined`.
- `tolerance`, `retries` and `timeout` are JavaScript numbers but are modelled as integers. A fractional value is not modelled. For example, with `retries` 2.5 the code makes four attempts, waiting 1000, 2000 and 3000 ms, because the counter passes through 0.5.
- The middleware's body is text, a value of type `object` or missing. A number or boolean `req.body`, which no Express body parser produces, is not modelled.
- Numbers in JSON are reals. `NaN`, infinities and the exponent form that `${n}` uses for timestamps of 1e21 and above are not modelled. Timestamps are integers.
- Strings are sequences of Unicode scalars, not UTF-16 code units. The UTF-8 encoding in `update(signedPayload, 'utf8')` is hidden inside the HMAC function.
- A missing `crypto` module (`src/utils/webhooks.ts:5-13`), which makes every verification throw and return false, is not modelled. Crypto is always present.
- `console.warn` and `console.error` logging are left out.
- `createTestPayload` is not modelled: it is a random UUID and the wall clock, with no logic to verify.
- `extractEventData` is not modelled: it is a cast of `payload.event.data`.
- Express's `req`/`res` are reduced to the fields the middleware reads and writes: headers, body, `webhookPayload`, status and error body. A `Buffer` body from `express.raw` is an object and is JSON-stringified as such, as the code does.
- Keys given explicitly as `undefined` in the user's configuration or in `updateConfig` are treated as not supplied. In JavaScript they would overwrite the stored value with `undefined`.
- A mid-flight `updateConfig` is not modelled. The retry delays reread `this.config.retries` at each step. The configuration is fixed for the length of a call.
- Header names are exact map keys. The case-insensitive merging of `fetch`'s `Headers`, and header order, are not modelled.
- Typing of replies is not modelled: `ApiResponse<T>` is whatever `JSON.parse` returned. The `as` casts check nothing at run time.
- `src/resources/*.ts`, `src/index.ts` and `src/types.ts` are not part of this model. They forward fixed paths and verbs to the client or declare types.

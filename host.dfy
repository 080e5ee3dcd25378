/** The foreign functions the core calls but whose internals are not part of
    this model: Node's HMAC-SHA256, `JSON.parse`, `JSON.stringify`,
    JavaScript's `String(value)` conversion and the percent-encoding that
    `URLSearchParams` applies. Each is a total function value supplied by
    the caller, so every statement proved holds for every implementation of
    them. */
module Host {
  import opened Wrappers
  import Json

  newtype Byte = x: int | 0 <= x < 256

  /** An HMAC-SHA256 digest is always 32 bytes long. */
  type Digest = d: seq<Byte> | |d| == 32 witness seq(32, _ => 0 as Byte)

  datatype Runtime = Runtime(
    /** `crypto.createHmac('sha256', key).update(message, 'utf8').digest()` */
    hmacSha256: (string, string) -> Digest,
    /** `JSON.parse(text)`; a failure carries the SyntaxError's message */
    parseJson: string -> Result<Json.Value, string>,
    /** `JSON.stringify(value)` */
    stringify: Json.Value -> string,
    /** `String(value)` for a value that is not a string */
    toText: Json.Value -> string,
    /** the application/x-www-form-urlencoded byte serializer used by
        `URLSearchParams.prototype.toString` for one name or value */
    formEncode: string -> string)
}

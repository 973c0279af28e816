/**
  Stand-ins for the Foundation values the API client works on: Swift's
  optionals, the bytes of a response body, the response metadata a
  `URLSession` data task hands back, the JSON values `JSONSerialization`
  produces, and the errors thrown by the transport and by the decoder.
  These are values only; no networking or decoding happens here.
 */
module Foundation {

  /** Swift's `Optional`: `None` is `nil`. */
  datatype Option<+T> = None | Some(value: T)

  newtype byte = x: int | 0 <= x < 256

  /** `Data`: the raw body of a response. */
  type Data = seq<byte>

  /**
    `URLResponse` and its subclass `HTTPURLResponse`. Only an HTTP
    response carries a status code.
   */
  datatype UrlResponse =
    | PlainResponse(url: string)
    | HttpResponse(url: string, statusCode: int, headers: map<string, string>)

  /** `response as? HTTPURLResponse` succeeds: the response is present and HTTP. */
  predicate IsHttp(response: Option<UrlResponse>)
  {
    response.Some? && response.value.HttpResponse?
  }

  /** The dynamically typed values inside a decoded JSON document. */
  datatype Json =
    | JNull
    | JBool(b: bool)
    | JNumber(n: real)
    | JString(s: string)
    | JArray(items: seq<Json>)
    | JObject(fields: map<string, Json>)

  /** `[String: Any]`: a top-level JSON object. */
  type JsonObject = map<string, Json>

  /** The error `JSONSerialization.jsonObject(with:options:)` throws on bytes it cannot read. */
  datatype DecoderError = DecoderError(offset: nat, reason: string)

  /**
    What one call of `JSONSerialization.jsonObject(with:options:)` does:
    it throws its own error, or returns a value of some JSON shape.
   */
  datatype Decoded = Malformed(error: DecoderError) | Parsed(value: Json)

  /** The error a data task reports instead of completing the exchange. */
  datatype TransportError = TransportError(domain: string, code: int)

  /**
    The three arguments a data task passes to its completion handler:
    the body, the response metadata and the transport error, each optional.
   */
  datatype Exchange = Exchange(
    data: Option<Data>,
    response: Option<UrlResponse>,
    error: Option<TransportError>)
}

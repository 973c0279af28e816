/**
  The response pipeline of `APIClient`. Each attempt runs one data task.
  The validator turns the task's result into a JSON object or a thrown
  error. Every error, whether from the transport or from the validator,
  goes to the retry decision. That decision is indexed by how many
  failures came before this one, and it either re-runs the task or
  propagates the error.
 */
module ApiClient {
  import opened Foundation

  /** `APIError`: the error cases the validator throws itself. */
  datatype ApiError =
    | InvalidResponse(response: Option<UrlResponse>)
    | BadStatusCode(httpResponse: UrlResponse)
    | BadData(data: Option<Data>, receivedResponse: Option<UrlResponse>)
    | JsonParsingError

  /** Any Swift `Error` that reaches the retry operator. */
  datatype Error =
    | ApiFailure(api: ApiError)
    | DecoderFailure(decoder: DecoderError)
    | TransportFailure(transport: TransportError)

  /** What one attempt emits: a JSON object (`onNext`) or an error (`onError`). */
  datatype Result<+T> = Ok(value: T) | Err(error: Error)

  /** The status codes `200..<300` that the validator lets through. */
  predicate StatusAccepted(statusCode: int)
  {
    200 <= statusCode < 300
  }

  /**
    `handle(data:response:)`: the guards in the order the code runs them.
    An HTTP response is required, then an accepted status, then a body
    that is present, then a body that decodes to a top-level object. The
    first guard that fails decides the error. A decoder error is thrown
    on unchanged.
   */
  function Validate(data: Option<Data>, response: Option<UrlResponse>, decode: Data -> Decoded): (r: Result<JsonObject>)
    // not HTTP: invalidResponse carrying the response, whatever the body is
    ensures !IsHttp(response) <==> r == Err(ApiFailure(InvalidResponse(response)))
    // HTTP but outside 200..<300: badStatusCode carrying the HTTP response
    ensures IsHttp(response) && !StatusAccepted(response.value.statusCode)
      <==> response.Some? && r == Err(ApiFailure(BadStatusCode(response.value)))
    // accepted status but no body: badData; only a missing body is rejected, not an empty one
    ensures IsHttp(response) && StatusAccepted(response.value.statusCode) && data.None?
      <==> r == Err(ApiFailure(BadData(None, response)))
    // all three guards passed: the decoder's outcome alone decides the rest
    ensures IsHttp(response) && StatusAccepted(response.value.statusCode) && data.Some? ==>
      match decode(data.value)
      case Malformed(e) => r == Err(DecoderFailure(e))
      case Parsed(JObject(fields)) => r == Ok(fields)
      case Parsed(_) => r == Err(ApiFailure(JsonParsingError))
    // success means exactly this: every guard passed and the body decoded to that object
    ensures r.Ok? <==>
      IsHttp(response) && StatusAccepted(response.value.statusCode) && data.Some?
      && decode(data.value).Parsed? && decode(data.value).value.JObject?
    ensures r.Ok? ==> data.Some? && decode(data.value) == Parsed(JObject(r.value))
  {
    if !IsHttp(response) then
      Err(ApiFailure(InvalidResponse(response)))
    else if !StatusAccepted(response.value.statusCode) then
      Err(ApiFailure(BadStatusCode(response.value)))
    else if data.None? then
      Err(ApiFailure(BadData(data, response)))
    else
      match decode(data.value)
      case Malformed(e) => Err(DecoderFailure(e))
      case Parsed(json) =>
        if json.JObject? then Ok(json.fields) else Err(ApiFailure(JsonParsingError))
  }

  /**
    One attempt. If the data task reports a transport error, that error goes
    straight to the retry operator and the validator never runs. Otherwise
    the validator decides.
   */
  function Attempt(exchange: Exchange, decode: Data -> Decoded): (r: Result<JsonObject>)
    ensures exchange.error.Some? ==> r == Err(TransportFailure(exchange.error.value))
    ensures exchange.error.None? ==> r == Validate(exchange.data, exchange.response, decode)
    // a transport failure can only come from the data task's own error
    ensures (r.Err? && r.error.TransportFailure?) <==> exchange.error.Some?
  {
    match exchange.error
    case Some(e) => Err(TransportFailure(e))
    case None => Validate(exchange.data, exchange.response, decode)
  }

  /** The index bound of `handle(error:i:)`: failures 0, 1 and 2 are retried. */
  const MaxRetries: nat := 3

  /**
    What `handle(error:i:)` returns. `Observable.just(())` makes `retryWhen`
    resubscribe. `Observable.error(error)` ends the stream with that error.
   */
  datatype Decision = Retry | Propagate(error: Error)

  /**
    `handle(error:i:)`: retry while fewer than `MaxRetries` failures came
    before this one. Otherwise propagate the very same error. Only the
    `default` branch of the switch is live, so the kind of error plays no part.
   */
  function HandleError(error: Error, i: int): (d: Decision)
    ensures d.Retry? <==> i < MaxRetries
    ensures d.Propagate? ==> d.error == error
  {
    if i < MaxRetries then Retry else Propagate(error)
  }

  /** How a fetch ends: what the stream emits last, and how many data tasks ran. */
  datatype Resolution = Resolution(result: Result<JsonObject>, attempts: nat)

  /**
    The closure handed to `retryWhen`: `errors.enumerated.flatMap` pairs
    each error with its 0-based index and asks the handler what to do.
   */
  type Handler = (Error, nat) -> Decision

  /** A handler that asks for a retry only below index `bound`. */
  ghost predicate RetriesBelow(handler: Handler, bound: nat)
  {
    forall e: Error, i: nat :: handler(e, i).Retry? ==> i < bound
  }

  /**
    Reference description of where `retryWhen` stops when it starts at
    index `i`. It stops on attempt `n` when every attempt from `i` up to
    `n` failed and the handler asked for a retry. Attempt `n` itself either
    succeeded or failed with the handler asking to propagate.
   */
  ghost predicate StopsAt(send: nat -> Exchange, decode: Data -> Decoded, handler: Handler, i: nat, n: nat)
  {
    && i <= n
    && (forall k: nat :: i <= k < n ==>
          Attempt(send(k), decode).Err? && handler(Attempt(send(k), decode).error, k).Retry?)
    && (Attempt(send(n), decode).Ok? || handler(Attempt(send(n), decode).error, n).Propagate?)
  }

  /**
    How the stream ends when it stops on attempt `n`. A success is passed
    on. A failure is replaced by whatever error the handler propagates.
   */
  function ResolutionAt(send: nat -> Exchange, decode: Data -> Decoded, handler: Handler, n: nat): (r: Resolution)
    ensures r.attempts == n + 1
    ensures Attempt(send(n), decode).Ok? ==> r.result == Attempt(send(n), decode)
    ensures Attempt(send(n), decode).Err? && handler(Attempt(send(n), decode).error, n).Propagate?
      ==> r.result == Err(handler(Attempt(send(n), decode).error, n).error)
  {
    match Attempt(send(n), decode)
    case Ok(json) => Resolution(Ok(json), n + 1)
    case Err(e) =>
      match handler(e, n)
      case Propagate(e') => Resolution(Err(e'), n + 1)
      // unreachable when `StopsAt` picks `n`: the stream never ends on a retried failure
      case Retry => Resolution(Err(e), n + 1)
  }

  /**
    RxSwift's `retryWhen` as this client uses it, from index `i` on. `i` is
    the index that `enumerated` pairs with the next error, which is the
    number of failures so far. `send(k)` is what the data task delivers on
    subscription number `k`. A handler that retries only below `bound`
    makes the loop end after at most `bound + 1` attempts from index 0.
   */
  function RetryWhen(send: nat -> Exchange, decode: Data -> Decoded, handler: Handler, bound: nat, i: nat): (r: Resolution)
    requires RetriesBelow(handler, bound)
    ensures i < r.attempts <= if i < bound then bound + 1 else i + 1
    ensures r.result.Ok? ==> r.result == Attempt(send(r.attempts - 1), decode)
    ensures r.result.Err? ==>
      Attempt(send(r.attempts - 1), decode).Err?
      && handler(Attempt(send(r.attempts - 1), decode).error, r.attempts - 1) == Propagate(r.result.error)
    decreases bound - i
  {
    match Attempt(send(i), decode)
    case Ok(json) => Resolution(Ok(json), i + 1)
    case Err(e) =>
      match handler(e, i)
      case Retry => RetryWhen(send, decode, handler, bound, i + 1)
      case Propagate(e') => Resolution(Err(e'), i + 1)
  }

  /** Started at `i`, `retryWhen` ends as the reference description says it stops on attempt `n`. */
  lemma {:induction false} RetryWhenStopsAt(
    send: nat -> Exchange, decode: Data -> Decoded, handler: Handler, bound: nat, i: nat, n: nat)
    requires RetriesBelow(handler, bound)
    requires StopsAt(send, decode, handler, i, n)
    ensures RetryWhen(send, decode, handler, bound, i) == ResolutionAt(send, decode, handler, n)
    decreases n - i
  {
    if i < n {
      assert Attempt(send(i), decode).Err? && handler(Attempt(send(i), decode).error, i).Retry?;
      RetryWhenStopsAt(send, decode, handler, bound, i + 1, n);
    }
  }

  /**
    Started at `i`, `retryWhen` stops on an attempt that fits the reference
    description: every earlier attempt failed and was retried, and this
    one succeeded or was not retried.
   */
  lemma {:induction false} RetryWhenFitsReference(
    send: nat -> Exchange, decode: Data -> Decoded, handler: Handler, bound: nat, i: nat)
    requires RetriesBelow(handler, bound)
    ensures StopsAt(send, decode, handler, i, RetryWhen(send, decode, handler, bound, i).attempts - 1)
    decreases bound - i
  {
    var a := Attempt(send(i), decode);
    if a.Err? && handler(a.error, i).Retry? {
      RetryWhenFitsReference(send, decode, handler, bound, i + 1);
      assert RetryWhen(send, decode, handler, bound, i) == RetryWhen(send, decode, handler, bound, i + 1);
    }
  }

  /** The handler `responseObservable(request:)` gives `retryWhen`. */
  const ClientHandler: Handler := (e: Error, i: nat) => HandleError(e, i)

  /** The index bound of the client's handler: it retries only failures 0, 1 and 2. */
  lemma ClientHandlerRetriesBelow()
    ensures RetriesBelow(ClientHandler, MaxRetries)
  {
  }

  /**
    Where a fetch ends, stated for the client's own handler. Attempt `n`
    is the last one when it is within the budget, every attempt before it
    failed, and it either succeeded or used up the budget.
   */
  ghost predicate EndsAt(send: nat -> Exchange, decode: Data -> Decoded, n: nat)
  {
    && n <= MaxRetries
    && (forall k: nat :: k < n ==> Attempt(send(k), decode).Err?)
    && (Attempt(send(n), decode).Ok? || n == MaxRetries)
  }

  /** For the client's handler, the general stopping description is the one-line budget rule. */
  lemma ClientStopsAtIff(send: nat -> Exchange, decode: Data -> Decoded, n: nat)
    ensures StopsAt(send, decode, ClientHandler, 0, n) <==> EndsAt(send, decode, n)
  {
    if StopsAt(send, decode, ClientHandler, 0, n) && n > MaxRetries {
      var k: nat := MaxRetries;
      assert ClientHandler(Attempt(send(k), decode).error, k).Retry?;
    }
  }

  /**
    `responseObservable(request:)`, and the same chain at top level: the
    first subscription is attempt 0. The fetch runs between one and
    `MaxRetries + 1` data tasks. It ends on the attempt the reference
    description picks, and its outcome is that attempt's own outcome,
    passed on unchanged.
   */
  function Fetch(send: nat -> Exchange, decode: Data -> Decoded): (r: Resolution)
    ensures 1 <= r.attempts <= MaxRetries + 1
    ensures EndsAt(send, decode, r.attempts - 1)
    ensures r.result == Attempt(send(r.attempts - 1), decode)
  {
    ClientHandlerRetriesBelow();
    RetryWhenFitsReference(send, decode, ClientHandler, MaxRetries, 0);
    ClientStopsAtIff(send, decode, RetryWhen(send, decode, ClientHandler, MaxRetries, 0).attempts - 1);
    RetryWhen(send, decode, ClientHandler, MaxRetries, 0)
  }

  /** The fetch ends exactly on the attempt the reference description picks, and on no other. */
  lemma FetchEndsAt(send: nat -> Exchange, decode: Data -> Decoded, n: nat)
    requires EndsAt(send, decode, n)
    ensures Fetch(send, decode) == Resolution(Attempt(send(n), decode), n + 1)
  {
    ClientHandlerRetriesBelow();
    ClientStopsAtIff(send, decode, n);
    RetryWhenStopsAt(send, decode, ClientHandler, MaxRetries, 0, n);
  }

  /**
    When every attempt fails, exactly `MaxRetries + 1` data tasks run. The
    last attempt's error is the outcome, propagated as it is and not
    wrapped in anything.
   */
  lemma AllAttemptsFail(send: nat -> Exchange, decode: Data -> Decoded)
    requires forall k: nat :: k <= MaxRetries ==> Attempt(send(k), decode).Err?
    ensures Fetch(send, decode).attempts == MaxRetries + 1
    ensures Fetch(send, decode).result == Err(Attempt(send(MaxRetries), decode).error)
  {
    FetchEndsAt(send, decode, MaxRetries);
  }

  /**
    When attempt `n` is the first to succeed within the budget, no further
    data task runs and that attempt's object is the outcome.
   */
  lemma FirstSuccessStops(send: nat -> Exchange, decode: Data -> Decoded, n: nat, json: JsonObject)
    requires n <= MaxRetries
    requires forall k: nat :: k < n ==> Attempt(send(k), decode).Err?
    requires Attempt(send(n), decode) == Ok(json)
    ensures Fetch(send, decode) == Resolution(Ok(json), n + 1)
  {
    FetchEndsAt(send, decode, n);
  }

  /**
    A first exchange that is a 2xx HTTP response with a body that decodes
    to an object resolves the fetch with that object after one data task.
   */
  lemma ValidFirstResponse(send: nat -> Exchange, decode: Data -> Decoded, json: JsonObject)
    requires send(0).error.None? && IsHttp(send(0).response)
    requires StatusAccepted(send(0).response.value.statusCode)
    requires send(0).data.Some? && decode(send(0).data.value) == Parsed(JObject(json))
    ensures Fetch(send, decode) == Resolution(Ok(json), 1)
  {
    FirstSuccessStops(send, decode, 0, json);
  }

  /**
    Transport errors and validation errors go through the same decision
    and use the same index. Two transports whose attempts fail and succeed
    at the same indices, whatever the errors are, run the same number of
    data tasks.
   */
  lemma SameFailurePattern(send1: nat -> Exchange, send2: nat -> Exchange, decode: Data -> Decoded)
    requires forall k: nat :: k <= MaxRetries ==> (Attempt(send1(k), decode).Ok? <==> Attempt(send2(k), decode).Ok?)
    ensures Fetch(send1, decode).attempts == Fetch(send2, decode).attempts
  {
    var n := Fetch(send1, decode).attempts - 1;
    FetchEndsAt(send2, decode, n);
  }

  /** The boundaries of the accepted range: 200 and 299 pass, 199 and 300 do not. */
  lemma StatusBoundaries(url: string, headers: map<string, string>, data: Option<Data>, decode: Data -> Decoded)
    ensures Validate(data, Some(HttpResponse(url, 199, headers)), decode)
      == Err(ApiFailure(BadStatusCode(HttpResponse(url, 199, headers))))
    ensures Validate(data, Some(HttpResponse(url, 300, headers)), decode)
      == Err(ApiFailure(BadStatusCode(HttpResponse(url, 300, headers))))
    ensures Validate(data, Some(HttpResponse(url, 200, headers)), decode)
      != Err(ApiFailure(BadStatusCode(HttpResponse(url, 200, headers))))
    ensures Validate(data, Some(HttpResponse(url, 299, headers)), decode)
      != Err(ApiFailure(BadStatusCode(HttpResponse(url, 299, headers))))
  {
  }
}

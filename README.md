# APIClient response pipeline (Rx playground)

This project models the response pipeline of the `APIClient` class in the
RxSwift playground page `TryYourself`. The pipeline has two parts.

- The response validator `handle(data:response:)`. It is an ordered chain of
  guards over what a data task delivered. It yields `invalidResponse` for a
  response that is not HTTP, `badStatusCode` for a status outside `200..<300`,
  `badData` for a missing body, the decoder's own error for malformed bytes,
  `jsonParsingError` for JSON that is not a top-level object, and otherwise
  the decoded `[String: Any]` dictionary.
- The bounded retry. `responseObservable(request:)` wraps the data task in
  `retryWhen`, and `errors.enumerated.flatMap` hands each error, with its
  0-based index `i`, to `handle(error:i:)`. That handler asks for a retry
  while `i < 3` and otherwise propagates the same error. So a fetch runs at
  most four data tasks. The same chain is repeated at top level, at lines
  193-202 of the page.

Everything is pure and stated as functions and lemmas.

- `foundation.dfy` (module `Foundation`) holds value stand-ins for the
  Foundation types involved: optionals, `Data`, `URLResponse` and
  `HTTPURLResponse`, JSON values and the data-task completion triple.
- `api_client.dfy` (module `ApiClient`) holds `APIError`, the validator, one
  attempt, the retry handler, RxSwift's `retryWhen`/`enumerated` loop over a
  handler, the client's fetch, and the lemmas about them.

Two things the code calls but cannot show are parameters of the model.

- The transport is `send: nat -> Exchange`. It gives the `(data, response,
  error)` triple that subscription number `k` receives from its data task.
- `JSONSerialization.jsonObject(with:options:)` is `decode: Data -> Decoded`.
  It either throws its own error (`Malformed`) or returns a JSON value of
  some shape (`Parsed`).

The retry operator is modelled once, generally: `RetryWhen` takes a
handler that, for each error and its index, asks for a retry or
propagates an error. It requires that the handler asks for a retry only
below some index bound. The client's handler is exactly `handle(error:i:)`.
It is proved to retry only below 3 (`ClientHandlerRetriesBelow`), and `Fetch` instantiates
the loop with it. The client itself accepts no pluggable policy.

The code makes three choices a reader might not expect, and the model
follows the code:

- The final error is propagated unchanged. It is not wrapped in a
  "retries exhausted" error.
- Only a missing body is rejected with `badData`. An empty body is handed to
  the decoder.
- The retry policy is fixed. The `.expiredToken` branch is commented out,
  so the error kind never affects the decision.

## Model

| member | source | states |
|---|---|---|
| `ApiClient.Validate` | Rx.playground/Pages/TryYourself.xcplaygroundpage/Contents.swift:157-175 | The first failing guard decides the outcome, in the code's order. The cast guard at line 158 is `Foundation.IsHttp` and the range guard at line 162 is `ApiClient.StatusAccepted`. A non-HTTP (or missing) response yields exactly `invalidResponse` carrying that response, whatever the body. An HTTP status outside 200..<300 yields exactly `badStatusCode` carrying that response. An accepted status with a missing body yields exactly `badData(nil, response)`. Past those guards, a decoder error is thrown on unchanged, a top-level object is the success value, and any other JSON shape is `jsonParsingError`. Success holds if and only if every guard passes and the body decodes to exactly that object. |
| `ApiClient.Attempt` | Rx.playground/Pages/TryYourself.xcplaygroundpage/Contents.swift:146-150 | A transport error reported by the data task ends the attempt with that error through `onError`, so the later `onNext` is never seen and the validator of lines 133-134 is not consulted. Without a transport error, the validator alone decides the attempt. A transport failure is the outcome exactly when the data task reported an error. |
| `ApiClient.HandleError` | Rx.playground/Pages/TryYourself.xcplaygroundpage/Contents.swift:177-190 | The handler asks for a retry if and only if `i < 3`. Otherwise it propagates the very same error. The decision depends on the index alone, never on the kind of error. |
| `ApiClient.ResolutionAt` | Rx.playground/Pages/TryYourself.xcplaygroundpage/Contents.swift:137-141 | Reference outcome of stopping on attempt `n`: exactly `n + 1` data tasks ran. A success is passed on, and a failure is replaced by the error the handler propagates. |
| `ApiClient.RetryWhen` | Rx.playground/Pages/TryYourself.xcplaygroundpage/Contents.swift:137-141 | For a handler that retries only below a bound, the loop started at index `i` ends after at least one further attempt and at most up to index `max(i, bound)`. It ends with the last attempt's success, or with the error the handler propagated for that attempt's failure. |
| `ApiClient.RetryWhenStopsAt` | Rx.playground/Pages/TryYourself.xcplaygroundpage/Contents.swift:137-141 | If every attempt from `i` to before `n` failed with a retry, and attempt `n` succeeded or was not retried, the loop resolves exactly as the reference outcome of attempt `n`. |
| `ApiClient.RetryWhenFitsReference` | Rx.playground/Pages/TryYourself.xcplaygroundpage/Contents.swift:137-141 | The attempt the loop ends on always fits the reference stopping description: every earlier attempt failed and was retried, and this one succeeded or was not retried. |
| `ApiClient.ClientHandlerRetriesBelow` | Rx.playground/Pages/TryYourself.xcplaygroundpage/Contents.swift:179-181 | The client's handler never asks for a retry at index 3 or above, which bounds the retry loop. |
| `ApiClient.ClientStopsAtIff` | Rx.playground/Pages/TryYourself.xcplaygroundpage/Contents.swift:179-188 | For the client's handler, "the loop stops on attempt `n`" holds exactly when `n <= 3`, every earlier attempt failed, and attempt `n` succeeded or `n == 3`. Both directions are stated. |
| `ApiClient.Fetch` | Rx.playground/Pages/TryYourself.xcplaygroundpage/Contents.swift:131-142 | `Fetch` runs `RetryWhen` from index 0 with `ClientHandler`, the closure at lines 137-141 that passes each error and its 0-based `enumerated` index to `HandleError`. A fetch runs between 1 and 4 data tasks. It ends on the attempt the budget rule picks, and its outcome is that attempt's own outcome, unchanged. |
| `ApiClient.FetchEndsAt` | Rx.playground/Pages/TryYourself.xcplaygroundpage/Contents.swift:131-141 | Conversely, whenever attempt `n` fits the budget rule, the fetch is exactly that attempt's outcome after `n + 1` data tasks. |
| `ApiClient.AllAttemptsFail` | Rx.playground/Pages/TryYourself.xcplaygroundpage/Contents.swift:179-181 | When all attempts fail, exactly 4 data tasks run. The fourth attempt's error is the final result, unwrapped. |
| `ApiClient.FirstSuccessStops` | Rx.playground/Pages/TryYourself.xcplaygroundpage/Contents.swift:133-141 | When attempt `n <= 3` is the first success, no further data task runs and its dictionary is the result. |
| `ApiClient.ValidFirstResponse` | Rx.playground/Pages/TryYourself.xcplaygroundpage/Contents.swift:157-171 | Suppose the first exchange is a 2xx HTTP response, with no transport error and a body that decodes to an object. Then the fetch yields that object after exactly one data task. |
| `ApiClient.SameFailurePattern` | Rx.playground/Pages/TryYourself.xcplaygroundpage/Contents.swift:133-141 | Transport errors and validation errors are counted by the same index. Two transports that fail at the same attempts among the first four, with any errors, run the same number of data tasks. |
| `ApiClient.StatusBoundaries` | Rx.playground/Pages/TryYourself.xcplaygroundpage/Contents.swift:162-164 | Statuses 199 and 300 yield `badStatusCode`, and 200 and 299 never do. |

## Left out

- The `URLSession` data task, `rx.json`, `Observable.create`, subscription and `DisposeBag` disposal are left out as I/O and reactive-runtime plumbing. The transport is the `send` parameter.
- `response(request:completion:)` only subscribes and calls the completion with each emitted dictionary, so it is left out as subscription plumbing.
- The internals of `JSONSerialization` are left out because it is a foreign library. The decoder is the `decode` parameter. Whether a top-level scalar is thrown as malformed or returned as a value depends on the decoder's options. The model allows both, and both fail the attempt.
- The emission of `onNext` after `onError` in the data-task wrapper is left out as a stream-protocol detail: after an error the stream is over and the value is never seen.
- Cancellation, asynchronous suspension, scheduling and timeouts are left out as concurrency concerns.
- RetryWhen: a handler that retries forever, so that the stream never ends, is not modelled. The operator requires an index bound above which the handler does not retry, and the client's own handler meets it.
- RetryWhen: a trigger observable that completes without a value or emits more than once is not modelled. `Decision` has only the two outcomes `handle(error:i:)` produces, `Observable.just(())` and `Observable.error(error)`.
- Swift's fixed-width `Int` for the index `i` is not modelled, because the index never exceeds 3.
- Swift's `Any` inside the dictionary is modelled as a JSON value. JSON numbers are modelled as exact reals.
- The playground scaffolding, the print examples, `fetchMedia` with its always-true stubs, and the commented-out stock and autocomplete code are left out. They are not part of the client.

# QuickHttp request lifecycle, modelled in Dafny

This project models the core of the QuickHttp plugin: the asynchronous HTTP JSON
request node `UHttpJsonRequestAsync`. A node is created by a factory that clamps
its parameters and registers it under a cancellation token. It makes an attempt
(builds and issues a transport call, arms a timeout watchdog) and decides in its
completion callback between retrying, failing and succeeding. When it finishes it
leaves its token's group and broadcasts exactly one outcome. A static token map,
shared by all nodes, lets `CancelByToken` abort a whole group at once.

The model is a sequential, event-driven controller:

- `wrappers.dfy`: the `Option` datatype.
- `quick_http_types.dfy` (module `QuickHttpTypes`): `int32`, `Header`, the five-verb
  `HttpMethod`, the `HttpError` record and its default value `DefaultError`
  (not an error, status 0, empty message and body).
- `backoff.dfy` (module `Backoff`): the integer multiplier `2^clamp(i, 0, 10)` of the
  retry delay.
- `token_groups.dfy` (module `TokenGroups`): the token map as a value
  (`map<int32, set<N>>`). Registration, deregistration and group cancellation are
  functions here, with their laws.
- `request_policy.dfy` (module `RequestPolicy`): the factory's clamps, the transport
  call an attempt builds, and the completion decision table `Decide`.
- `http_json_request_async.dfy` (module `HttpJsonRequestAsync`): the classes.
  - `CancelRegistry` holds the static `TokenMap`. Its `live` set says which nodes a
    weak reference still resolves to.
  - `Node` holds one request: its parameters, `attemptIndex`, `activeRequest` and the
    `completed` flag. It also logs what can be seen from outside: calls issued
    (`processCalls`), `CancelRequest` calls (`cancelCalls`), retries queued and fired,
    and the outcomes broadcast.
  - Each event is a method: `Activate`, `Attempt`, `WatchdogExpire`,
    `OnRequestComplete`, `RetryFires`, and the registry's `CancelByToken`.
  - The transport is a foreign call. The model gives its result to
    `OnRequestComplete` as input: whether it succeeded, plus an optional response
    (status code and body). An absent response stands for an invalid one.

`Node.Valid()` is the invariant every event preserves. It says:
- `0 <= attemptIndex <= maxRetries`;
- at most one retry is ever queued or at most one outcome ever broadcast, not both,
  because the callback decides at most once;
- either of them leaves `completed` set;
- each `Activate` puts at most one call on the wire (`processCalls <= activations`).

So no node ever broadcasts twice. `ScheduleRetry`, `FinishSuccess` and `FinishFailure`
can be called only in the state the callback leaves: flag set, nothing queued and
nothing broadcast. The completion callback can be called only after a call has been
issued.

The code disagrees with its own documentation on retries, and the model follows the
code.
- The callback sets the completed flag before it decides
  (`Source/QuickHttp/Private/Async/HttpJsonRequestAsync.cpp:124`).
- On the retry branch, nothing clears the flag afterwards.
- So the retried `Attempt` returns at its guard (`HttpJsonRequestAsync.cpp:72`). It
  issues no call, and the node never resolves.

`Node.RetryFires` states this: the retry ends with no new call and no outcome. The
scenario `ServerErrorRetryScenario` shows it for a 503 response with two retries
allowed. The header comment (`Source/QuickHttp/Public/Async/HttpJsonRequestAsync.h:38`)
promises retries on network failure and HTTP 5xx. As written, a node makes at most
one call per `Activate`, and the invariant states this. The model does not claim "N + 1 attempts".

The code also retries every status of 500 and above. It does not stop at 599.

## Model

| member | source | states |
|---|---|---|
| QuickHttpTypes.VerbName | Source/QuickHttp/Public/QuickHttpTypes.h:20-28 | the verb sent is "GET" exactly for GET; DELETE_ is sent and shown as "DELETE" |
| QuickHttpTypes.MethodsAreFive | Source/QuickHttp/Public/QuickHttpTypes.h:21-28 | the method enumeration has exactly five members, and they send five distinct verbs |
| Backoff.Pow2 | Source/QuickHttp/Private/Async/HttpJsonRequestAsync.cpp:179 | a power of two is at least 1, and even for a positive exponent |
| Backoff.Exponent | Source/QuickHttp/Private/Async/HttpJsonRequestAsync.cpp:179 | the attempt index clamped into [0, 10]: kept when in range, 0 below, 10 above |
| Backoff.Multiplier | Source/QuickHttp/Private/Async/HttpJsonRequestAsync.cpp:177-182 | the delay multiplier lies in [1, 1024]; it is 1 for index 0 or less and 1024 from index 10 on |
| Backoff.Pow2MonotoneLemma | Source/QuickHttp/Private/Async/HttpJsonRequestAsync.cpp:179 | powers of two grow with the exponent, and 2^10 = 1024 |
| Backoff.MultiplierMonotone | Source/QuickHttp/Private/Async/HttpJsonRequestAsync.cpp:179 | a later attempt index never gets a smaller multiplier |
| Backoff.MultiplierDoubles | Source/QuickHttp/Private/Async/HttpJsonRequestAsync.cpp:179 | below index 10 each further retry doubles the multiplier; from 10 on it stays the same |
| TokenGroups.Register | Source/QuickHttp/Private/Async/HttpJsonRequestAsync.cpp:38-41 | token 0 leaves the map unchanged; any other token gains the node in its set (the entry is created if absent); other tokens are untouched; the shape of the map is preserved |
| TokenGroups.Unregister | Source/QuickHttp/Private/Async/HttpJsonRequestAsync.cpp:186-192 | removes only this node from its token's set; the entry goes exactly when its set empties; other tokens are untouched; token 0 or a missing entry changes nothing |
| TokenGroups.CancelGroup | Source/QuickHttp/Private/Async/HttpJsonRequestAsync.cpp:60 | the token is absent afterwards and every other token keeps its set |
| TokenGroups.UnregisterUndoesRegister | Source/QuickHttp/Private/Async/HttpJsonRequestAsync.cpp:184-192 | deregistering a newly registered node gives back the registry as it was before |
| TokenGroups.UnregisterIdempotent | Source/QuickHttp/Private/Async/HttpJsonRequestAsync.cpp:200-206 | deregistering twice is the same as deregistering once |
| TokenGroups.CancelGroupIdempotent | Source/QuickHttp/Private/Async/HttpJsonRequestAsync.cpp:45-62 | cancelling a group a second time changes nothing |
| TokenGroups.FinishingBothClearsGroup | Source/QuickHttp/Private/Async/HttpJsonRequestAsync.cpp:186-192 | of two nodes under one token, finishing one leaves the other registered; finishing both deletes the entry |
| RequestPolicy.ClampTimeoutSeconds | Source/QuickHttp/Private/Async/HttpJsonRequestAsync.cpp:31 | the timeout is the larger of 1 and the input |
| RequestPolicy.ClampMaxRetries | Source/QuickHttp/Private/Async/HttpJsonRequestAsync.cpp:32 | the retry count is the larger of 0 and the input |
| RequestPolicy.ClampMaxPayloadKB | Source/QuickHttp/Private/Async/HttpJsonRequestAsync.cpp:34 | the payload limit lies in [1, 8192]; an in-range input is kept, others go to the nearer bound |
| RequestPolicy.BuildRequest | Source/QuickHttp/Private/Async/HttpJsonRequestAsync.cpp:78-98 | the caller's URL and the method's verb; Accept: application/json first, then the caller's headers in list order; Content-Type: application/json last and the body attached exactly when the body is non-empty and the method is not GET |
| RequestPolicy.Decide | Source/QuickHttp/Private/Async/HttpJsonRequestAsync.cpp:126-161 | retry exactly on transport failure or a status of 500 or more within the size limit, and only while attemptIndex < maxRetries, with the pre-increment index's multiplier; success exactly for a delivered 2xx within the limit, carrying its body and code; a size failure for any oversized delivered response, whatever its status; a network failure when the transport failed with no retries left; an HTTP error for every other status; every failure carries the status and body read (0 and empty for an invalid response) |
| RequestPolicy.OversizedIsNeverSuccess | Source/QuickHttp/Private/Async/HttpJsonRequestAsync.cpp:142-146 | an oversized response ends in "Payload too large" with no retry, whatever the status |
| RequestPolicy.ClientErrorIsNotRetried | Source/QuickHttp/Private/Async/HttpJsonRequestAsync.cpp:148-158 | a 4xx within the limit fails at once as "HTTP error" with retries left |
| RequestPolicy.ExhaustedRetriesFail | Source/QuickHttp/Private/Async/HttpJsonRequestAsync.cpp:129-158 | with no retries left a 5xx is an "HTTP error", and a transport failure with no valid response is "Network failure or timeout" with status 0 and empty body |
| HttpJsonRequestAsync.FactoryConfig | Source/QuickHttp/Private/Async/HttpJsonRequestAsync.cpp:26-36 | the factory's parameters are within bounds; method, URL, headers, body and token are stored unchanged; in-range inputs are kept |
| HttpJsonRequestAsync.DefaultsAreValid | Source/QuickHttp/Public/Async/HttpJsonRequestAsync.h:86-90 | the field initialisers are timeout 30, two retries, a 1024 KB limit and token 0, and these are already within the factory's bounds |
| HttpJsonRequestAsync.HttpJsonRequest | Source/QuickHttp/Private/Async/HttpJsonRequestAsync.cpp:14-43 | a fresh, live node with the clamped configuration, index 0, flag clear and no call; it is added to its token's set exactly when the token is non-zero, and nothing else in the registry changes |
| HttpJsonRequestAsync.CancelRegistry.constructor | Source/QuickHttp/Private/Async/HttpJsonRequestAsync.cpp:12 | the shared token map starts empty |
| HttpJsonRequestAsync.CancelRegistry.RemoveMember | Source/QuickHttp/Private/Async/HttpJsonRequestAsync.cpp:186-192 | the token map afterwards is Unregister of the one before |
| HttpJsonRequestAsync.CancelRegistry.CancelByToken | Source/QuickHttp/Private/Async/HttpJsonRequestAsync.cpp:45-62 | an absent token changes nothing; otherwise every live member gets one CancelRequest if it has an active call, and its flag set; members that are gone are skipped; no node broadcasts, retries or issues a call; the token is then absent and other tokens keep their sets |
| HttpJsonRequestAsync.CancelRegistry.Collect | Source/QuickHttp/Public/Async/HttpJsonRequestAsync.h:98 | after a node is released its weak reference no longer resolves; the token map keeps the stale entry |
| HttpJsonRequestAsync.Node.constructor | Source/QuickHttp/Public/Async/HttpJsonRequestAsync.h:92-96 | a new node has attempt index 0, no active request and the completed flag clear |
| HttpJsonRequestAsync.Node.Activate | Source/QuickHttp/Private/Async/HttpJsonRequestAsync.cpp:64-68 | counts one activation and resets the attempt index to 0, then behaves as Attempt |
| HttpJsonRequestAsync.Node.Attempt | Source/QuickHttp/Private/Async/HttpJsonRequestAsync.cpp:70-165 | a set flag makes it a no-op; otherwise the active request becomes BuildRequest of the configuration, one call is issued and the flag stays clear |
| HttpJsonRequestAsync.Node.WatchdogExpire | Source/QuickHttp/Private/Async/HttpJsonRequestAsync.cpp:104-119 | cancels the active call once, only while the flag is clear; it never sets the flag or changes anything else |
| HttpJsonRequestAsync.Node.OnRequestComplete | Source/QuickHttp/Private/Async/HttpJsonRequestAsync.cpp:121-162 | delivered only after a call was issued; a no-op when the flag is already set; otherwise the flag is set, and then as Decide says: a retry queues the multiplier and raises the index by exactly 1, and any other decision removes the node from its group and broadcasts exactly one Success or Failure (isError true, status, message, body) |
| HttpJsonRequestAsync.Node.ScheduleRetry | Source/QuickHttp/Private/Async/HttpJsonRequestAsync.cpp:167-175 | callable only from the callback's undecided state; queues one retry with the given multiplier and changes nothing else |
| HttpJsonRequestAsync.Node.RetryFires | Source/QuickHttp/Private/Async/HttpJsonRequestAsync.cpp:169-173 | a queued retry runs Attempt with the flag still set, so it issues no call and broadcasts nothing |
| HttpJsonRequestAsync.Node.FinishSuccess | Source/QuickHttp/Private/Async/HttpJsonRequestAsync.cpp:184-196 | callable only from the callback's undecided state; the registry loses only this node, and the entry goes if its set empties; OnSuccess is broadcast with the body and status; the node invariant holds afterwards |
| HttpJsonRequestAsync.Node.FinishFailure | Source/QuickHttp/Private/Async/HttpJsonRequestAsync.cpp:198-211 | callable only from the callback's undecided state; the registry changes in the same way; OnFailure is broadcast with isError true and the given status, message and body; the node invariant holds afterwards |
| HttpJsonRequestAsync.ServerErrorRetryScenario | Source/QuickHttp/Private/Async/HttpJsonRequestAsync.cpp:121-175 | a 503 with two retries allowed queues one retry; after the retry fires there is still one call on the wire, the flag is set and there is no outcome, and the invariant rules out any later outcome |
| HttpJsonRequestAsync.GroupCancelScenario | Source/QuickHttp/Private/Async/HttpJsonRequestAsync.cpp:45-62 | two started nodes under one token are both cancelled silently; the entry is gone; the late failure report is ignored; a second cancel is a no-op |
| HttpJsonRequestAsync.WatchdogTimeoutScenario | Source/QuickHttp/Private/Async/HttpJsonRequestAsync.cpp:104-139 | with no retries, a watchdog cancel followed by the failed report gives one "Network failure or timeout" failure with status 0 |

## Left out

- Threads and timing: the watchdog's 0.05 s polling loop, the retry thread's sleep,
  the hop back to the game thread, and `FThreadSafeBool` atomicity. Each becomes a
  discrete event delivered to a sequential controller. Elapsed time is not modelled.
  `WatchdogExpire` stands for the watchdog's final check.
- Floating point and randomness: `BackoffBaseSeconds`, its clamp to 0.01, the float
  delay and the `FRandRange` jitter. Only the integer multiplier `2^clamp(i, 0, 10)`
  is kept. It is recorded for each queued retry.
- The transport (`FHttpModule`, `IHttpRequest`): the model records what is set on
  the request (`TransportCall`). It counts `ProcessRequest` and `CancelRequest`
  calls. A response is reduced to (succeeded, optional status and body). The
  library's own handling of repeated header names is not modelled.
- Whether `CancelRequest` runs the completion callback synchronously is library
  behaviour. The model delivers a cancelled call's report as a later
  `OnRequestComplete`. After a group cancel the flag is already set, so that report
  is ignored.
- Unreal object lifetime: delegate broadcast mechanics, `SetReadyToDestroy`, garbage
  collection, `TWeakObjectPtr` and `WorldContextObject`. Liveness is the registry's
  `live` set, and `Collect` releases a node. When the engine releases a node is not
  modelled.
- The body's size is the length of a Dafny string, and one model character stands for
  one `FString` character (TCHAR). `FString::Len` counts TCHAR code units, which are
  UTF-16 on Windows. A character outside the Basic Multilingual Plane counts twice
  there but once here, so the size check can come out differently for such bodies.
  The model also does not bound the length to 32 bits.
- The JSON builder, the JSON pretty-print library and the build file are not part
  of this model. They are forwarding wrappers over the engine's JSON library, or
  build configuration.

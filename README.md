# Rate-limiting gateway: a Dafny model of its forwarding core

The gateway sits in front of one backend service. Every request on its catch-all route goes
through a rate-limit check, then through a forward that holds a permit of a counting semaphore
while it rebuilds the request, sends it to the backend and mirrors the answer back. A health
handler builds a report on the shared store and the backend, together with two process-wide
request counters.

Three facts about the code shape the model:

- The rate-limit check does not count anything in a window. It adds one to
  `total_requests_processed` and always admits, so no request is ever answered 429.
- The forward's semaphore waits for a free permit. It does not answer 503 when busy.
- The health handler always returns its report body with status 200. As registered, though,
  it is never reached: the catch-all route comes first and also takes `GET /health` (see
  "## Findings").

Modules, in dependency order:

- `Wrappers`: `Option` and `Result`.
- `Http`: requests, outbound requests, backend replies, responses, errors, and `Fault`.
  A `Fault` is an exception raised during the forward or the probe. Its class memberships are independent
  flags.
- `Clauses`: an ordered `except` chain as a reference definition. `FirstMatch` gives the first
  clause whose class the exception belongs to.
- `Text`: Python's case-sensitive substring test `pat in s` as `Contains`, proved equal to the
  definition by occurrence position. It also has the decimal rendering of an integer.
- `Permits`: the semaphore as a `PermitPool` class with a `permits` field. It also has a model
  of the acquire/release events of concurrent forwards; the pool's ghost `trace` of those
  events ties the two, its free count always being what the trace leaves.
- `Routing` (main.py): the framework's choice of handler, with routes tried in registration order.
- `Proxy` (proxy.py): header rewrite, target URL, response mirroring, exception-to-status
  mapping, the forward as written and corrected as spec functions, and the imperative
  `ForwardProxy` method, which does what the code as written does.
- `Health` (main.py): the two status strings, the overall status computed from them, and its
  classification by probe outcome.
- `Gateway` (main.py): the `GatewayState` class with the two counters, and the rate-limit,
  catch-all and health operations.

Inputs stand in for what the model cannot see:

- the backend's answer to a forward (`BackendReply`);
- the result of pinging the store (`RedisProbe`);
- the result of probing the backend's health route (`BackendProbe`).

## Model

| member | source | states |
|---|---|---|
| `Gateway.GatewayState.constructor` | main.py:35-36 | both counters start at zero |
| `Gateway.GatewayState.IsRateLimited` | main.py:60-68 | never limits; processed grows by exactly one; blocked is unchanged and stays zero |
| `Gateway.GatewayState.CatchAllProxy` | main.py:71-80 | on the pool of `MaxConcurrentRequests` permits; with a client: counts one request, never answers 429, returns exactly what `forward_proxy` as written gives (`Proxy.ForwardAsWritten`), one entry and one exit on the pool's trace, pool back to its entry count; without a client: the host lookup fails first, the answer is the framework's 500, counters untouched |
| `Gateway.GatewayState.HealthCheck` | main.py:85-129 | reports both status strings, the overall status by probe outcome, and the counters verbatim (blocked is zero); changes nothing |
| `Health.OverallStatus` | main.py:117-119 | the overall status is one of OK, DEGRADED, UNHEALTHY |
| `Health.HealthMatrix` | main.py:117-119 | the string-based classifier equals the classification by probe outcome: OK unless the store ping raised or the backend is down; then DEGRADED iff the other side answered or an exception message contains "Connected"; else UNHEALTHY |
| `Health.RedisTextMarkers` | main.py:90-99 | the store's status string holds "Disconnected" iff the ping raised; it holds "Connected" iff the ping answered or the exception message holds it |
| `Health.BackendTextMarkers` | main.py:101-115 | the backend's status string holds a failure marker iff it failed to connect or failed unexpectedly; it holds "Connected" iff it answered or the message holds it |
| `Health.StatusErrorTextMarkers` | main.py:110-112 | "Connected (backend error status: N)" holds "Connected" and neither marker, for every N |
| `Health.ErrorStatusStaysOk` | main.py:110-119 | an error status from the backend leaves a connected store's overall status OK |
| `Health.NotInitializedDoesNotDegrade` | main.py:95-119 | a never-initialised store client gives OK exactly when a connected store would |
| `Health.BothDownUnhealthy` | main.py:117-119 | both failing without "Connected" in the messages gives UNHEALTHY; one side up gives DEGRADED |
| `Text.ContainsIffOccurs` | main.py:118 | the substring test holds iff the pattern occurs at some position |
| `Text.Contains` | main.py:118 | Python's `pat in s`; characterised by `Text.ContainsIffOccurs` |
| `Text.Digits` | main.py:112 | the digits of a natural number: non-empty, only decimal digits, no leading zero (a single "0" for zero) |
| `Text.DigitsRoundTrip` | main.py:112 | reading the digits back gives the number, for every natural number |
| `Text.DecimalString` | main.py:112 | `str(n)`: an optional minus sign exactly for a negative number, then the canonical digits (no leading zero unless the digits are "0"); reading it back with `int` gives `n`, for every integer |
| `Health.RedisStatusText` | main.py:90-99 | a failed ping's text is "Disconnected: " followed by the exception text verbatim; its markers are characterised by `Health.RedisTextMarkers` |
| `Health.StatusErrorText` | main.py:112 | the error-status text ends in ")"; its markers are characterised by `Health.StatusErrorTextMarkers` |
| `Health.StatusCodeReadBack` | main.py:112 | the status code is read back exactly from between the prefix and the closing parenthesis |
| `Health.BackendStatusText` | main.py:101-115 | the except clauses in order: a request error keeps its message after "Disconnected (connection error): ", a status error gives the error-status text of its code, anything else keeps its message after "Error: "; markers by `Health.BackendTextMarkers` |
| `Proxy.ForwardHeaders` | proxy.py:25-33 | no "host" key; X-Forwarded-For is the client host or "unknown"; X-Forwarded-Proto is the scheme; every other inbound entry is kept unchanged; the key set is exactly those |
| `Proxy.Target` | proxy.py:23-31 | the target starts with the path and is longer than it exactly when a query is present |
| `Proxy.TargetRoundTrip` | proxy.py:30-31 | for a path without "?", splitting the target at its first "?" gives back the path and the query |
| `Proxy.SplitTargetShape` | proxy.py:30-31 | a target with a "?" is its path part, "?", its query part, with a strictly shorter path part; one without is all path |
| `Proxy.DecodedQuestionMarkMoves` | proxy.py:23-31 | for every path that holds "?", the receiver does not get the path and query back: it cuts the path at its first "?", so the path read back is shorter, and the query longer when there was one |
| `Proxy.OutboundFor` | proxy.py:23-42 | method and body are sent verbatim, with the rewritten target and headers |
| `Proxy.OutboundKeepsOtherHeaders` | proxy.py:25-33 | apart from "host" and the two forwarding headers, the outbound header map equals the inbound one |
| `Proxy.Mirror` | proxy.py:44-49 | status, content and headers are mirrored; the media type is the backend's Content-Type, else "application/json" |
| `Clauses.FirstMatch` | proxy.py:51-59 | the chosen clause matches the exception and no earlier clause does |
| `Proxy.ErrorFor` | proxy.py:51-59 | every exception is answered with 500, 503 or 504 |
| `Proxy.ErrorForFollowsChain` | proxy.py:51-59 | the error raised is that of the first matching clause of request error, timeout, any exception |
| `Proxy.ErrorStatusByKind` | proxy.py:51-59 | 503 iff a request error; 504 iff a timeout that is not a request error; 500 iff neither |
| `Proxy.TimeoutShadowedByRequestError` | proxy.py:51-56 | as written, if every timeout is also a request error, 504 is never produced |
| `Proxy.ErrorForCorrected` | proxy.py:51-59 | corrected: a timeout is answered 504 even when it is also a request error; any other request error 503; anything else 500 |
| `Proxy.CorrectedFollowsChain` | proxy.py:51-59 | the corrected mapping is the first matching clause of the chain timeout, request error, any exception |
| `Proxy.CorrectionOnlyMovesTimeouts` | proxy.py:51-59 | the corrected and as-written mappings differ exactly on a timeout that is also a request error |
| `Proxy.Forward` | proxy.py:17-59 | corrected forward: the outbound request is always sent; a backend answer is mirrored; an exception is mapped by the corrected chain, so an error is 500, 503 or 504 |
| `Proxy.ForwardAsWritten` | proxy.py:17-59 | as written: with a client, the rewritten request is always sent and exceptions follow the source clause order, and the result agrees with the corrected forward unless the exception is a timeout that is also a request error |
| `Proxy.NoClientFailsAsWritten` | proxy.py:35-59 | as written, a request without a client sends nothing and is answered 500 |
| `Proxy.NoClientForwardedAsUnknown` | proxy.py:32 | corrected, a request without a client is sent with X-Forwarded-For "unknown" |
| `Proxy.AsWrittenDiffers` | proxy.py:32-56 | the as-written and corrected forwards differ exactly on requests without a client and on timeouts that are also request errors |
| `Proxy.ForwardProxy` | proxy.py:17-59 | the imperative forward returns exactly `forward_proxy`'s result as written (`Proxy.ForwardAsWritten`): a request without a client fails at the log line before anything is sent, exceptions in source clause order; the pool sees one entry and one exit and holds as many permits on exit as on entry |
| `Routing.FirstFullMatch` | main.py:71-84 | the chosen route matches path and method, and no route registered before it does |
| `Routing.CatchAllShadowsHealth` | main.py:71-84 | over the two routes of main.py as registered, every request with a listed method, `GET /health` included, goes to the catch-all; other methods get 405; the health handler is never chosen |
| `Routing.HealthFirstReachesHealth` | main.py:71-84 | with the health route first, `GET /health` reaches the health handler and every other listed request still reaches the catch-all |
| `Permits.PermitPool.constructor` | proxy.py:12 | a pool of the given size starts full with nothing in flight and an empty trace |
| `Permits.PermitPool.InFlight` | proxy.py:12 | the permits held are the entries on the trace not yet exited; held plus free equal the pool size |
| `Permits.PermitPool.Acquire` | proxy.py:21 | taking a permit lowers the free count by one, keeps it non-negative, and records one entry on the trace, whose `PermitsAfter` stays the free count |
| `Permits.PermitPool.Release` | proxy.py:21 | giving a permit back raises the free count by one, never above the pool size, and records one exit on the trace |
| `Permits.EnterStep` | proxy.py:21 | an entry while permits are free leaves one fewer, the step `Acquire` takes |
| `Permits.EnterBlocked` | proxy.py:21 | an entry while no permit is free is not a trace the semaphore allows |
| `Permits.ExitStep` | proxy.py:21 | an exit gives one permit back, the step `Release` takes |
| `Permits.FreeCount` | proxy.py:12-21 | along any trace the semaphore allows, the free permits are the pool size less the entries not yet exited |
| `Permits.InFlightBounded` | proxy.py:12-21 | along any semaphore trace, forwards in flight never exceed the pool size and the free permits are the size minus those in flight; with every exit paired to an entry, the free permits never exceed the pool size |
| `Permits.AllExitedRestoresPool` | proxy.py:12-21 | once every forward that entered has left, the pool is full again |

## Findings

| source | as written | input that shows it | evidently intended | confidence | as-written member | corrected member |
|---|---|---|---|---|---|---|
| proxy.py:32-35 | line 32 guards a missing client with "unknown", but the log line at 35 reads `request.client.host` without the guard; the error that raises is caught by the catch-all clause | a request whose `client` is None | the request is forwarded with `X-Forwarded-For: unknown` | high; not executed | `Proxy.ForwardAsWritten` | `Proxy.Forward` |
| proxy.py:51-56 | the request-error clause comes before the timeout clause; in the HTTP client library a timeout exception is a request error, so it is answered 503 | a backend call that times out | a timeout is answered 504 "Gateway timeout" | medium, since it rests on the library's exception classes; not executed | `Proxy.TimeoutShadowedByRequestError` | `Proxy.ErrorForCorrected` |
| main.py:71-84 | the catch-all route `/{path:path}` with GET is registered before `/health`, and routes are tried in registration order | `GET /health` | `GET /health` is answered by the health handler | high; not executed | `Routing.CatchAllShadowsHealth` | `Routing.HealthFirstReachesHealth` |

`Proxy.NoClientFailsAsWritten` proves the as-written behaviour: nothing is sent and the answer
is 500 "Internal Gateway error". `Proxy.NoClientForwardedAsUnknown` proves the corrected one.
Through the catch-all route the case is not reached anyway: main.py:73 reads the same host
first, and that failure is modelled in `CatchAllProxy`.
`Proxy.ForwardProxy` and `Gateway.GatewayState.CatchAllProxy` do what the code as written does
(`Proxy.ForwardAsWritten`). `Proxy.Forward` is the corrected forward, with the guarded log line
and the corrected exception mapping; `Proxy.AsWrittenDiffers` states exactly where the two
forwards part. `Gateway.GatewayState.HealthCheck` models the health handler for when it
is reached, as with the corrected route order; as registered, `GET /health` instead counts one
request and is forwarded to the backend's own `/health`.

## Left out

- Store connection, ping, startup and shutdown (main.py:38-58, main.py:91-99): network I/O. The ping's result is the input `RedisProbe`.
- The HTTP client's calls to the backend (proxy.py:15, proxy.py:37-42, main.py:103-105): network I/O. Their results are the inputs `BackendReply` and `BackendProbe`.
- Whether a success or error status makes `raise_for_status` raise is library behaviour. `BackendProbe` takes that outcome as given.
- The class hierarchy of the client library's exceptions is not part of this model. Request error, timeout and status error are independent flags, and clause order decides. The second "## Findings" row rests on that hierarchy.
- The waiting inside the semaphore and all asyncio scheduling: concurrency. `Acquire` requires a free permit, which covers the moment the semaphore grants it. The interleaving of several forwards is covered only by the event traces of `Permits`.
- The fixed-window counter, `Retry-After`, the fail-open or fail-closed policy and the 503-on-busy admission: the code does not implement them.
- The 429 detail text and its `RATE_LIMITS[request.method]` lookup (main.py:76-79): that branch is dead because the check never limits. The model keeps the branch with a fixed detail text.
- The `"http"` fallback for X-Forwarded-Proto (proxy.py:33): the request's URL object is always present, so the model's `Request` always carries a `Url` and the header is always the scheme.
- Proxy.Mirror: looks up "Content-Type" by its exact key. The client library's header lookup ignores case, and that is not modelled.
- How the framework's response object fills in content-length and adds the media type only when no content-type header is present: framework behaviour. `Response` records the constructor's arguments.
- How `dict(request.headers)` lower-cases keys and keeps the first value of a repeated header: framework behaviour. The inbound `headers` map is that dictionary as given.
- How the framework builds `request.url`: it rebuilds the URL from the decoded path and "?query" and splits it again, so a percent-decoded "%3F" in the path is already cut there before the forward reads `url.path`. That is framework behaviour. `Proxy.DecodedQuestionMarkMoves` states the same cut as a fact about the target the forward builds, for any path holding "?".
- Route matching beyond the two routes of main.py: framework behaviour. The framework registers its own documentation routes (`/openapi.json`, `/docs`, `/docs/oauth2-redirect`, `/redoc`) before main.py's, so a GET or HEAD of those never reaches the catch-all; trailing-slash redirects, mounts and middleware are not modelled either. `Routing` models only first-match over main.py's two routes.
- Reading the request body (proxy.py:27): the body is given as bytes. A failure while reading it is not modelled.
- Logging and CORS middleware (main.py:17-32, proxy.py:9-10): framework plumbing.
- The HTTP status of the health answer: the code always answers 200. `HealthReport` models the body.
- Configuration (config.py) other than `MAX_CONCURRENT_REQUESTS = 5`, which is `Permits.MaxConcurrentRequests`, the size `CatchAllProxy` requires of its pool. The dummy backend is not part of this model.

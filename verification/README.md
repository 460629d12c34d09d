# Load balancer routing and retry decisions, in Dafny

This project models the decision-making core of a reverse-proxy load
balancer written in C#: how a backend is chosen for a request, and how the
forwarding engine retries and settles on the one status it writes back. The
network is replaced by oracles, so every decision is a pure function:

- **Round robin** (`RoundRobin`, `round_robin.dfy`): a bounded scan of at most
  `n` probes. Each probe increments the strategy's cursor and takes index
  `cursor % n`. The cursor is an explicit `nat` passed in and returned. The
  health prober is a function `Server -> bool`.
- **Sticky session** (`StickySession`, `sticky_session.dfy`): the `session-id`
  cookie, a point lookup in the external key/value store, and a health probe
  of the recorded backend. Any other case runs the same bounded scan on this
  strategy's own cursor. The store is a read-only `map<string, string>`
  parameter. The strategy never writes to it, so the model has no store output.
- **Forwarding** (`Forwarding`, `forwarding.dfy`): the retry loop over attempts
  `1 .. maxRetries + 1`. Each attempt's outcome comes from an oracle indexed by
  the attempt number. The outcome is a response, a cancellation of the
  combined timeout/abort token, a transport error (`HttpRequestException`),
  or an exception neither catch clause takes, raised before or after the
  request is sent. The result is the single
  terminal reply plus the URLs sent. Also in this module: URL construction,
  and the response-header copy that drops `Content-Length` and
  `Transfer-Encoding`.
- **Strategy factory** (`StrategyFactory`, `strategy_factory.dfy`): exact
  string dispatch to the two strategies. It also models the two singleton
  instances, each with its own cursor, that requests are routed through.
- **Cursor overflow** (`CursorOverflow`, `cursor_overflow.dfy`): the source's
  32-bit cursor with its wrap and C#'s truncating `%`. This is the as-written
  half of the finding below.

Three facts about the source shape the model:

- The sticky strategy never writes a fallback choice back to the store
  (LoadBalancer/StickySessionStrategy.cs:30, 33-47).
- It keeps its own cursor field (LoadBalancer/StickySessionStrategy.cs:8).
- An inbound header that the request-header slot rejects is dropped, because
  `Content` is still null at LoadBalancer/ForwardingService.cs:101.

## Model

| member | source | states |
|---|---|---|
| RoundRobin.CandidateIndex | LoadBalancer/RoundRobinStrategy.cs:11 | the candidate index taken from an advanced cursor always lies inside the list |
| RoundRobin.ScanFrom | LoadBalancer/RoundRobinStrategy.cs:9-18 | after `done` probes the rest of the loop probes at most `n - done` more. The k-th probe is at `(cursor + k + 1) % n` and the cursor advances once per probe. Everything probed before the last was unhealthy, and the last was healthy exactly when the call succeeds. Success returns the last probed backend. Failure follows exactly `n - done` probes |
| RoundRobin.GetBackendServer | LoadBalancer/RoundRobinStrategy.cs:7-19 | at most `n` probes, the k-th at `(cursor + k + 1) % n`, and the cursor advances by the number of probes. The result is the first healthy candidate, is an element of the list and was found healthy. Failure carries "No healthy backend servers available" after exactly `n` probes, all unhealthy |
| RoundRobin.ProbeReaching | LoadBalancer/RoundRobinStrategy.cs:9-11 | for every index `j < n` some probe `k < n` of a full scan lands on `j` (n consecutive increments mod n cover every index) |
| RoundRobin.HealthyServerIsFound | LoadBalancer/RoundRobinStrategy.cs:9-15 | if any listed backend is healthy, the call succeeds |
| RoundRobin.FailsIffNoneHealthy | LoadBalancer/RoundRobinStrategy.cs:9-18 | the call fails if and only if no listed backend is healthy |
| RoundRobin.CallRepeatedly | LoadBalancer/RoundRobinStrategy.cs:5-11 | m single-threaded calls yield m results and advance the cursor by exactly the probes they made. On a non-empty list that is at least one per call, so the cursor strictly increases from call to call |
| RoundRobin.AllHealthyOneProbe | LoadBalancer/RoundRobinStrategy.cs:11-15 | with every backend healthy, a call makes one probe, returns `servers[(c + 1) % n]` and leaves the cursor at `c + 1` |
| RoundRobin.AllHealthyCursor | LoadBalancer/RoundRobinStrategy.cs:9-15 | with every backend healthy, m successive calls leave the cursor at `c + m` |
| RoundRobin.AllHealthyRotation | LoadBalancer/RoundRobinStrategy.cs:11-15 | with every backend healthy, the i-th of m successive calls returns `servers[(c + i + 1) % n]` |
| CursorOverflow.Increment32 | LoadBalancer/RoundRobinStrategy.cs:11 | the 32-bit atomic increment adds one, wrapping from `int.MaxValue` to `int.MinValue` |
| CursorOverflow.TruncatedRemainder | LoadBalancer/RoundRobinStrategy.cs:11 | C#'s `%` agrees with the mathematical remainder on non-negative dividends; on negative ones it is zero or negative, above `-n`, and differs from the dividend by a multiple of `n`, which fixes its value |
| CursorOverflow.CandidateIndex32 | LoadBalancer/RoundRobinStrategy.cs:11 | the source's index computation lies strictly between `-n` and `n`, so it can be negative |
| CursorOverflow.AgreesBeforeWrap | LoadBalancer/RoundRobinStrategy.cs:11 | below the wrap point the 32-bit index equals the unbounded model's index |
| CursorOverflow.WrappedCursorIndexIsNegative | LoadBalancer/RoundRobinStrategy.cs:11-12 | the increment past `int.MaxValue` with three backends computes index -2, which is outside the list |
| StickySession.Fallback | LoadBalancer/StickySessionStrategy.cs:33-47 | the fallback scan keeps the earlier probes as a prefix and adds at most `n` more. Its result is a listed, healthy backend, probed last. Failure carries the no-healthy-backend message after the cursor moved by `n`. The cursor never moves backwards |
| StickySession.SessionKey | LoadBalancer/StickySessionStrategy.cs:18-20 | a session key exists exactly when the request carries the `session-id` cookie, and it is that cookie's value |
| StickySession.Lookup | LoadBalancer/StickySessionStrategy.cs:22-24 | a record is found exactly when there is a session key and the store holds it, and the record is the stored value |
| StickySession.GetBackendServer | LoadBalancer/StickySessionStrategy.cs:16-31 | the store is looked up exactly when the `session-id` cookie is present, under that cookie's value. A returned backend is the last one probed and was healthy. At most `n + 1` probes are made. Failure carries the no-healthy-backend message after a full scan of `n` probes. The fallback cursor never moves backwards |
| StickySession.StickyHit | LoadBalancer/StickySessionStrategy.cs:18-27 | cookie present, record present and healthy: the recorded backend is returned verbatim after exactly one probe, and the cursor does not move |
| StickySession.FallbackIsRoundRobinScan | LoadBalancer/StickySessionStrategy.cs:18-30 | with no cookie, a store miss or an unhealthy record, the outcome and cursor are those of the round-robin scan; the probe list is the unhealthy record's one probe, if a record was found, followed by the scan's probes, so a missing cookie or a store miss probes nothing before the scan |
| StickySession.UnhealthyRecordNeverReturned | LoadBalancer/StickySessionStrategy.cs:22-30 | a recorded backend that probes unhealthy is never the result |
| StickySession.SucceedsIfAnyHealthy | LoadBalancer/StickySessionStrategy.cs:16-47 | if any listed backend is healthy, the call succeeds whatever the cookie and store hold |
| StickySession.StickyHitOutsideList | LoadBalancer/StickySessionStrategy.cs:22-26 | a recorded backend outside the configured list is returned; the record is not checked against the list |
| Forwarding.BackendUrl | LoadBalancer/ForwardingService.cs:45 | the outbound URL is the backend base, then the path, then the query string, each in its own segment |
| Forwarding.Copyable | LoadBalancer/ForwardingService.cs:125-131 | a header is copyable exactly when it is not `Content-Length` or `Transfer-Encoding`, and it keeps its values |
| Forwarding.CopyResponseHeaders | LoadBalancer/ForwardingService.cs:125-131 | the result holds the earlier headers plus every non-framing response and content header. Content headers win over same-named response headers, and those win over earlier values. Framing headers come only from what was there before |
| Forwarding.Settle | LoadBalancer/ForwardingService.cs:53-65 | a response relays its status, a cancellation writes 504 "Gateway Timeout", and any other exception, before or after the send, leaves the method unhandled |
| Forwarding.ForwardFrom | LoadBalancer/ForwardingService.cs:28-84 | after `attempt` attempts the loop sends at most `maxRetries + 1 - attempt` times, always to the same URL. It ends in `Unwritten` exactly when the loop condition is false on entry; otherwise it ends in at most one written reply or an escaping exception. Bad Gateway comes only when the attempt counter reaches `maxRetries + 1` |
| Forwarding.ForwardRequestToBackend | LoadBalancer/ForwardingService.cs:18-87 | at most `maxRetries + 1` sends, all to `backend + path + query`. An empty path gives 400 "Invalid request path" with nothing sent. The loop ends in a written reply or an escaping exception exactly when `maxRetries >= 0`. 502 comes only after the full budget of sends |
| Forwarding.ForwardFromSettles | LoadBalancer/ForwardingService.cs:28-84 | entered after transport errors, the loop writes the reply of the first non-transport attempt after exactly the sends up to it; an attempt that fails before sending adds no send |
| Forwarding.ForwardFromExhausts | LoadBalancer/ForwardingService.cs:67-80 | entered after transport errors when only transport errors follow, the loop sends once per remaining attempt and writes 502 |
| Forwarding.FirstNonTransport | LoadBalancer/ForwardingService.cs:30-32 | if some attempt in the budget is not a transport error, there is a first such attempt |
| Forwarding.FirstSettledAttemptDecides | LoadBalancer/ForwardingService.cs:28-84 | the reply is the settled reply of the first attempt that is not a transport error. It comes after exactly that many sends, or one fewer when that attempt fails before its request is sent |
| Forwarding.AllTransportErrorsGiveBadGateway | LoadBalancer/ForwardingService.cs:67-80 | a transport error on every attempt writes 502 "Bad Gateway" after exactly `maxRetries + 1` sends |
| Forwarding.BadGatewayIffAllTransportErrors | LoadBalancer/ForwardingService.cs:67-80 | 502 is written if and only if every attempt of the budget fails at the transport level |
| Forwarding.CancellationIsTerminal | LoadBalancer/ForwardingService.cs:57-66 | a cancellation on attempt k, after k - 1 transport errors, writes 504 "Gateway Timeout" after exactly k sends; no send follows |
| Forwarding.RetriedResponseIsRelayed | LoadBalancer/ForwardingService.cs:49-83 | k <= maxRetries transport errors and then a response relay that response's status after exactly k + 1 sends |
| Forwarding.RelayedFromSomeResponse | LoadBalancer/ForwardingService.cs:49-55 | a relayed reply is the status and header copy of some later attempt's response |
| Forwarding.RelayedHeadersHaveNoFraming | LoadBalancer/ForwardingService.cs:125-131 | starting from an empty response, relayed headers never contain `Content-Length` or `Transfer-Encoding` |
| Forwarding.NegativeRetriesWriteNothing | LoadBalancer/ForwardingService.cs:28-30 | with a negative retry count the loop never runs: nothing is sent and no status is written |
| StrategyFactory.GetStrategy | LoadBalancer/LoadBalancingStrategyFactory.cs:12-20 | a strategy results if and only if the name is exactly "RoundRobin" or "StickySession", and that strategy's name is the input. Anything else is the error "Unknown strategy: " followed by the name |
| StrategyFactory.GetStrategyOfName | LoadBalancer/LoadBalancingStrategyFactory.cs:14-17 | each strategy is found again from its own configuration name |
| StrategyFactory.LowerCaseRejected | LoadBalancer/LoadBalancingStrategyFactory.cs:14-18 | matching is case-sensitive: "roundrobin" and "stickysession" are rejected |
| StrategyFactory.Route | LoadBalancer/LoadBalancerMiddleware.cs:25-26 | an unknown strategy moves no cursor. Each strategy advances only its own cursor, and never backwards. A selected backend was found healthy |
| StrategyFactory.CursorsAreIndependent | LoadBalancer/StickySessionStrategy.cs:8 | a round-robin request before a sticky request does not change the sticky request's result |

## Left out

- Health probing (`HealthCheckService.IsServerHealthy`, an HTTP GET of `/health` that is true for a 2xx status and false on any exception) is the uninterpreted `HealthOracle`. The test backend's health endpoint is not modelled.
- The health answer for a backend is constant within a call and over successive calls. The source probes afresh each time, so a backend can change between two probes. StickySession.UnhealthyRecordNeverReturned, RoundRobin.AllHealthyCursor and RoundRobin.AllHealthyRotation depend on this. In the source a recorded backend that probes unhealthy at StickySessionStrategy.cs:24 and is also listed is probed again at :40, and is returned if it has recovered.
- Concurrency: `Interlocked.Increment` is a sequential cursor update. Interleavings of concurrent requests are not modelled.
- RoundRobin.GetBackendServer: the cursor is an unbounded `nat`, so the 32-bit wrap is not part of it. The wrap is modelled separately in `CursorOverflow` (see Findings).
- StickySession.GetBackendServer: the fallback cursor has the same 32-bit wrap as the round-robin one, and it is not modelled.
- Streaming: request body buffering, `StartAsync`, the body copy and `CompleteAsync`. An exception raised while the body streams, after the status is set, is not modelled.
- Forwarding.Settle: the 504 and 502 replies assume their body writes succeed. ForwardingService.cs:63 writes "Gateway Timeout" with the very token the filter at :57 found cancelled. If the server honours that token, the write throws out of the catch block and the caller gets no body. That depends on framework code, so the model does not decide it.
- The inter-retry `Task.Delay` is a no-op. A cancellation during the delay, which escapes the method, is not modelled.
- The inbound header copy onto the outbound request is not modelled, because it depends on .NET header validation rules. The request method is carried in `Request` but decides nothing.
- Request path and query string: `Request.path` and `Request.queryString` stand for the escaped URI forms the server renders, which is what ForwardingService.cs:36 and :45 see. Escaping itself (for example a space becoming `%20`) is not modelled.
- Attempt outcomes come from an oracle indexed by attempt number, independent of one another. In the source the URL is the same on every attempt, so the URI constructor at ForwardingService.cs:94 fails on the first attempt or never. The oracle also allows `FaultedBeforeSend` after transport errors.
- Forwarding.ForwardFrom: `attempt` and `maxRetries` are unbounded integers. In the source `attempt` is a 32-bit `int` (ForwardingService.cs:30-32, :71). With `maxRetries == int.MaxValue`, `attempt > maxRetries` is never true, `attempt++` wraps to `int.MinValue`, and 502 is never written. The model writes 502 after 2^31 transport errors for that value. Forwarding.AllTransportErrorsGiveBadGateway and Forwarding.BadGatewayIffAllTransportErrors state this unbounded behaviour. The value is not excluded, because the source accepts it.
- StickySession.SessionKey: the cookie name is matched exactly. `cookies` stands for the framework's parsed request cookie collection, which StickySessionStrategy.cs:18 reads through `Request.Cookies`. That collection compares names ignoring case, so a `Session-Id` cookie is sticky in the source but takes the fallback path in the model.
- Forwarding.CopyResponseHeaders: header names are compared exactly. The destination dictionary of the source is case-insensitive.
- Logging, timing and the `CancellationTokenSource`/`RequestAborted` wiring are not modelled. A cancellation is one of the attempt outcomes.
- Session store failures (connection errors, non-string values) are not modelled. The store is a total read-only map.
- The selection failure is modelled as a `Failure` carrying the message. The source throws a plain `Exception`.
- Glue is not modelled: dependency wiring in `Program.cs`, the bare strategy interface, and the forwarding call at LoadBalancerMiddleware.cs:29. In the middleware the forwarding service field is never assigned, so that call would dereference null.

## Findings

| source | as written | input that shows it | evidently intended | confidence | as-written member | corrected member |
|---|---|---|---|---|---|---|
| LoadBalancer/RoundRobinStrategy.cs:11 | the cursor is a 32-bit `int` that `Interlocked.Increment` wraps, reduced with C#'s `%`, which takes the sign of the dividend. StickySessionStrategy.cs:37 does the same | three backends, after 2,147,483,647 earlier probes: the counter wraps to `int.MinValue` and the index is -2, so `servers[index]` is out of range | the candidate index is always in `[0, n)`: the counter is treated as unbounded or reduced without sign | not executed; high | CursorOverflow.WrappedCursorIndexIsNegative | RoundRobin.GetBackendServer |

/** The forwarding engine: builds the backend URL, sends the request up to
    `maxRetries + 1` times, and writes at most one terminal outcome. Each send's
    outcome is supplied by an oracle indexed by the 1-based attempt number. */
module Forwarding {

  /** A header collection: each name once, with its values. */
  type Headers = map<string, seq<string>>

  /** The parts of the inbound request that decide the forwarding. `path` and
      `queryString` are the escaped URI forms the server renders them as
      (percent-encoded, the query with its leading `?`), which is what both the
      emptiness test and the URL interpolation see. */
  datatype Request = Request(verb: string, path: string, queryString: string)

  /** What one attempt ends in. `Faulted` is any exception that neither catch
      clause accepts, raised once the request is sent (among them a
      cancellation when the combined token has not fired). `FaultedBeforeSend`
      is such an exception raised while the request is still being built, by
      the URI constructor or the request-body copy, so nothing is sent. Both
      leave the method unhandled. */
  datatype Attempt =
    | Responded(status: int, headers: Headers, contentHeaders: Headers)
    | Cancelled
    | TransportError
    | Faulted
    | FaultedBeforeSend

  /** The terminal outcome of one call. `Unwritten` is the call that never
      enters its loop and so writes nothing. */
  datatype Reply =
    | Relayed(status: int, headers: Headers)
    | Failed(status: int, body: string)
    | Propagated
    | Unwritten

  /** The reply together with the URLs sent to the backend, in order. */
  datatype Forwarded = Forwarded(reply: Reply, sent: seq<string>)

  const InvalidPathReply: Reply := Failed(400, "Invalid request path")
  const GatewayTimeoutReply: Reply := Failed(504, "Gateway Timeout")
  const BadGatewayReply: Reply := Failed(502, "Bad Gateway")

  /** The number of sends the loop allows: attempts 1 to `maxRetries + 1`. */
  function SendBudget(maxRetries: int): nat {
    if maxRetries < 0 then 0 else maxRetries + 1
  }

  /** The outbound URL: the backend's base URL, then the path, then the query
      string (which carries its own leading `?` when present). */
  function BackendUrl(backend: string, path: string, queryString: string): (url: string)
    ensures |url| == |backend| + |path| + |queryString|
    ensures url[..|backend|] == backend
    ensures url[|backend|..|backend| + |path|] == path
    ensures url[|backend| + |path|..] == queryString
  {
    backend + path + queryString
  }

  /** Framing headers are recomputed by the server and never copied. */
  predicate IsFramingHeader(name: string) {
    name == "Content-Length" || name == "Transfer-Encoding"
  }

  /** The headers of `source` that may be copied onto the response. */
  function Copyable(source: Headers): (r: Headers)
    ensures forall name :: name in r <==> name in source && !IsFramingHeader(name)
    ensures forall name :: name in r ==> r[name] == source[name]
  {
    map name | name in source && !IsFramingHeader(name) :: source[name]
  }

  /** The response headers after the backend's response headers and then its
      content headers have been assigned by name onto `existing`. */
  function CopyResponseHeaders(existing: Headers, headers: Headers, contentHeaders: Headers): (r: Headers)
    ensures forall name :: name in r <==>
      name in existing || (!IsFramingHeader(name) && (name in headers || name in contentHeaders))
    ensures forall name :: name in contentHeaders && !IsFramingHeader(name) ==>
      r[name] == contentHeaders[name]
    ensures forall name :: name in headers && name !in contentHeaders && !IsFramingHeader(name) ==>
      r[name] == headers[name]
    ensures forall name :: name in existing && (IsFramingHeader(name) || (name !in headers && name !in contentHeaders)) ==>
      r[name] == existing[name]
  {
    existing + Copyable(headers) + Copyable(contentHeaders)
  }

  /** 1 for the attempt that fails before its request is sent, else 0. */
  function SendsSkipped(outcome: Attempt): nat {
    if outcome.FaultedBeforeSend? then 1 else 0
  }

  /** The terminal outcome a settled attempt writes. */
  function Settle(outcome: Attempt, existing: Headers): (r: Reply)
    requires !outcome.TransportError?
    ensures outcome.Responded? ==> r.Relayed? && r.status == outcome.status
    ensures outcome.Cancelled? ==> r == GatewayTimeoutReply
    ensures outcome.Faulted? || outcome.FaultedBeforeSend? ==> r == Propagated
  {
    match outcome
    case Responded(status, headers, contentHeaders) =>
      Relayed(status, CopyResponseHeaders(existing, headers, contentHeaders))
    case Cancelled => GatewayTimeoutReply
    case Faulted => Propagated
    case FaultedBeforeSend => Propagated
  }

  /** The retry loop with `attempt` attempts already made. */
  function ForwardFrom(request: Request, backend: string, maxRetries: int, existing: Headers,
                       outcomes: nat -> Attempt, attempt: nat): (f: Forwarded)
    ensures attempt <= maxRetries ==> |f.sent| <= maxRetries + 1 - attempt
    ensures attempt > maxRetries ==> f.sent == []
    ensures forall k :: 0 <= k < |f.sent| ==> f.sent[k] == BackendUrl(backend, request.path, request.queryString)
    ensures f.reply == Unwritten <==> attempt > maxRetries
    ensures f.reply == BadGatewayReply ==> attempt + |f.sent| == maxRetries + 1
    decreases if attempt <= maxRetries then maxRetries + 1 - attempt else 0
  {
    if attempt > maxRetries then
      Forwarded(Unwritten, [])
    else
      var current := attempt + 1;
      if request.path == "" then
        Forwarded(InvalidPathReply, [])
      else
        var url := BackendUrl(backend, request.path, request.queryString);
        match outcomes(current)
        case TransportError =>
          if current > maxRetries then
            Forwarded(BadGatewayReply, [url])
          else
            var rest := ForwardFrom(request, backend, maxRetries, existing, outcomes, current);
            Forwarded(rest.reply, [url] + rest.sent)
        case FaultedBeforeSend =>
          Forwarded(Settle(outcomes(current), existing), [])
        case _ =>
          Forwarded(Settle(outcomes(current), existing), [url])
  }

  /** One call of the forwarding engine. */
  function ForwardRequestToBackend(request: Request, backend: string, maxRetries: int,
                                   existing: Headers, outcomes: nat -> Attempt): (f: Forwarded)
    // never more sends than the retry budget allows
    ensures |f.sent| <= SendBudget(maxRetries)
    // every send goes to the same URL
    ensures forall k :: 0 <= k < |f.sent| ==> f.sent[k] == BackendUrl(backend, request.path, request.queryString)
    // an empty path is rejected with 400 before anything is sent
    ensures request.path == "" ==> f.sent == []
    ensures request.path == "" && maxRetries >= 0 ==> f.reply == InvalidPathReply
    // the loop ends in a written reply or an escaping exception exactly when it runs at all
    ensures f.reply != Unwritten <==> maxRetries >= 0
    // Bad Gateway only once the whole budget is used
    ensures f.reply == BadGatewayReply ==> |f.sent| == SendBudget(maxRetries)
  {
    ForwardFrom(request, backend, maxRetries, existing, outcomes, 0)
  }

  /** Attempt `k` is the first of the budget whose outcome is not a transport
      error. */
  ghost predicate SettlesAt(outcomes: nat -> Attempt, maxRetries: int, k: nat) {
    && 1 <= k <= SendBudget(maxRetries)
    && !outcomes(k).TransportError?
    && forall a :: 1 <= a < k ==> outcomes(a).TransportError?
  }

  /** Every attempt of the budget ends in a transport error. */
  ghost predicate AllTransportErrors(outcomes: nat -> Attempt, maxRetries: int) {
    forall a :: 1 <= a <= SendBudget(maxRetries) ==> outcomes(a).TransportError?
  }

  /** The loop, entered after `attempt` transport errors, settles at `k`. */
  lemma {:induction false} ForwardFromSettles(request: Request, backend: string, maxRetries: int,
                                               existing: Headers, outcomes: nat -> Attempt,
                                               attempt: nat, k: nat)
    requires request.path != ""
    requires attempt < k && SettlesAt(outcomes, maxRetries, k)
    ensures ForwardFrom(request, backend, maxRetries, existing, outcomes, attempt).reply
            == Settle(outcomes(k), existing)
    ensures |ForwardFrom(request, backend, maxRetries, existing, outcomes, attempt).sent|
            == k - attempt - SendsSkipped(outcomes(k))
    decreases k - attempt
  {
    if attempt + 1 < k {
      assert outcomes(attempt + 1).TransportError?;
      ForwardFromSettles(request, backend, maxRetries, existing, outcomes, attempt + 1, k);
    }
  }

  /** The loop, entered after `attempt` transport errors, meets only transport
      errors and ends in Bad Gateway. */
  lemma {:induction false} ForwardFromExhausts(request: Request, backend: string, maxRetries: int,
                                                existing: Headers, outcomes: nat -> Attempt,
                                                attempt: nat)
    requires request.path != ""
    requires attempt <= maxRetries && AllTransportErrors(outcomes, maxRetries)
    ensures ForwardFrom(request, backend, maxRetries, existing, outcomes, attempt).reply == BadGatewayReply
    ensures |ForwardFrom(request, backend, maxRetries, existing, outcomes, attempt).sent| == maxRetries + 1 - attempt
    decreases maxRetries - attempt
  {
    assert outcomes(attempt + 1).TransportError?;
    if attempt + 1 <= maxRetries {
      ForwardFromExhausts(request, backend, maxRetries, existing, outcomes, attempt + 1);
    }
  }

  /** The reply is decided by the first attempt that is not a transport error:
      its outcome is written after exactly that many sends. */
  lemma FirstSettledAttemptDecides(request: Request, backend: string, maxRetries: int,
                                   existing: Headers, outcomes: nat -> Attempt, k: nat)
    requires request.path != "" && SettlesAt(outcomes, maxRetries, k)
    ensures var f := ForwardRequestToBackend(request, backend, maxRetries, existing, outcomes);
      f.reply == Settle(outcomes(k), existing) && |f.sent| == k - SendsSkipped(outcomes(k))
  {
    ForwardFromSettles(request, backend, maxRetries, existing, outcomes, 0, k);
  }

  /** A transport error on every attempt ends in Bad Gateway after exactly
      `maxRetries + 1` sends. */
  lemma AllTransportErrorsGiveBadGateway(request: Request, backend: string, maxRetries: int,
                                         existing: Headers, outcomes: nat -> Attempt)
    requires request.path != "" && maxRetries >= 0
    requires AllTransportErrors(outcomes, maxRetries)
    ensures var f := ForwardRequestToBackend(request, backend, maxRetries, existing, outcomes);
      f.reply == BadGatewayReply && |f.sent| == maxRetries + 1
  {
    ForwardFromExhausts(request, backend, maxRetries, existing, outcomes, 0);
  }

  /** Bad Gateway is written exactly when every attempt of the budget fails at
      the transport level. */
  lemma BadGatewayIffAllTransportErrors(request: Request, backend: string, maxRetries: int,
                                        existing: Headers, outcomes: nat -> Attempt)
    requires request.path != "" && maxRetries >= 0
    ensures ForwardRequestToBackend(request, backend, maxRetries, existing, outcomes).reply == BadGatewayReply
            <==> AllTransportErrors(outcomes, maxRetries)
  {
    if AllTransportErrors(outcomes, maxRetries) {
      AllTransportErrorsGiveBadGateway(request, backend, maxRetries, existing, outcomes);
    } else {
      var k := FirstNonTransport(outcomes, maxRetries, 1);
      FirstSettledAttemptDecides(request, backend, maxRetries, existing, outcomes, k);
    }
  }

  /** The first attempt from `from` on, within the budget, that is not a
      transport error, given that one exists and none before `from` is. */
  lemma {:induction false} FirstNonTransport(outcomes: nat -> Attempt, maxRetries: int, from: nat) returns (k: nat)
    requires 1 <= from
    requires forall a :: 1 <= a < from ==> outcomes(a).TransportError?
    requires exists a :: from <= a <= SendBudget(maxRetries) && !outcomes(a).TransportError?
    ensures from <= k && SettlesAt(outcomes, maxRetries, k)
    decreases SendBudget(maxRetries) - from
  {
    if outcomes(from).TransportError? {
      k := FirstNonTransport(outcomes, maxRetries, from + 1);
    } else {
      k := from;
    }
  }

  /** A cancellation on attempt `k`, after `k - 1` transport errors, ends the
      call with Gateway Timeout: no send follows it. */
  lemma CancellationIsTerminal(request: Request, backend: string, maxRetries: int,
                               existing: Headers, outcomes: nat -> Attempt, k: nat)
    requires request.path != "" && 1 <= k <= SendBudget(maxRetries)
    requires outcomes(k) == Cancelled
    requires forall a :: 1 <= a < k ==> outcomes(a) == TransportError
    ensures var f := ForwardRequestToBackend(request, backend, maxRetries, existing, outcomes);
      f.reply == GatewayTimeoutReply && |f.sent| == k
  {
    FirstSettledAttemptDecides(request, backend, maxRetries, existing, outcomes, k);
  }

  /** `k <= maxRetries` transport errors followed by a response relay that
      response's status after exactly `k + 1` sends. */
  lemma RetriedResponseIsRelayed(request: Request, backend: string, maxRetries: int,
                                 existing: Headers, outcomes: nat -> Attempt, k: nat)
    requires request.path != "" && k <= maxRetries
    requires forall a :: 1 <= a <= k ==> outcomes(a) == TransportError
    requires outcomes(k + 1).Responded?
    ensures var f := ForwardRequestToBackend(request, backend, maxRetries, existing, outcomes);
      && f.reply.Relayed?
      && f.reply.status == outcomes(k + 1).status
      && |f.sent| == k + 1
  {
    FirstSettledAttemptDecides(request, backend, maxRetries, existing, outcomes, k + 1);
  }

  /** The relayed headers never carry the framing headers unless they were
      already on the response before the copy. */
  lemma RelayedHeadersHaveNoFraming(request: Request, backend: string, maxRetries: int,
                                    outcomes: nat -> Attempt)
    ensures var f := ForwardRequestToBackend(request, backend, maxRetries, map[], outcomes);
      f.reply.Relayed? ==>
        "Content-Length" !in f.reply.headers && "Transfer-Encoding" !in f.reply.headers
  {
    var f := ForwardRequestToBackend(request, backend, maxRetries, map[], outcomes);
    if f.reply.Relayed? {
      RelayedFromSomeResponse(request, backend, maxRetries, map[], outcomes, 0);
    }
  }

  /** A relayed reply is the header copy of some backend response. */
  lemma {:induction false} RelayedFromSomeResponse(request: Request, backend: string, maxRetries: int,
                                                    existing: Headers, outcomes: nat -> Attempt, attempt: nat)
    requires ForwardFrom(request, backend, maxRetries, existing, outcomes, attempt).reply.Relayed?
    ensures exists a: nat ::
      (attempt < a && outcomes(a).Responded? &&
       ForwardFrom(request, backend, maxRetries, existing, outcomes, attempt).reply
       == Relayed(outcomes(a).status, CopyResponseHeaders(existing, outcomes(a).headers, outcomes(a).contentHeaders)))
    decreases if attempt <= maxRetries then maxRetries + 1 - attempt else 0
  {
    if outcomes(attempt + 1).TransportError? {
      RelayedFromSomeResponse(request, backend, maxRetries, existing, outcomes, attempt + 1);
    }
  }

  /** With a negative retry count the loop never runs: nothing is sent and no
      status is written, not even for an empty path. */
  lemma NegativeRetriesWriteNothing(request: Request, backend: string, maxRetries: int,
                                    existing: Headers, outcomes: nat -> Attempt)
    requires maxRetries < 0
    ensures ForwardRequestToBackend(request, backend, maxRetries, existing, outcomes) == Forwarded(Unwritten, [])
  {
  }
}

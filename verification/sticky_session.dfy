/** The sticky-session strategy: a session cookie names an affinity record in
    an external key/value store; a healthy recorded backend is returned as is,
    and every other case falls back to the same bounded round-robin scan, run
    on this strategy's own cursor. */
module StickySession {
  import opened Common
  import RoundRobin

  /** The cookie whose value is the affinity key. */
  const SessionCookie: string := "session-id"

  /** The external store, read by point lookup and never written by the proxy. */
  type SessionStore = map<string, Server>

  /** The result of one selection call: the chosen backend or the failure, the
      fallback cursor after the call, the key looked up in the store (if any),
      and every backend probed, in order. */
  datatype StickySelection = StickySelection(
    outcome: Result<Server, string>,
    cursor: nat,
    lookedUp: Option<string>,
    probes: seq<Server>)

  /** The backends at the given indices, in order. */
  function ServersAt(servers: seq<Server>, indices: seq<nat>): (r: seq<Server>)
    requires forall k :: 0 <= k < |indices| ==> indices[k] < |servers|
    ensures |r| == |indices|
    ensures forall k :: 0 <= k < |indices| ==> r[k] == servers[indices[k]]
  {
    seq(|indices|, k requires 0 <= k < |indices| => servers[indices[k]])
  }

  /** The fallback path, reported in this strategy's terms. */
  function Fallback(servers: seq<Server>, healthy: HealthOracle, cursor: nat,
                    lookedUp: Option<string>, earlierProbes: seq<Server>): (r: StickySelection)
    ensures r.lookedUp == lookedUp
    ensures |earlierProbes| <= |r.probes| <= |earlierProbes| + |servers|
    ensures r.probes[..|earlierProbes|] == earlierProbes
    ensures r.cursor >= cursor
    ensures r.outcome.Success? ==>
      && |r.probes| > |earlierProbes|
      && r.outcome.value == r.probes[|r.probes| - 1]
      && r.outcome.value in servers
      && healthy(r.outcome.value)
    ensures r.outcome.Failure? ==>
      r.outcome.error == RoundRobin.NoHealthyBackend && r.cursor == cursor + |servers|
  {
    var scan := RoundRobin.GetBackendServer(servers, healthy, cursor);
    StickySelection(scan.outcome, scan.cursor, lookedUp, earlierProbes + ServersAt(servers, scan.probed))
  }

  /** The value of the session cookie, when the request carries one. */
  function SessionKey(cookies: map<string, string>): (key: Option<string>)
    ensures key.Some? <==> SessionCookie in cookies
    ensures key.Some? ==> key.value == cookies[SessionCookie]
  {
    if SessionCookie in cookies then Some(cookies[SessionCookie]) else None
  }

  /** The store's record for the session key; no key means no lookup. */
  function Lookup(store: SessionStore, key: Option<string>): (recorded: Option<Server>)
    ensures recorded.Some? <==> key.Some? && key.value in store
    ensures recorded.Some? ==> recorded.value == store[key.value]
  {
    if key.Some? && key.value in store then Some(store[key.value]) else None
  }

  /** One call of the strategy. */
  function GetBackendServer(cookies: map<string, string>, store: SessionStore,
                            servers: seq<Server>, healthy: HealthOracle, cursor: nat): (r: StickySelection)
    // the store is consulted exactly when the request carries the cookie
    ensures r.lookedUp.Some? <==> SessionCookie in cookies
    ensures r.lookedUp.Some? ==> r.lookedUp.value == cookies[SessionCookie]
    // whatever is returned was probed last and found healthy
    ensures r.outcome.Success? ==> |r.probes| > 0 && r.outcome.value == r.probes[|r.probes| - 1]
    ensures r.outcome.Success? ==> healthy(r.outcome.value)
    ensures |r.probes| <= |servers| + 1
    // a failure reports the source's message after a full fallback scan
    ensures r.outcome.Failure? ==> r.outcome.error == RoundRobin.NoHealthyBackend
    ensures r.outcome.Failure? ==> r.cursor == cursor + |servers|
    // the fallback cursor moves only when the fallback scan runs
    ensures r.cursor >= cursor
  {
    var lookedUp := SessionKey(cookies);
    var recorded := Lookup(store, lookedUp);
    if recorded.Some? && healthy(recorded.value) then
      StickySelection(Success(recorded.value), cursor, lookedUp, [recorded.value])
    else
      Fallback(servers, healthy, cursor, lookedUp, if recorded.Some? then [recorded.value] else [])
  }

  /** A cookie naming a healthy recorded backend returns it verbatim after a
      single probe, and the fallback cursor does not move. */
  lemma StickyHit(cookies: map<string, string>, store: SessionStore,
                  servers: seq<Server>, healthy: HealthOracle, cursor: nat)
    requires SessionCookie in cookies && cookies[SessionCookie] in store
    requires healthy(store[cookies[SessionCookie]])
    ensures var r := GetBackendServer(cookies, store, servers, healthy, cursor);
      && r.outcome == Success(store[cookies[SessionCookie]])
      && r.cursor == cursor
      && r.probes == [store[cookies[SessionCookie]]]
  {
  }

  /** Without a usable record (no cookie, a store miss, or an unhealthy recorded
      backend) the outcome and the cursor are those of the round-robin scan. */
  lemma FallbackIsRoundRobinScan(cookies: map<string, string>, store: SessionStore,
                                 servers: seq<Server>, healthy: HealthOracle, cursor: nat)
    requires !(SessionCookie in cookies && cookies[SessionCookie] in store
               && healthy(store[cookies[SessionCookie]]))
    ensures var r := GetBackendServer(cookies, store, servers, healthy, cursor);
      var scan := RoundRobin.GetBackendServer(servers, healthy, cursor);
      && r.outcome == scan.outcome
      && r.cursor == scan.cursor
      && r.probes == (if SessionCookie in cookies && cookies[SessionCookie] in store
                      then [store[cookies[SessionCookie]]] else [])
                     + ServersAt(servers, scan.probed)
  {
  }

  /** A session whose recorded backend is unhealthy is never sent there by the
      fallback, even when that backend is also in the list. */
  lemma UnhealthyRecordNeverReturned(cookies: map<string, string>, store: SessionStore,
                                     servers: seq<Server>, healthy: HealthOracle, cursor: nat)
    requires SessionCookie in cookies && cookies[SessionCookie] in store
    requires !healthy(store[cookies[SessionCookie]])
    ensures GetBackendServer(cookies, store, servers, healthy, cursor).outcome
            != Success(store[cookies[SessionCookie]])
  {
  }

  /** If any listed backend is healthy, a call never fails, whatever the cookie
      and the store hold. */
  lemma SucceedsIfAnyHealthy(cookies: map<string, string>, store: SessionStore,
                             servers: seq<Server>, healthy: HealthOracle, cursor: nat, j: nat)
    requires j < |servers| && healthy(servers[j])
    ensures GetBackendServer(cookies, store, servers, healthy, cursor).outcome.Success?
  {
    RoundRobin.HealthyServerIsFound(servers, healthy, cursor, j);
  }

  /** The recorded backend is not checked against the configured list: a
      session can be routed to a backend outside it. */
  lemma StickyHitOutsideList()
    ensures var r := GetBackendServer(map[SessionCookie := "s1"], map["s1" := "http://old:5000"],
                                      ["http://a:5001"], (b: Server) => true, 0);
      r.outcome == Success("http://old:5000") && "http://old:5000" !in ["http://a:5001"]
  {
  }
}

/** Strategy selection by configuration string, and the two singleton strategy
    instances, each owning its own cursor, that a request is routed through. */
module StrategyFactory {
  import opened Common
  import RoundRobin
  import StickySession

  /** The closed set of strategies the factory knows. */
  datatype Strategy = RoundRobinStrategy | StickySessionStrategy

  /** The configuration value that names each strategy. */
  function Name(s: Strategy): string {
    match s
    case RoundRobinStrategy => "RoundRobin"
    case StickySessionStrategy => "StickySession"
  }

  /** Exact, case-sensitive match of the configuration value; anything else is
      the "Unknown strategy" error. */
  function GetStrategy(name: string): (r: Result<Strategy, string>)
    ensures r.Success? <==> name == "RoundRobin" || name == "StickySession"
    ensures r.Success? ==> Name(r.value) == name
    ensures r.Failure? ==> r.error == "Unknown strategy: " + name
  {
    if name == "RoundRobin" then Success(RoundRobinStrategy)
    else if name == "StickySession" then Success(StickySessionStrategy)
    else Failure("Unknown strategy: " + name)
  }

  /** Every strategy is found again from its own name. */
  lemma GetStrategyOfName(s: Strategy)
    ensures GetStrategy(Name(s)) == Success(s)
  {
  }

  /** Matching is case-sensitive. */
  lemma LowerCaseRejected()
    ensures GetStrategy("roundrobin").Failure?
    ensures GetStrategy("stickysession").Failure?
  {
  }

  /** The state the strategy singletons keep between requests: one cursor each. */
  datatype Balancer = Balancer(roundRobinCursor: nat, stickyCursor: nat)

  /** One request: resolve the configured strategy, then ask that instance for a
      backend. */
  function Route(b: Balancer, strategyName: string, cookies: map<string, string>,
                 store: StickySession.SessionStore, servers: seq<Server>,
                 healthy: HealthOracle): (r: (Result<Server, string>, Balancer))
    // an unknown strategy name selects nothing and moves no cursor
    ensures GetStrategy(strategyName).Failure? ==> r == (Failure("Unknown strategy: " + strategyName), b)
    // each strategy advances only its own cursor
    ensures strategyName == "RoundRobin" ==> r.1.stickyCursor == b.stickyCursor
    ensures strategyName == "StickySession" ==> r.1.roundRobinCursor == b.roundRobinCursor
    ensures r.1.roundRobinCursor >= b.roundRobinCursor && r.1.stickyCursor >= b.stickyCursor
    // a selected backend was found healthy
    ensures r.0.Success? ==> healthy(r.0.value)
  {
    match GetStrategy(strategyName)
    case Failure(e) => (Failure(e), b)
    case Success(RoundRobinStrategy) =>
      var s := RoundRobin.GetBackendServer(servers, healthy, b.roundRobinCursor);
      (s.outcome, b.(roundRobinCursor := s.cursor))
    case Success(StickySessionStrategy) =>
      var s := StickySession.GetBackendServer(cookies, store, servers, healthy, b.stickyCursor);
      (s.outcome, b.(stickyCursor := s.cursor))
  }

  /** A sticky fallback scan starts from the sticky cursor, whatever round-robin
      requests did before: interleaving the two strategies does not change which
      backend the sticky fallback probes first. */
  lemma CursorsAreIndependent(b: Balancer, cookies: map<string, string>,
                              store: StickySession.SessionStore, servers: seq<Server>,
                              healthy: HealthOracle)
    ensures var afterRoundRobin := Route(b, "RoundRobin", cookies, store, servers, healthy).1;
      Route(afterRoundRobin, "StickySession", cookies, store, servers, healthy).0
      == Route(b, "StickySession", cookies, store, servers, healthy).0
  {
  }
}

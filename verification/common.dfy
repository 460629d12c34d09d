/** Option and Result datatypes, and the backend and health-prober types,
    shared by every part of the load balancer model. */
module Common {

  /** A value that may be absent: a missing cookie, a store miss. */
  datatype Option<+T> = None | Some(value: T)

  /** The outcome of an operation that either yields a value or raises an error
      carrying the message the source passes to its exception. */
  datatype Result<+T, +E> = Success(value: T) | Failure(error: E)

  /** Backends are identified by their base URL. */
  type Server = string

  /** The health prober's answer for each backend: true when the backend
      answers its health endpoint with a 2xx status. The model fixes one answer
      per backend, so every probe of the same backend agrees. */
  type HealthOracle = Server -> bool
}

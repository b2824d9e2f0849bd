/** Go error values as the core builds and inspects them: package-level
    sentinels created with errors.New, plain messages, wrapping with
    fmt.Errorf("...%w", err), and gRPC status errors. */
module Errors {
  import opened Wrappers

  /** The package-level sentinel errors of the core. Each is a distinct
      error value, so two sentinels with the same text are still different
      for errors.Is. */
  datatype Sentinel =
    | PgxNoRows                   // pgx.ErrNoRows
    | MovingRepoNotFound          // src/repositories/moving
    | OrdersRepoNotFound          // src/repositories/orders
    | ReviewsRepoNotFound         // src/repositories/reviews
    | ExampleRepoNotFound         // src/repositories/example
    | OrdersServiceNotFound       // src/services/orders
    | MovingServiceNotFound       // src/services/moving
    | ReviewsServiceNotFound      // src/services/reviews
    | ExampleServiceNotFound      // src/services/example
    | OrdersTransportNotFound     // src/transport/orders
    | ReviewsTransportNotFound    // src/transport/reviews
    | RpcTransportNotFound        // src/rpctransport
    | PortNotSpecified            // gen/servergrpc/server
    | ValidationFailed            // gen/servergrpc/server

  /** gRPC status codes used by the core. */
  datatype Code = OK | Unknown | InvalidArgument | NotFound | FailedPrecondition | Unauthenticated

  /** The ErrorInfo detail attached to a status. */
  datatype ErrorInfo = ErrorInfo(reason: string, domain: string)

  datatype Error =
    | Sentinel(sentinel: Sentinel)
    | Plain(text: string)                        // errors.New or fmt.Errorf without %w
    | Wrapped(prefix: string, inner: Error)      // fmt.Errorf(prefix + "%w", inner)
    | Status(code: Code, message: string, details: seq<ErrorInfo>)

  datatype Result<+T> = Ok(value: T) | Err(error: Error)

  /** What a unary handler returns: a response (nil on failure) and an error. */
  datatype Reply<+T> = Reply(resp: Option<T>, err: Option<Error>)

  function SentinelText(s: Sentinel): string {
    match s
    case PgxNoRows => "no rows in result set"
    case PortNotSpecified => "port not specified"
    case ValidationFailed => "validation failed"
    case _ => "not found"
  }

  /** err.Error() */
  function Message(e: Error): string {
    match e
    case Sentinel(s) => SentinelText(s)
    case Plain(t) => t
    case Wrapped(p, inner) => p + Message(inner)
    case Status(c, m, _) => "rpc error: code = " + CodeName(c) + " desc = " + m
  }

  /** errors.Is(e, Sentinel(s)): walk the chain of wrapped errors. */
  predicate Is(e: Error, s: Sentinel) {
    match e
    case Sentinel(t) => t == s
    case Wrapped(_, inner) => Is(inner, s)
    case _ => false
  }

  /** codes.Code.String() */
  function CodeName(c: Code): string {
    match c
    case OK => "OK"
    case Unknown => "Unknown"
    case InvalidArgument => "InvalidArgument"
    case NotFound => "NotFound"
    case FailedPrecondition => "FailedPrecondition"
    case Unauthenticated => "Unauthenticated"
  }

  /** status.Code(err): OK for no error, the status code of a status error
      (also through wrapping), and Unknown for every other error. */
  function StatusCode(e: Option<Error>): Code {
    match e
    case None => OK
    case Some(err) => ErrorCode(err)
  }

  function ErrorCode(e: Error): Code {
    match e
    case Status(c, _, _) => c
    case Wrapped(_, inner) => ErrorCode(inner)
    case _ => Unknown
  }

  /** The boundary translation every layer applies: the lower layer's
      NotFound sentinel becomes this layer's own; every other error is
      wrapped with the operation's context.
      if errors.Is(err, lower) { return own }; return fmt.Errorf(prefix + "%w", err) */
  function Translate(e: Error, lower: Sentinel, own: Sentinel, prefix: string): (r: Error)
    ensures Is(e, lower) ==> r == Sentinel(own) && Message(r) == SentinelText(own)
    ensures !Is(e, lower) ==> Message(r) == prefix + Message(e) && ErrorCode(r) == ErrorCode(e)
    ensures !Is(e, lower) ==> forall s :: Is(r, s) <==> Is(e, s)
  {
    if Is(e, lower) then Sentinel(own) else Wrapped(prefix, e)
  }

  /** A wrapped error keeps the inner error's identity and message. */
  lemma {:induction false} WrapKeepsChain(prefix: string, e: Error, s: Sentinel)
    ensures Is(Wrapped(prefix, e), s) <==> Is(e, s)
    ensures Message(Wrapped(prefix, e)) == prefix + Message(e)
    ensures ErrorCode(Wrapped(prefix, e)) == ErrorCode(e)
  {
  }

  /** After the translation, the result is this layer's NotFound exactly
      when the input was the lower layer's (or already this layer's), and
      the lower layer's sentinel never leaks past the boundary. */
  lemma TranslateIs(e: Error, lower: Sentinel, own: Sentinel, prefix: string)
    requires lower != own
    ensures Is(Translate(e, lower, own, prefix), own) <==> Is(e, lower) || Is(e, own)
    ensures !Is(Translate(e, lower, own, prefix), lower)
    ensures forall s :: s != own && s != lower ==>
      (Is(Translate(e, lower, own, prefix), s) <==> !Is(e, lower) && Is(e, s))
    ensures !Is(e, lower) ==> Message(Translate(e, lower, own, prefix)) == prefix + Message(e)
  {
  }
}

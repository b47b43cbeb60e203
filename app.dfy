/**
 * The HTTP entry point: a middleware that derives each request's context
 * from a fresh request id and the request's headers and runs the rest of the
 * request inside `init`, and the `/` route that logs twice.
 */
module App {
  import opened Wrappers
  import opened Objects
  import opened LoggingContext

  /** `x ?? fallback`: falls back only when x is absent (null or undefined), never on "". */
  function Coalesce<T>(x: Option<T>, fallback: T): T
  {
    match x
    case Some(v) => v
    case None => fallback
  }

  /**
   * The context of one request. `requestId` is the freshly generated uuid;
   * the headers are `x-trace-id` and `x-forwarded-for`, and `remoteAddress`
   * is the socket's peer address, each None when absent.
   */
  function DeriveContext(requestId: string, traceHeader: Option<string>,
                         forwardedFor: Option<string>, remoteAddress: Option<string>): (ctx: Context)
    ensures ctx.requestId == requestId
    ensures ctx.traceId == if traceHeader.Some? then traceHeader.value else requestId
    ensures ctx.ipAddress == if forwardedFor.Some? then forwardedFor.value
                             else if remoteAddress.Some? then remoteAddress.value
                             else ""
  {
    Context(requestId, Coalesce(traceHeader, requestId), Coalesce(forwardedFor, Coalesce(remoteAddress, "")))
  }

  /** The trace id is the request id exactly when no trace header came in or it repeats the request id. */
  lemma TraceIdFallback(requestId: string, traceHeader: Option<string>,
                        forwardedFor: Option<string>, remoteAddress: Option<string>)
    ensures var ctx := DeriveContext(requestId, traceHeader, forwardedFor, remoteAddress);
      ctx.traceId == ctx.requestId <==> traceHeader.None? || traceHeader.value == requestId
  {
  }

  /** A present but empty `x-trace-id` is kept: the trace id is "" and not the request id. */
  lemma EmptyTraceHeaderKept(requestId: string, forwardedFor: Option<string>, remoteAddress: Option<string>)
    ensures DeriveContext(requestId, Some(""), forwardedFor, remoteAddress).traceId == ""
  {
  }

  /** When both are present, the forwarded-for header wins over the socket address. */
  lemma ForwardedForWins(requestId: string, traceHeader: Option<string>, forwardedFor: string, remoteAddress: Option<string>)
    ensures DeriveContext(requestId, traceHeader, Some(forwardedFor), remoteAddress).ipAddress == forwardedFor
  {
  }

  /**
   * The ip address is "" exactly when the first present source along
   * forwarded-for, socket address is "", or neither is present.
   */
  lemma IpAddressEmpty(requestId: string, traceHeader: Option<string>,
                       forwardedFor: Option<string>, remoteAddress: Option<string>)
    ensures DeriveContext(requestId, traceHeader, forwardedFor, remoteAddress).ipAddress == ""
        <==> (forwardedFor == Some("")
              || (forwardedFor.None? && (remoteAddress.None? || remoteAddress == Some(""))))
  {
  }

  /**
   * The middleware: derives the request's context and calls `init` once
   * with it and `next`, the rest of the request's handling.
   */
  method Middleware(logger: Logger, requestId: string, traceHeader: Option<string>,
                    forwardedFor: Option<string>, remoteAddress: Option<string>, next: seq<Action>)
    modifies logger
    ensures logger.store == old(logger.store)
    ensures logger.transport
         == old(logger.transport) + Output(Some(DeriveContext(requestId, traceHeader, forwardedFor, remoteAddress)), next)
  {
    var context := DeriveContext(requestId, traceHeader, forwardedFor, remoteAddress);
    logger.Init(context, next);
  }

  /** The `/` route: two `log` calls, before and after preparing the response "ok". */
  function RootRoute(receivedAt: string, respondingAt: string): seq<Action>
  {
    [ Emit(Level.Log, receivedAt, LogObj("Received request on endpoint", [("endpoint", JStr("/"))])),
      Emit(Level.Log, respondingAt, LogObj("About to send response", [("responseMsg", JStr("ok"))])) ]
  }

  /** The two records of the `/` route carry the same requestId, traceId and ipAddress: the request's. */
  lemma RootRouteCorrelated(context: Context, receivedAt: string, respondingAt: string)
    ensures var out := Output(Some(context), RootRoute(receivedAt, respondingAt));
      && |out| == 2
      && Lookup(out[0], "requestId") == Lookup(out[1], "requestId") == Some(JStr(context.requestId))
      && Lookup(out[0], "traceId") == Lookup(out[1], "traceId") == Some(JStr(context.traceId))
      && Lookup(out[0], "ipAddress") == Lookup(out[1], "ipAddress") == Some(JStr(context.ipAddress))
  {
    FlatScopeCarriesContext(context, RootRoute(receivedAt, respondingAt));
  }

  /**
   * A request to `/` end to end: the middleware then the route. Exactly two
   * records are logged, and both carry the derived context; without a trace
   * header their traceId is the request id.
   */
  method ServeRoot(logger: Logger, requestId: string, traceHeader: Option<string>,
                   forwardedFor: Option<string>, remoteAddress: Option<string>,
                   receivedAt: string, respondingAt: string)
    modifies logger
    ensures logger.store == old(logger.store)
    ensures logger.transport == old(logger.transport)
      + Output(Some(DeriveContext(requestId, traceHeader, forwardedFor, remoteAddress)), RootRoute(receivedAt, respondingAt))
    ensures |logger.transport| == |old(logger.transport)| + 2
    ensures logger.transport[..|old(logger.transport)|] == old(logger.transport)
    ensures var ctx := DeriveContext(requestId, traceHeader, forwardedFor, remoteAddress);
      forall i :: |old(logger.transport)| <= i < |logger.transport| ==>
        && Lookup(logger.transport[i], "requestId") == Some(JStr(requestId))
        && Lookup(logger.transport[i], "traceId") == Some(JStr(ctx.traceId))
        && Lookup(logger.transport[i], "ipAddress") == Some(JStr(ctx.ipAddress))
    ensures traceHeader.None? ==>
      forall i :: |old(logger.transport)| <= i < |logger.transport| ==>
        Lookup(logger.transport[i], "traceId") == Some(JStr(requestId))
  {
    var ctx := DeriveContext(requestId, traceHeader, forwardedFor, remoteAddress);
    Middleware(logger, requestId, traceHeader, forwardedFor, remoteAddress, RootRoute(receivedAt, respondingAt));
    RootRouteCorrelated(ctx, receivedAt, respondingAt);
    var n := |old(logger.transport)|;
    var out := Output(Some(ctx), RootRoute(receivedAt, respondingAt));
    assert logger.transport == old(logger.transport) + out;
    assert logger.transport[n] == out[0] && logger.transport[n + 1] == out[1];
  }
}

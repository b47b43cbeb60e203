# Contextual logging for an Express service, modelled in Dafny

The repository is a small Node.js service that logs with request-scoped
context. A logger factory, `LoggingContext(transport)`, returns five severity
entry points (`debug`, `log`, `info`, `warn`, `error`). All five funnel into
one inner `log(level, logObj)`. That function builds a record with the object
literal `{ timeStamp, level, ...store, ...logObj }` and hands it to
`transport.log`, one record per call. `store` is the context that the
asynchronous-local store holds for the current request, or `undefined` outside
any request. `init(context, callback)` makes `context` the active store while
`callback` runs. An Express middleware derives each request's context and runs
the rest of the request inside `init`:

- `requestId` is a fresh uuid.
- `traceId` is `x-trace-id ?? requestId`.
- `ipAddress` is `x-forwarded-for ?? socket.remoteAddress ?? ''`.

The `/` route logs twice within that context.

The model has four modules:

- `Wrappers` (`wrappers.dfy`): `Option`, standing for `undefined` and for a missing key.
- `Objects` (`objects.dfy`): JSON values, and a plain object as an ordered list of
  (key, value) properties. `Put` is property definition (`o[k] = v`) and
  `Spread` is object spread (`{...o, ...s}`). The lemmas prove what spread
  does: the later source wins on a collision, and the key keeps its first
  position.
- `LoggingContext` (`logging_context.dfy`): `Context`, `LogObj`, `Level`, and the
  record literal `BuildRecord`, with lemmas on its layout. A callback is a
  sequence of `Action`s: a log call, or a nested `init`. `Output` gives the
  records a callback hands to the transport. The class `Logger` has a `store`
  field (the active context) and a `transport` field (every record logged so
  far). Its methods are `LogAt` (the inner `log`), the five severity methods,
  and `Init`.
- `App` (`app.dfy`): the middleware's context derivation `DeriveContext`
  (the `??` chains on `Option<string>` inputs), `Middleware`, the `/` route
  `RootRoute`, and `ServeRoot`, which runs one request to `/` end to end.

The clock and the uuid generator are parameters. Each log call gets its time
stamp, and each request gets its `requestId`.

Three behaviours of the code are worth stating plainly:

- `??` keeps a present but empty `x-trace-id`, so the trace id is then `""`
  and not the request id (`App.EmptyTraceHeaderKept`).
- Errors thrown by `JSON.stringify` reach the caller of the log call; there is
  no fallback payload.
- Nothing adds a trace header to outbound calls: the two `http.get` calls at
  the end of `src/index.ts` send none.

## Model

| member | source | states |
|---|---|---|
| `Objects.Put` | src/lib/loggingContext.ts:23-24 | property definition `o[k] = v` in an object literal; its behaviour is stated by `Objects.PutKeys` and `Objects.PutLookup` |
| `Objects.Spread` | src/lib/loggingContext.ts:25-26 | object spread `{...o, ...s}`: s's properties defined on o one by one, left to right; its behaviour is stated by the `Objects.Spread*` lemmas |
| `Objects.Lookup` | src/lib/loggingContext.ts:22-27 | property access on a record: absent exactly when the key is not among the record's keys |
| `Objects.PutKeys` | src/lib/loggingContext.ts:23-24 | defining a property keeps an existing key in its position and appends a new key last |
| `Objects.PutLookup` | src/lib/loggingContext.ts:23-24 | after defining k as v, k reads v and every other key reads as before |
| `Objects.SpreadKeys` | src/lib/loggingContext.ts:25-26 | spread never moves a key: the target's keys stay a prefix, the result's keys are the union of both, and no key occurs twice |
| `Objects.SpreadLookup` | src/lib/loggingContext.ts:25-26 | after `{...o, ...s}` a key of s reads s's value (the later source wins) and any other key reads o's |
| `Objects.SpreadCollision` | src/lib/loggingContext.ts:25-26 | on a key collision the result holds the later source's value at the position where the key first appeared |
| `Objects.SpreadDisjoint` | src/lib/loggingContext.ts:25-26 | spreading an object whose keys are all new appends its properties in order |
| `LoggingContext.LevelName` | src/lib/loggingContext.ts:41-49 | the level string each entry point passes: DEBUG, LOG, INFO, WARN, ERROR |
| `LoggingContext.StoreFields` | src/lib/loggingContext.ts:25 | what `...store` contributes: nothing when no store is active (spreading `undefined`), else the context's three properties |
| `LoggingContext.BuildRecord` | src/lib/loggingContext.ts:22-27 | the record literal `{ timeStamp, level, ...store, ...logObj }`, built by definition then spread, left to right; its shape is stated by the `LoggingContext.Record*` lemmas |
| `LoggingContext.RecordLayout` | src/lib/loggingContext.ts:22-27 | the record is time stamp, level, the store's three fields (only if a store is active), then operation and data |
| `LoggingContext.RecordKeyOrder` | src/lib/loggingContext.ts:22-27 | record keys are exactly timeStamp, level, [requestId, traceId, ipAddress], operation, data in that order, with no duplicates |
| `LoggingContext.RecordContextFields` | src/lib/loggingContext.ts:25 | with no active store the record has no requestId/traceId/ipAddress keys; with a store they equal the store's fields exactly |
| `LoggingContext.RecordCallerFields` | src/lib/loggingContext.ts:18-26 | timeStamp, level, operation and data in the record are exactly the clock reading, the level name and the caller's operation and data |
| `LoggingContext.LevelsDifferOnlyInLevel` | src/lib/loggingContext.ts:41-49 | records of two severities have the same keys and agree on every key but level, and their level values differ exactly when the severities do |
| `LoggingContext.LevelNameInjective` | src/lib/loggingContext.ts:41-49 | the five level strings DEBUG, LOG, INFO, WARN, ERROR are pairwise distinct |
| `LoggingContext.Output` | src/lib/loggingContext.ts:35-39 | the records a callback hands to the transport when run under a store, a nested `init` running its body under its own context; stated by `LoggingContext.OneRecordPerCall`, `LoggingContext.OutputAppend` and `LoggingContext.ScopeShadowsThenRestores` |
| `LoggingContext.OneRecordPerCall` | src/lib/loggingContext.ts:17-31 | a callback outputs exactly one record per log call it makes, nested scopes included |
| `LoggingContext.OutputAppend` | src/lib/loggingContext.ts:35-39 | running two pieces of a callback in sequence outputs their records in sequence |
| `LoggingContext.FlatOutput` | src/lib/loggingContext.ts:17-39 | without nested scopes, the i-th record is the i-th log call's record built with the active store |
| `LoggingContext.FlatScopeCarriesContext` | src/lib/loggingContext.ts:25-39 | every record logged inside `init(context, ...)` without a nested scope carries that context's requestId, traceId and ipAddress |
| `LoggingContext.ScopeShadowsThenRestores` | src/lib/loggingContext.ts:35-39 | in any callback `pre + [init(context, body)] + post`, the body's records are built under `context`, and every call before and after it under the outer store |
| `LoggingContext.Logger.constructor` | src/lib/loggingContext.ts:14-15 | a new logger has no active store and an empty transport |
| `LoggingContext.Logger.LogAt` | src/lib/loggingContext.ts:17-32 | appends exactly one record, assembled with the active store; earlier records and the store are unchanged |
| `LoggingContext.Logger.Debug` | src/lib/loggingContext.ts:41 | appends one record at level DEBUG |
| `LoggingContext.Logger.Log` | src/lib/loggingContext.ts:43 | appends one record at level LOG |
| `LoggingContext.Logger.Info` | src/lib/loggingContext.ts:45 | appends one record at level INFO |
| `LoggingContext.Logger.Warn` | src/lib/loggingContext.ts:47 | appends one record at level WARN |
| `LoggingContext.Logger.Error` | src/lib/loggingContext.ts:49 | appends one record at level ERROR |
| `LoggingContext.Logger.Init` | src/lib/loggingContext.ts:35-39 | runs the callback once with the context as active store, appending exactly its records, then restores the previous store (possibly none) |
| `LoggingContext.Logger.Execute` | src/lib/loggingContext.ts:37 | runs the callback's calls in program order under the active store, which it leaves unchanged |
| `App.Coalesce` | src/index.ts:12-13 | nullish coalescing `x ?? fallback`: the fallback only when x is absent, never on "" |
| `App.DeriveContext` | src/index.ts:11-19 | requestId is the fresh id; traceId is the x-trace-id header if present, else the requestId; ipAddress is x-forwarded-for if present, else the socket address if present, else "" |
| `App.TraceIdFallback` | src/index.ts:12 | traceId equals requestId exactly when the header is absent or repeats the requestId |
| `App.EmptyTraceHeaderKept` | src/index.ts:12 | a present but empty x-trace-id gives traceId "" (no fallback on empty strings) |
| `App.ForwardedForWins` | src/index.ts:13 | when x-forwarded-for is present it is the ipAddress, whatever the socket address |
| `App.IpAddressEmpty` | src/index.ts:13 | ipAddress is "" exactly when the first present source is "" or neither is present |
| `App.Middleware` | src/index.ts:10-22 | calls `init` once with the derived context and `next`: appends exactly next's records under that context and restores the store |
| `App.RootRoute` | src/index.ts:24-39 | the `/` route's two `log` calls: "Received request on endpoint" with data `{endpoint: '/'}`, then "About to send response" with data `{responseMsg: 'ok'}` |
| `App.RootRouteCorrelated` | src/index.ts:24-39 | the `/` route's two records carry identical requestId, traceId and ipAddress, equal to the request's context |
| `App.ServeRoot` | src/index.ts:10-42 | one request to `/` appends exactly the route's two records, built at level LOG with its operations, data and time stamps under the derived context, after the earlier ones; both carry the derived requestId, traceId and ipAddress, and without a trace header their traceId is the requestId |

## Left out

- Asynchronous propagation of the store across promises, timers and I/O, and isolation between concurrently interleaved requests (`AsyncLocalStorage`, src/lib/loggingContext.ts:1,15). This needs concurrency and a runtime library. The model covers only the synchronous, nested-scope behaviour of `init`.
- `uuidv4()` and `new Date().toISOString()` are randomness and a clock. They are parameters: `requestId` per request and `timeStamp` per log call.
- `JSON.stringify(..., null, 1)` text and `console.log` are serialisation and I/O. A record is the ordered key/value list that `JSON.stringify` would print. Nothing models serialisation failing: the model's payloads are JSON values, so they never contain circular or BigInt data.
- `LoggingContext.Logger.Init`: when the callback throws, the real store is still restored and the exception propagates. Model callbacks cannot throw.
- Objects: JavaScript lists integer-like keys before string keys. The model does not reorder them. None of the record's own keys is integer-like, and the caller's data is nested under `data`.
- Objects: numbers are integers, not floating point. `JSON.stringify` drops properties whose value is `undefined`; the model has no such values, and every record field is always defined.
- LoggingContext.RecordLayout: `LogObj` and `Context` list their properties in declared order (operation, data; requestId, traceId, ipAddress). The source copies whatever order the caller's objects have, so the proved layout holds for callers that write their objects in declared order, as every call site in src/ does.
- LoggingContext.RecordKeyOrder: the key order timeStamp, level, [requestId, traceId, ipAddress], operation, data is proved for objects in declared order only, for the same reason; a caller writing `{ data, operation }` would get data before operation.
- At run time a caller could pass a `logObj` or a context with extra properties beyond their declared types. The model's `LogObj` and `Context` carry exactly their declared fields. Collisions between spread sources are still covered by `Objects.SpreadLookup` and `Objects.SpreadCollision`.
- Header values are modelled as strings or absent. Node joins repeated `x-forwarded-for` and custom headers into one string, so the `as string` casts in src/index.ts:12-13 hold.
- The outbound trace-propagation hook does not exist in the code. The `http.get` calls (src/index.ts:46-47) are process I/O and attach no headers.
- Express setup, `app.listen` and `res.send` (src/index.ts:8,41,44) are server plumbing.
- src/handler/helloHandler.ts and src/handler/rootHandler.ts are handler glue. Each is one log call through the modelled logger, plus a `name ?? 'world'` default.

/**
 * The context-aware logger: each log call assembles one record from a time
 * stamp, a severity level, the active context (if any) and the caller's
 * operation and data, and hands it to the transport; `init` makes a context
 * the active store while a callback runs.
 */
module LoggingContext {
  import opened Wrappers
  import opened Objects

  /** The per-request correlation data kept in the store. */
  datatype Context = Context(requestId: string, traceId: string, ipAddress: string)
  {
    /** The object's own properties, in declaration order. */
    function Fields(): Obj
    {
      [("requestId", JStr(requestId)), ("traceId", JStr(traceId)), ("ipAddress", JStr(ipAddress))]
    }
  }

  /** What the caller passes to a log call: an operation label and a data payload. */
  datatype LogObj = LogObj(operation: string, data: Obj)
  {
    function Fields(): Obj
    {
      [("operation", JStr(operation)), ("data", JObj(data))]
    }
  }

  datatype Level = Debug | Log | Info | Warn | Error

  /** The `level` string each severity entry point passes to the inner log function. */
  function LevelName(level: Level): string
  {
    match level
    case Debug => "DEBUG"
    case Log => "LOG"
    case Info => "INFO"
    case Warn => "WARN"
    case Error => "ERROR"
  }

  /** What `...store` contributes: spreading `undefined` adds no property. */
  function StoreFields(store: Option<Context>): Obj
  {
    match store
    case None => []
    case Some(c) => c.Fields()
  }

  /** The object literal `{ timeStamp, level, ...store, ...logObj }`, evaluated left to right. */
  function BuildRecord(timeStamp: string, level: Level, store: Option<Context>, obj: LogObj): Obj
  {
    Spread(Spread(Spread([], Head(timeStamp, level)), StoreFields(store)), obj.Fields())
  }

  /** The keys the active store adds to a record. */
  function ContextKeys(store: Option<Context>): seq<string>
  {
    if store.Some? then ["requestId", "traceId", "ipAddress"] else []
  }

  /** The object literal's own properties, `{ timeStamp, level }`. */
  function Head(timeStamp: string, level: Level): Obj
  {
    [("timeStamp", JStr(timeStamp)), ("level", JStr(LevelName(level)))]
  }

  /** Defining timeStamp and level on the empty literal gives exactly those two properties. */
  lemma HeadSpread(timeStamp: string, level: Level)
    ensures Spread([], Head(timeStamp, level)) == Head(timeStamp, level)
  {
    var head := Head(timeStamp, level);
    assert Keys(head) == ["timeStamp", "level"];
    SpreadDisjoint([], head);
    assert [] + head == head;
  }

  /** The store's keys are new to the literal, so `...store` appends its fields. */
  lemma StoreSpread(timeStamp: string, level: Level, store: Option<Context>)
    ensures Spread(Head(timeStamp, level), StoreFields(store)) == Head(timeStamp, level) + StoreFields(store)
  {
    var head := Head(timeStamp, level);
    assert Keys(head) == ["timeStamp", "level"];
    var ctx := StoreFields(store);
    assert Keys(ctx) == ContextKeys(store);
    assert UniqueKeys(ctx);
    SpreadDisjoint(head, ctx);
  }

  /** The caller's keys are new as well, so `...logObj` appends operation and data. */
  lemma LogObjSpread(timeStamp: string, level: Level, store: Option<Context>, obj: LogObj)
    ensures var prefix := Head(timeStamp, level) + StoreFields(store);
      Spread(prefix, obj.Fields()) == prefix + obj.Fields()
  {
    var prefix := Head(timeStamp, level) + StoreFields(store);
    assert Keys(prefix) == ["timeStamp", "level"] + ContextKeys(store);
    var f := obj.Fields();
    assert Keys(f) == ["operation", "data"];
    assert UniqueKeys(f);
    SpreadDisjoint(prefix, f);
  }

  /**
   * No source overrides another, so the record is its parts one after the
   * other: time stamp, level, the store's fields (if any), operation, data.
   */
  lemma RecordLayout(timeStamp: string, level: Level, store: Option<Context>, obj: LogObj)
    ensures BuildRecord(timeStamp, level, store, obj) == Head(timeStamp, level) + StoreFields(store) + obj.Fields()
  {
    HeadSpread(timeStamp, level);
    StoreSpread(timeStamp, level, store);
    LogObjSpread(timeStamp, level, store, obj);
  }

  /** Record keys come in the order timeStamp, level, [requestId, traceId, ipAddress], operation, data. */
  lemma RecordKeyOrder(timeStamp: string, level: Level, store: Option<Context>, obj: LogObj)
    ensures Keys(BuildRecord(timeStamp, level, store, obj))
         == ["timeStamp", "level"] + ContextKeys(store) + ["operation", "data"]
    ensures UniqueKeys(BuildRecord(timeStamp, level, store, obj))
  {
    RecordLayout(timeStamp, level, store, obj);
  }

  /**
   * The record carries requestId, traceId and ipAddress exactly when a store
   * is active, and then they are the store's own values.
   */
  lemma RecordContextFields(timeStamp: string, level: Level, store: Option<Context>, obj: LogObj)
    ensures var r := BuildRecord(timeStamp, level, store, obj);
      && (store.None? ==> "requestId" !in Keys(r) && "traceId" !in Keys(r) && "ipAddress" !in Keys(r))
      && (store.Some? ==>
            && Lookup(r, "requestId") == Some(JStr(store.value.requestId))
            && Lookup(r, "traceId") == Some(JStr(store.value.traceId))
            && Lookup(r, "ipAddress") == Some(JStr(store.value.ipAddress)))
  {
    var r := BuildRecord(timeStamp, level, store, obj);
    RecordKeyOrder(timeStamp, level, store, obj);
    RecordLayout(timeStamp, level, store, obj);
    if store.Some? {
      LookupAt(r, 2);
      LookupAt(r, 3);
      LookupAt(r, 4);
    }
  }

  /** The time stamp, the level name and the caller's operation and data appear unchanged. */
  lemma RecordCallerFields(timeStamp: string, level: Level, store: Option<Context>, obj: LogObj)
    ensures var r := BuildRecord(timeStamp, level, store, obj);
      && Lookup(r, "timeStamp") == Some(JStr(timeStamp))
      && Lookup(r, "level") == Some(JStr(LevelName(level)))
      && Lookup(r, "operation") == Some(JStr(obj.operation))
      && Lookup(r, "data") == Some(JObj(obj.data))
  {
    var r := BuildRecord(timeStamp, level, store, obj);
    RecordKeyOrder(timeStamp, level, store, obj);
    RecordLayout(timeStamp, level, store, obj);
    var n := |r|;
    LookupAt(r, 0);
    LookupAt(r, 1);
    LookupAt(r, n - 2);
    LookupAt(r, n - 1);
  }

  /** The five entry points differ in the level only: same keys, same value under every other key. */
  lemma LevelsDifferOnlyInLevel(timeStamp: string, l1: Level, l2: Level, store: Option<Context>, obj: LogObj)
    ensures var r1, r2 := BuildRecord(timeStamp, l1, store, obj), BuildRecord(timeStamp, l2, store, obj);
      && Keys(r1) == Keys(r2)
      && (forall k :: k != "level" ==> Lookup(r1, k) == Lookup(r2, k))
      && (l1 != l2 <==> Lookup(r1, "level") != Lookup(r2, "level"))
  {
    var tail := StoreFields(store) + obj.Fields();
    RecordLayout(timeStamp, l1, store, obj);
    RecordLayout(timeStamp, l2, store, obj);
    assert Head(timeStamp, l1) + StoreFields(store) + obj.Fields() == Head(timeStamp, l1) + tail;
    assert Head(timeStamp, l2) + StoreFields(store) + obj.Fields() == Head(timeStamp, l2) + tail;
    SharedTail(timeStamp, l1, l2, tail);
    LevelNameInjective(l1, l2);
  }

  /** Distinct severities print distinct level names. */
  lemma LevelNameInjective(l1: Level, l2: Level)
    ensures l1 != l2 <==> LevelName(l1) != LevelName(l2)
  {
  }

  /** Two records that differ only in their head differ only in the level. */
  lemma SharedTail(timeStamp: string, l1: Level, l2: Level, tail: Obj)
    ensures var r1, r2 := Head(timeStamp, l1) + tail, Head(timeStamp, l2) + tail;
      && Keys(r1) == Keys(r2)
      && (forall k :: k != "level" ==> Lookup(r1, k) == Lookup(r2, k))
      && Lookup(r1, "level") == Some(JStr(LevelName(l1)))
      && Lookup(r2, "level") == Some(JStr(LevelName(l2)))
  {
  }

  /**
   * What a callback does while it runs, in program order: a log call at some
   * level (with the clock's reading at that call), or a nested `init`.
   */
  datatype Action =
    | Emit(level: Level, timeStamp: string, obj: LogObj)
    | Scope(context: Context, body: seq<Action>)

  /** The records a callback hands to the transport when it runs with `store` active. */
  function Output(store: Option<Context>, callback: seq<Action>): seq<Obj>
    decreases callback
  {
    if callback == [] then []
    else
      var first := match callback[0]
        case Emit(level, timeStamp, obj) => [BuildRecord(timeStamp, level, store, obj)]
        case Scope(context, body) => Output(Some(context), body);
      first + Output(store, callback[1..])
  }

  /** The number of log calls a callback makes, nested scopes included. */
  function LogCalls(callback: seq<Action>): nat
    decreases callback
  {
    if callback == [] then 0
    else
      var first := match callback[0]
        case Emit(_, _, _) => 1
        case Scope(_, body) => LogCalls(body);
      first + LogCalls(callback[1..])
  }

  /** Each log call produces exactly one record. */
  lemma {:induction false} OneRecordPerCall(store: Option<Context>, callback: seq<Action>)
    ensures |Output(store, callback)| == LogCalls(callback)
    decreases callback
  {
    if callback != [] {
      if callback[0].Scope? {
        OneRecordPerCall(Some(callback[0].context), callback[0].body);
      }
      OneRecordPerCall(store, callback[1..]);
    }
  }

  /** Running two callbacks one after the other outputs their records one after the other. */
  lemma {:induction false} OutputAppend(store: Option<Context>, a: seq<Action>, b: seq<Action>)
    ensures Output(store, a + b) == Output(store, a) + Output(store, b)
    decreases a
  {
    if a == [] {
      assert a + b == b;
    } else {
      assert (a + b)[0] == a[0];
      assert (a + b)[1..] == a[1..] + b;
      OutputAppend(store, a[1..], b);
    }
  }

  /** A callback without nested scopes: the i-th record is the i-th call's, built with `store`. */
  lemma {:induction false} FlatOutput(store: Option<Context>, callback: seq<Action>)
    requires forall i :: 0 <= i < |callback| ==> callback[i].Emit?
    ensures |Output(store, callback)| == |callback|
    ensures forall i :: 0 <= i < |callback| ==>
      Output(store, callback)[i] == BuildRecord(callback[i].timeStamp, callback[i].level, store, callback[i].obj)
    decreases callback
  {
    if callback != [] {
      FlatOutput(store, callback[1..]);
    }
  }

  /** Every record a callback without nested scopes logs under `context` carries that context's three fields. */
  lemma FlatScopeCarriesContext(context: Context, callback: seq<Action>)
    requires forall i :: 0 <= i < |callback| ==> callback[i].Emit?
    ensures |Output(Some(context), callback)| == |callback|
    ensures forall i :: 0 <= i < |callback| ==>
      var r := Output(Some(context), callback)[i];
      && Lookup(r, "requestId") == Some(JStr(context.requestId))
      && Lookup(r, "traceId") == Some(JStr(context.traceId))
      && Lookup(r, "ipAddress") == Some(JStr(context.ipAddress))
  {
    FlatOutput(Some(context), callback);
    forall i | 0 <= i < |callback|
      ensures var r := Output(Some(context), callback)[i];
        && Lookup(r, "requestId") == Some(JStr(context.requestId))
        && Lookup(r, "traceId") == Some(JStr(context.traceId))
        && Lookup(r, "ipAddress") == Some(JStr(context.ipAddress))
    {
      RecordContextFields(callback[i].timeStamp, callback[i].level, Some(context), callback[i].obj);
    }
  }

  /**
   * A nested scope shadows the outer store for its own records only: the
   * calls before it and every call after it see the outer store.
   */
  lemma ScopeShadowsThenRestores(store: Option<Context>, pre: seq<Action>, context: Context,
                                 body: seq<Action>, post: seq<Action>)
    ensures Output(store, pre + [Scope(context, body)] + post)
         == Output(store, pre) + Output(Some(context), body) + Output(store, post)
  {
    OutputAppend(store, pre + [Scope(context, body)], post);
    OutputAppend(store, pre, [Scope(context, body)]);
    assert [Scope(context, body)][1..] == [];
  }

  /**
   * The logger, `LoggingContext(transport)`: `store` is what the
   * context store returns right now, `transport` every record handed to
   * `transport.log`, oldest first.
   */
  class Logger {
    var store: Option<Context>
    var transport: seq<Obj>

    /** A fresh logger: no context is active and nothing was logged. */
    constructor ()
      ensures store == None && transport == []
    {
      store := None;
      transport := [];
    }

    /** The inner `log(level, logObj)`: appends exactly one record, assembled with the active store. */
    method LogAt(level: Level, timeStamp: string, obj: LogObj)
      modifies this
      ensures store == old(store)
      ensures transport == old(transport) + [BuildRecord(timeStamp, level, store, obj)]
    {
      var record := BuildRecord(timeStamp, level, store, obj);
      transport := transport + [record];
    }

    method Debug(timeStamp: string, obj: LogObj)
      modifies this
      ensures store == old(store)
      ensures transport == old(transport) + [BuildRecord(timeStamp, Level.Debug, store, obj)]
    {
      LogAt(Level.Debug, timeStamp, obj);
    }

    method Log(timeStamp: string, obj: LogObj)
      modifies this
      ensures store == old(store)
      ensures transport == old(transport) + [BuildRecord(timeStamp, Level.Log, store, obj)]
    {
      LogAt(Level.Log, timeStamp, obj);
    }

    method Info(timeStamp: string, obj: LogObj)
      modifies this
      ensures store == old(store)
      ensures transport == old(transport) + [BuildRecord(timeStamp, Level.Info, store, obj)]
    {
      LogAt(Level.Info, timeStamp, obj);
    }

    method Warn(timeStamp: string, obj: LogObj)
      modifies this
      ensures store == old(store)
      ensures transport == old(transport) + [BuildRecord(timeStamp, Level.Warn, store, obj)]
    {
      LogAt(Level.Warn, timeStamp, obj);
    }

    method Error(timeStamp: string, obj: LogObj)
      modifies this
      ensures store == old(store)
      ensures transport == old(transport) + [BuildRecord(timeStamp, Level.Error, store, obj)]
    {
      LogAt(Level.Error, timeStamp, obj);
    }

    /**
     * `init(context, callback)`: runs the callback once with `context` as
     * the active store, then makes the previous store (possibly none)
     * active again.
     */
    method Init(context: Context, callback: seq<Action>)
      modifies this
      ensures store == old(store)
      ensures transport == old(transport) + Output(Some(context), callback)
      decreases callback, 1
    {
      var saved := store;
      store := Some(context);
      Execute(callback);
      store := saved;
    }

    /** Runs a callback's actions in program order under the active store. */
    method Execute(callback: seq<Action>)
      modifies this
      ensures store == old(store)
      ensures transport == old(transport) + Output(store, callback)
      decreases callback, 0
    {
      if callback != [] {
        match callback[0] {
          case Emit(level, timeStamp, obj) => LogAt(level, timeStamp, obj);
          case Scope(context, body) => Init(context, body);
        }
        Execute(callback[1..]);
      }
    }
  }
}

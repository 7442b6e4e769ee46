/** The context of a request as a chain of immutable key/value bindings (Go's
    context.WithValue), the typed accessors over it, the accumulated logging
    fields, and the rule that picks which logger receives a log call.

    The OpenTelemetry span that Go reads out of the same context is passed in
    as a SpanContext. The package-level default logger is the one mutable
    variable; it lives in class Package. */
module Contextx {
  import opened Wrappers
  import Slog

  /** A structured-logging argument: Go's `any`, as this system fills it. */
  datatype Arg = Str(s: string) | Int(i: int)

  datatype LogCall = LogCall(level: Slog.Level, msg: string, args: seq<Arg>)

  /** A logger of the caller's own that keeps every call it receives, in
      order: the role a custom logger (or a test's mock) plays. */
  class Recorder {
    var calls: seq<LogCall>

    constructor ()
      ensures calls == []
    {
      calls := [];
    }

    method Debug(msg: string, args: seq<Arg>)
      modifies this
      ensures calls == old(calls) + [LogCall(Slog.Level.Debug, msg, args)]
    {
      calls := calls + [LogCall(Slog.Level.Debug, msg, args)];
    }

    method Info(msg: string, args: seq<Arg>)
      modifies this
      ensures calls == old(calls) + [LogCall(Slog.Level.Info, msg, args)]
    {
      calls := calls + [LogCall(Slog.Level.Info, msg, args)];
    }

    method Warn(msg: string, args: seq<Arg>)
      modifies this
      ensures calls == old(calls) + [LogCall(Slog.Level.Warn, msg, args)]
    {
      calls := calls + [LogCall(Slog.Level.Warn, msg, args)];
    }

    method Error(msg: string, args: seq<Arg>)
      modifies this
      ensures calls == old(calls) + [LogCall(Slog.Level.Error, msg, args)]
    {
      calls := calls + [LogCall(Slog.Level.Error, msg, args)];
    }
  }

  /** A value of Go's Logger interface: nil, the built-in adapter over the
      default slog logger, or any other implementation. */
  datatype Logger = NilLogger | SlogAdapter | Custom(rec: Recorder)

  datatype Key = LoggerKey | FieldsKey | RequestIDKey | TraceIDKey | UserIDKey
               | CorrelationIDKey | OperationKey | ServiceKey | EnvironmentKey

  datatype Value = LoggerValue(logger: Logger) | FieldsValue(fields: seq<Arg>) | StringValue(s: string)

  datatype Context = Background | WithValue(parent: Context, key: Key, val: Value)

  /** `c.Value(k)`: the binding nearest to the end of the chain wins. */
  function Lookup(c: Context, k: Key): Option<Value> {
    match c
    case Background => None
    case WithValue(parent, k', v) => if k' == k then Some(v) else Lookup(parent, k)
  }

  /** The chain's bindings, oldest first: a reference view of a context. */
  function Bindings(c: Context): seq<(Key, Value)> {
    match c
    case Background => []
    case WithValue(parent, k, v) => Bindings(parent) + [(k, v)]
  }

  /** One more binding extends the chain's bindings at the end. */
  lemma BindingsExtend(parent: Context, k: Key, v: Value)
    ensures |Bindings(WithValue(parent, k, v))| == |Bindings(parent)| + 1
    ensures Bindings(WithValue(parent, k, v))[|Bindings(parent)|] == (k, v)
    ensures forall i :: 0 <= i < |Bindings(parent)| ==> Bindings(WithValue(parent, k, v))[i] == Bindings(parent)[i]
  {
  }

  /** `c.Value(k)` finds a value exactly when some binding has the key, and
      then it is the value of the LAST such binding: a later WithValue
      shadows an earlier one. */
  lemma {:induction false} LookupIsLastBinding(c: Context, k: Key)
    ensures Lookup(c, k).None? <==> forall i :: 0 <= i < |Bindings(c)| ==> Bindings(c)[i].0 != k
    ensures Lookup(c, k).Some? ==>
      exists i :: 0 <= i < |Bindings(c)| && Bindings(c)[i] == (k, Lookup(c, k).value)
                  && forall j :: i < j < |Bindings(c)| ==> Bindings(c)[j].0 != k
  {
    match c
    case Background =>
    case WithValue(parent, k', v) =>
      BindingsExtend(parent, k', v);
      if k' != k {
        LookupIsLastBinding(parent, k);
        if Lookup(parent, k).Some? {
          var i :| 0 <= i < |Bindings(parent)| && Bindings(parent)[i] == (k, Lookup(parent, k).value)
                   && forall j :: i < j < |Bindings(parent)| ==> Bindings(parent)[j].0 != k;
          assert Bindings(c)[i] == Bindings(parent)[i];
        }
      }
  }

  /** `c.Value(k).(string)`, or "" when the key is missing. */
  function StringAt(c: Context, k: Key): string {
    match Lookup(c, k)
    case Some(StringValue(s)) => s
    case _ => ""
  }

  // =======================================================================
  // String-valued keys
  // =======================================================================

  function WithRequestID(c: Context, requestID: string): (r: Context)
    ensures GetRequestID(r) == requestID
    ensures forall k :: k != RequestIDKey ==> Lookup(r, k) == Lookup(c, k)
  {
    WithValue(c, RequestIDKey, StringValue(requestID))
  }

  function GetRequestID(c: Context): (s: string)
    ensures Lookup(c, RequestIDKey) == None ==> s == ""
    ensures Lookup(c, RequestIDKey).Some? && Lookup(c, RequestIDKey).value.StringValue? ==> s == Lookup(c, RequestIDKey).value.s
    ensures Lookup(c, RequestIDKey).Some? && !Lookup(c, RequestIDKey).value.StringValue? ==> s == ""
  {
    StringAt(c, RequestIDKey)
  }

  function WithUserID(c: Context, userID: string): (r: Context)
    ensures GetUserID(r) == userID
    ensures forall k :: k != UserIDKey ==> Lookup(r, k) == Lookup(c, k)
  {
    WithValue(c, UserIDKey, StringValue(userID))
  }

  function GetUserID(c: Context): (s: string)
    ensures Lookup(c, UserIDKey) == None ==> s == ""
    ensures Lookup(c, UserIDKey).Some? && Lookup(c, UserIDKey).value.StringValue? ==> s == Lookup(c, UserIDKey).value.s
    ensures Lookup(c, UserIDKey).Some? && !Lookup(c, UserIDKey).value.StringValue? ==> s == ""
  {
    StringAt(c, UserIDKey)
  }

  function WithCorrelationID(c: Context, correlationID: string): (r: Context)
    ensures GetCorrelationID(r) == correlationID
    ensures forall k :: k != CorrelationIDKey ==> Lookup(r, k) == Lookup(c, k)
  {
    WithValue(c, CorrelationIDKey, StringValue(correlationID))
  }

  function GetCorrelationID(c: Context): (s: string)
    ensures Lookup(c, CorrelationIDKey) == None ==> s == ""
    ensures Lookup(c, CorrelationIDKey).Some? && Lookup(c, CorrelationIDKey).value.StringValue? ==> s == Lookup(c, CorrelationIDKey).value.s
    ensures Lookup(c, CorrelationIDKey).Some? && !Lookup(c, CorrelationIDKey).value.StringValue? ==> s == ""
  {
    StringAt(c, CorrelationIDKey)
  }

  function WithOperation(c: Context, operation: string): (r: Context)
    ensures GetOperation(r) == operation
    ensures forall k :: k != OperationKey ==> Lookup(r, k) == Lookup(c, k)
  {
    WithValue(c, OperationKey, StringValue(operation))
  }

  function GetOperation(c: Context): (s: string)
    ensures Lookup(c, OperationKey) == None ==> s == ""
    ensures Lookup(c, OperationKey).Some? && Lookup(c, OperationKey).value.StringValue? ==> s == Lookup(c, OperationKey).value.s
    ensures Lookup(c, OperationKey).Some? && !Lookup(c, OperationKey).value.StringValue? ==> s == ""
  {
    StringAt(c, OperationKey)
  }

  function WithService(c: Context, service: string): (r: Context)
    ensures GetService(r) == service
    ensures forall k :: k != ServiceKey ==> Lookup(r, k) == Lookup(c, k)
  {
    WithValue(c, ServiceKey, StringValue(service))
  }

  function GetService(c: Context): (s: string)
    ensures Lookup(c, ServiceKey) == None ==> s == ""
    ensures Lookup(c, ServiceKey).Some? && Lookup(c, ServiceKey).value.StringValue? ==> s == Lookup(c, ServiceKey).value.s
    ensures Lookup(c, ServiceKey).Some? && !Lookup(c, ServiceKey).value.StringValue? ==> s == ""
  {
    StringAt(c, ServiceKey)
  }

  function WithEnvironment(c: Context, env: string): (r: Context)
    ensures GetEnvironment(r) == env
    ensures forall k :: k != EnvironmentKey ==> Lookup(r, k) == Lookup(c, k)
  {
    WithValue(c, EnvironmentKey, StringValue(env))
  }

  function GetEnvironment(c: Context): (s: string)
    ensures Lookup(c, EnvironmentKey) == None ==> s == ""
    ensures Lookup(c, EnvironmentKey).Some? && Lookup(c, EnvironmentKey).value.StringValue? ==> s == Lookup(c, EnvironmentKey).value.s
    ensures Lookup(c, EnvironmentKey).Some? && !Lookup(c, EnvironmentKey).value.StringValue? ==> s == ""
  {
    StringAt(c, EnvironmentKey)
  }

  // =======================================================================
  // Trace and span IDs
  // =======================================================================

  /** OpenTelemetry IDs in their hexadecimal text form. */
  type TraceHex = s: string | |s| == 32 witness "4bf92f3577b34da6a3ce929d0e0e4736"
  type SpanHex = s: string | |s| == 16 witness "00f067aa0ba902b7"

  /** The span context OpenTelemetry finds in a Go context; both IDs are absent
      when no span is active. */
  datatype SpanContext = SpanContext(traceID: Option<TraceHex>, spanID: Option<SpanHex>)

  const NoSpan: SpanContext := SpanContext(None, None)

  function WithTraceID(c: Context, traceID: string): (r: Context)
    ensures GetTraceID(r, NoSpan) == traceID
    ensures forall k :: k != TraceIDKey ==> Lookup(r, k) == Lookup(c, k)
  {
    WithValue(c, TraceIDKey, StringValue(traceID))
  }

  /** The active span's trace ID wins over a stored one; "" when neither. */
  function GetTraceID(c: Context, span: SpanContext): (s: string)
    ensures span.traceID.Some? ==> s == span.traceID.value && s != ""
    ensures span.traceID.None? && Lookup(c, TraceIDKey) == None ==> s == ""
    ensures span.traceID.None? && Lookup(c, TraceIDKey).Some? && Lookup(c, TraceIDKey).value.StringValue? ==>
      s == Lookup(c, TraceIDKey).value.s
    ensures span.traceID.None? && Lookup(c, TraceIDKey).Some? && !Lookup(c, TraceIDKey).value.StringValue? ==> s == ""
  {
    if span.traceID.Some? then span.traceID.value else StringAt(c, TraceIDKey)
  }

  function GetSpanID(span: SpanContext): (s: string)
    ensures s == "" <==> span.spanID.None?
    ensures span.spanID.Some? ==> s == span.spanID.value
  {
    if span.spanID.Some? then span.spanID.value else ""
  }

  /** True exactly when a non-empty string is stored under the key. */
  predicate HasRequestID(c: Context): (b: bool)
    ensures b <==> Lookup(c, RequestIDKey).Some? && Lookup(c, RequestIDKey).value.StringValue?
                   && Lookup(c, RequestIDKey).value.s != ""
  {
    GetRequestID(c) != ""
  }

  predicate HasUserID(c: Context): (b: bool)
    ensures b <==> Lookup(c, UserIDKey).Some? && Lookup(c, UserIDKey).value.StringValue?
                   && Lookup(c, UserIDKey).value.s != ""
  {
    GetUserID(c) != ""
  }

  /** An active span always counts; otherwise a non-empty stored ID does. */
  predicate HasTraceID(c: Context, span: SpanContext): (b: bool)
    ensures span.traceID.Some? ==> b
    ensures span.traceID.None? ==>
      (b <==> Lookup(c, TraceIDKey).Some? && Lookup(c, TraceIDKey).value.StringValue?
              && Lookup(c, TraceIDKey).value.s != "")
  {
    GetTraceID(c, span) != ""
  }

  // =======================================================================
  // Logging fields
  // =======================================================================

  /** `fieldsFromContext`: the nearest fields binding, or none. */
  function FieldsOf(c: Context): (f: seq<Arg>)
    ensures Lookup(c, FieldsKey) == None ==> f == []
    ensures Lookup(c, FieldsKey).Some? && Lookup(c, FieldsKey).value.FieldsValue? ==> f == Lookup(c, FieldsKey).value.fields
    ensures Lookup(c, FieldsKey).Some? && !Lookup(c, FieldsKey).value.FieldsValue? ==> f == []
  {
    match Lookup(c, FieldsKey)
    case Some(FieldsValue(f)) => f
    case _ => []
  }

  /** The existing fields first, then `args`. */
  function WithFields(c: Context, args: seq<Arg>): (r: Context)
    ensures FieldsOf(r) == FieldsOf(c) + args
    ensures forall k :: k != FieldsKey ==> Lookup(r, k) == Lookup(c, k)
  {
    WithValue(c, FieldsKey, FieldsValue(FieldsOf(c) + args))
  }

  // =======================================================================
  // Loggers
  // =======================================================================

  function WithLogger(c: Context, logger: Logger): (r: Context)
    ensures Lookup(r, LoggerKey) == Some(LoggerValue(logger))
    ensures forall k :: k != LoggerKey ==> Lookup(r, k) == Lookup(c, k)
  {
    WithValue(c, LoggerKey, LoggerValue(logger))
  }

  /** `c.Value(loggerKey).(Logger)`: the nearest logger binding, unless it
      holds a nil interface, which the type assertion rejects. */
  function AttachedLogger(c: Context): (o: Option<Logger>)
    ensures o.Some? ==> o.value != NilLogger && Lookup(c, LoggerKey) == Some(LoggerValue(o.value))
    ensures Lookup(c, LoggerKey) == None ==> o == None
    ensures Lookup(c, LoggerKey).Some? && Lookup(c, LoggerKey).value.LoggerValue? ==>
      (o.None? <==> Lookup(c, LoggerKey).value.logger == NilLogger)
    ensures Lookup(c, LoggerKey).Some? && !Lookup(c, LoggerKey).value.LoggerValue? ==> o == None
  {
    match Lookup(c, LoggerKey)
    case Some(LoggerValue(l)) => if l == NilLogger then None else Some(l)
    case _ => None
  }

  /** The logger attached to the context, else the current default; never
      nil unless the default itself was set to nil. */
  function FromContext(c: Context, defaultLogger: Logger): (l: Logger)
    ensures AttachedLogger(c).Some? ==> l == AttachedLogger(c).value
    ensures AttachedLogger(c).None? ==> l == defaultLogger
    ensures defaultLogger != NilLogger ==> l != NilLogger
  {
    match AttachedLogger(c)
    case Some(l) => l
    case None => defaultLogger
  }

  /** The logger a log call is handed to (logWithCaller's `customLogger`):
      the attached one if any, else the default if it is neither the slog
      adapter nor nil. None means the call goes straight to slog's handler. */
  function ChosenLogger(c: Context, defaultLogger: Logger): (o: Option<Logger>)
    ensures o.Some? ==> o.value != NilLogger
    ensures AttachedLogger(c).Some? ==> o == AttachedLogger(c)
    ensures AttachedLogger(c).None? ==> (o.Some? <==> defaultLogger.Custom?)
    ensures AttachedLogger(c).None? && o.Some? ==> o.value == defaultLogger
  {
    if AttachedLogger(c).Some? then AttachedLogger(c)
    else if defaultLogger != SlogAdapter && defaultLogger != NilLogger then Some(defaultLogger)
    else None
  }

  /** The recorder that a call through `chosen` appends to, if any. */
  function Recipients(chosen: Option<Logger>): set<Recorder> {
    if chosen.Some? && chosen.value.Custom? then {chosen.value.rec} else {}
  }

  /** The package-level state: the default logger, which starts as the slog
      adapter and which SetDefaultLogger replaces. */
  class Package {
    var defaultLogger: Logger

    constructor ()
      ensures defaultLogger == SlogAdapter
    {
      defaultLogger := SlogAdapter;
    }

    method SetDefaultLogger(logger: Logger)
      modifies this
      ensures defaultLogger == logger
    {
      defaultLogger := logger;
    }

    /** One call to the same-named method of the chosen logger, with the
        context's fields before the call's own arguments. On the slog path
        (no chosen logger) or through the slog adapter the record goes to
        slog, whose output is not modelled. */
    method LogWithCaller(c: Context, level: Slog.Level, msg: string, args: seq<Arg>)
      modifies Recipients(ChosenLogger(c, defaultLogger))
      ensures defaultLogger == old(defaultLogger)
      ensures var chosen := ChosenLogger(c, defaultLogger);
        chosen.Some? && chosen.value.Custom? ==>
          chosen.value.rec.calls == old(chosen.value.rec.calls) + [LogCall(level, msg, FieldsOf(c) + args)]
    {
      var allArgs := FieldsOf(c) + args;
      var chosen := ChosenLogger(c, defaultLogger);
      if chosen.Some? && chosen.value.Custom? {
        var rec := chosen.value.rec;
        match level
        case Debug => rec.Debug(msg, allArgs);
        case Info => rec.Info(msg, allArgs);
        case Warn => rec.Warn(msg, allArgs);
        case Error => rec.Error(msg, allArgs);
      }
    }

    method Debug(c: Context, msg: string, args: seq<Arg>)
      modifies Recipients(ChosenLogger(c, defaultLogger))
      ensures defaultLogger == old(defaultLogger)
      ensures var chosen := ChosenLogger(c, defaultLogger);
        chosen.Some? && chosen.value.Custom? ==>
          chosen.value.rec.calls == old(chosen.value.rec.calls) + [LogCall(Slog.Level.Debug, msg, FieldsOf(c) + args)]
    {
      LogWithCaller(c, Slog.Level.Debug, msg, args);
    }

    method Info(c: Context, msg: string, args: seq<Arg>)
      modifies Recipients(ChosenLogger(c, defaultLogger))
      ensures defaultLogger == old(defaultLogger)
      ensures var chosen := ChosenLogger(c, defaultLogger);
        chosen.Some? && chosen.value.Custom? ==>
          chosen.value.rec.calls == old(chosen.value.rec.calls) + [LogCall(Slog.Level.Info, msg, FieldsOf(c) + args)]
    {
      LogWithCaller(c, Slog.Level.Info, msg, args);
    }

    method Warn(c: Context, msg: string, args: seq<Arg>)
      modifies Recipients(ChosenLogger(c, defaultLogger))
      ensures defaultLogger == old(defaultLogger)
      ensures var chosen := ChosenLogger(c, defaultLogger);
        chosen.Some? && chosen.value.Custom? ==>
          chosen.value.rec.calls == old(chosen.value.rec.calls) + [LogCall(Slog.Level.Warn, msg, FieldsOf(c) + args)]
    {
      LogWithCaller(c, Slog.Level.Warn, msg, args);
    }

    method Error(c: Context, msg: string, args: seq<Arg>)
      modifies Recipients(ChosenLogger(c, defaultLogger))
      ensures defaultLogger == old(defaultLogger)
      ensures var chosen := ChosenLogger(c, defaultLogger);
        chosen.Some? && chosen.value.Custom? ==>
          chosen.value.rec.calls == old(chosen.value.rec.calls) + [LogCall(Slog.Level.Error, msg, FieldsOf(c) + args)]
    {
      LogWithCaller(c, Slog.Level.Error, msg, args);
    }
  }

  // =======================================================================
  // LogFields
  // =======================================================================

  /** The seven (name, value) pairs LogFields reads, in its fixed order. */
  function Entries(c: Context, span: SpanContext): seq<(string, string)> {
    [("service", GetService(c)), ("environment", GetEnvironment(c)),
     ("operation", GetOperation(c)), ("request_id", GetRequestID(c)),
     ("trace_id", GetTraceID(c, span)), ("user_id", GetUserID(c)),
     ("correlation_id", GetCorrelationID(c))]
  }

  /** The arguments one entry contributes: its name and value, or nothing
      when the value is empty. */
  function Pair(e: (string, string)): seq<Arg> {
    if e.1 != "" then [Str(e.0), Str(e.1)] else []
  }

  /** The key/value arguments for the entries with a non-empty value, in
      order. */
  function Emit(entries: seq<(string, string)>): seq<Arg> {
    if |entries| == 0 then []
    else Emit(entries[..|entries| - 1]) + Pair(entries[|entries| - 1])
  }

  function CountSet(entries: seq<(string, string)>): nat {
    if |entries| == 0 then 0
    else CountSet(entries[..|entries| - 1]) + (if entries[|entries| - 1].1 != "" then 1 else 0)
  }

  lemma EmitSnoc(entries: seq<(string, string)>, e: (string, string))
    ensures Emit(entries + [e]) == Emit(entries) + Pair(e)
  {
    assert (entries + [e])[..|entries|] == entries;
  }

  /** Two arguments per entry with a value, none for the others. */
  lemma {:induction false} EmitLength(entries: seq<(string, string)>)
    ensures |Emit(entries)| == 2 * CountSet(entries)
  {
    if |entries| > 0 {
      EmitLength(entries[..|entries| - 1]);
    }
  }

  /** Entries whose values are all empty emit nothing. */
  lemma {:induction false} EmitNothingSet(entries: seq<(string, string)>)
    requires forall i :: 0 <= i < |entries| ==> entries[i].1 == ""
    ensures Emit(entries) == []
  {
    if |entries| > 0 {
      var init := entries[..|entries| - 1];
      assert forall i :: 0 <= i < |init| ==> init[i].1 == "" by {
        forall i | 0 <= i < |init| ensures init[i].1 == "" {
          assert init[i] == entries[i];
        }
      }
      EmitNothingSet(init);
    }
  }

  /** Emitting a concatenation emits each part in turn: earlier entries come
      first in the output. */
  lemma {:induction false} EmitConcat(a: seq<(string, string)>, b: seq<(string, string)>)
    ensures Emit(a + b) == Emit(a) + Emit(b)
    decreases |b|
  {
    if |b| > 0 {
      var b' := b[..|b| - 1];
      assert (a + b)[..|a + b| - 1] == a + b';
      EmitConcat(a, b');
    } else {
      assert a + b == a;
    }
  }

  /** Emit over seven entries, one entry at a time. */
  lemma EmitSeven(e0: (string, string), e1: (string, string), e2: (string, string), e3: (string, string),
                  e4: (string, string), e5: (string, string), e6: (string, string))
    ensures Emit([e0, e1, e2, e3, e4, e5, e6])
         == [] + Pair(e0) + Pair(e1) + Pair(e2) + Pair(e3) + Pair(e4) + Pair(e5) + Pair(e6)
  {
    EmitSnoc([], e0);
    assert [] + [e0] == [e0];
    EmitSnoc([e0], e1);
    assert [e0] + [e1] == [e0, e1];
    EmitSnoc([e0, e1], e2);
    assert [e0, e1] + [e2] == [e0, e1, e2];
    EmitSnoc([e0, e1, e2], e3);
    assert [e0, e1, e2] + [e3] == [e0, e1, e2, e3];
    EmitSnoc([e0, e1, e2, e3], e4);
    assert [e0, e1, e2, e3] + [e4] == [e0, e1, e2, e3, e4];
    EmitSnoc([e0, e1, e2, e3, e4], e5);
    assert [e0, e1, e2, e3, e4] + [e5] == [e0, e1, e2, e3, e4, e5];
    EmitSnoc([e0, e1, e2, e3, e4, e5], e6);
    assert [e0, e1, e2, e3, e4, e5] + [e6] == [e0, e1, e2, e3, e4, e5, e6];
  }

  /** One step of LogFields: append the name and the value when the value
      is non-empty. */
  method AppendIfSet(fields: seq<Arg>, name: string, value: string) returns (r: seq<Arg>)
    ensures r == fields + Pair((name, value))
    ensures value == "" ==> r == fields
  {
    r := fields;
    if value != "" {
      r := r + [Str(name), Str(value)];
    }
  }

  /** The key/value pairs of the context worth logging, service first and
      correlation ID last, each only when its value is non-empty. */
  method LogFields(c: Context, span: SpanContext) returns (fields: seq<Arg>)
    ensures fields == Emit(Entries(c, span))
    ensures |fields| == 2 * CountSet(Entries(c, span))
  {
    fields := [];
    var svc := GetService(c);
    fields := AppendIfSet(fields, "service", svc);
    var env := GetEnvironment(c);
    fields := AppendIfSet(fields, "environment", env);
    var op := GetOperation(c);
    fields := AppendIfSet(fields, "operation", op);
    var rid := GetRequestID(c);
    fields := AppendIfSet(fields, "request_id", rid);
    var tid := GetTraceID(c, span);
    fields := AppendIfSet(fields, "trace_id", tid);
    var uid := GetUserID(c);
    fields := AppendIfSet(fields, "user_id", uid);
    var cid := GetCorrelationID(c);
    fields := AppendIfSet(fields, "correlation_id", cid);
    EmitSeven(("service", svc), ("environment", env), ("operation", op), ("request_id", rid),
              ("trace_id", tid), ("user_id", uid), ("correlation_id", cid));
    EmitLength(Entries(c, span));
  }

  // =======================================================================
  // Properties
  // =======================================================================

  /** Every string key reads back what was stored under it, through any
      number of later bindings of the other keys. */
  lemma ChainedKeysReadable(c: Context, tid: string, rid: string, uid: string, cid: string,
                            op: string, svc: string, env: string)
    ensures var r := WithEnvironment(WithService(WithOperation(WithCorrelationID(
                       WithUserID(WithRequestID(WithTraceID(c, tid), rid), uid), cid), op), svc), env);
      GetTraceID(r, NoSpan) == tid && GetRequestID(r) == rid && GetUserID(r) == uid &&
      GetCorrelationID(r) == cid && GetOperation(r) == op && GetService(r) == svc &&
      GetEnvironment(r) == env
  {
  }

  /** A context with nothing stored answers "" for every key. */
  lemma BackgroundIsEmpty()
    ensures GetRequestID(Background) == "" && GetUserID(Background) == ""
    ensures GetCorrelationID(Background) == "" && GetOperation(Background) == ""
    ensures GetService(Background) == "" && GetEnvironment(Background) == ""
    ensures GetTraceID(Background, NoSpan) == "" && FieldsOf(Background) == []
    ensures AttachedLogger(Background) == None
  {
  }

  /** An active span's trace ID hides the one stored in the context. */
  lemma SpanTraceIDWins(c: Context, stored: string, span: SpanContext)
    requires span.traceID.Some?
    ensures GetTraceID(WithTraceID(c, stored), span) == span.traceID.value
    ensures HasTraceID(WithTraceID(c, stored), span)
  {
  }

  /** The Has* checks hold exactly when a non-empty value was stored. */
  lemma HasAfterWith(c: Context, v: string)
    ensures HasRequestID(WithRequestID(c, v)) <==> v != ""
    ensures HasUserID(WithUserID(c, v)) <==> v != ""
    ensures HasTraceID(WithTraceID(c, v), NoSpan) <==> v != ""
  {
  }

  /** Chained WithFields calls concatenate, oldest first. */
  lemma FieldsAccumulate(c: Context, a: seq<Arg>, b: seq<Arg>)
    ensures FieldsOf(WithFields(WithFields(c, a), b)) == FieldsOf(c) + a + b
  {
  }

  /** Binding other keys keeps the fields, and binding fields keeps the
      attached logger. */
  lemma FieldsSurviveOtherKeys(c: Context, args: seq<Arg>, rid: string, l: Logger)
    ensures FieldsOf(WithRequestID(WithFields(c, args), rid)) == FieldsOf(c) + args
    ensures AttachedLogger(WithFields(WithLogger(c, l), args)) == AttachedLogger(WithLogger(c, l))
  {
  }

  /** Attaching nil hides any logger attached further out: lookup finds the
      nil binding first and the type assertion rejects it. */
  lemma NilLoggerHidesOuter(c: Context, outer: Logger, defaultLogger: Logger)
    ensures AttachedLogger(WithLogger(WithLogger(c, outer), NilLogger)) == None
    ensures FromContext(WithLogger(WithLogger(c, outer), NilLogger), defaultLogger) == defaultLogger
  {
  }

  /** The nearest non-nil logger wins over an outer one and over the
      default. */
  lemma NearestLoggerWins(c: Context, outer: Logger, inner: Logger, defaultLogger: Logger)
    requires inner != NilLogger
    ensures ChosenLogger(WithLogger(WithLogger(c, outer), inner), defaultLogger) == Some(inner)
    ensures FromContext(WithLogger(WithLogger(c, outer), inner), defaultLogger) == inner
  {
  }

  /** Whenever a logger is chosen at all, it is the one FromContext
      reports; otherwise FromContext reports the slog adapter or nil. */
  lemma ChosenIsFromContext(c: Context, defaultLogger: Logger)
    ensures ChosenLogger(c, defaultLogger).Some? ==> ChosenLogger(c, defaultLogger).value == FromContext(c, defaultLogger)
    ensures ChosenLogger(c, defaultLogger).None? ==> FromContext(c, defaultLogger) == SlogAdapter || FromContext(c, defaultLogger) == NilLogger
  {
  }

  /** A context with none of the seven values yields no fields. */
  lemma LogFieldsOfBackground()
    ensures Emit(Entries(Background, NoSpan)) == []
  {
    EmitNothingSet(Entries(Background, NoSpan));
  }
}

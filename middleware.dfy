/** The request-logging middleware: after the handler chain has run, one log
    call whose level and message follow from the recorded errors and the
    status code, carrying the request's fields after any the context already
    had. The framework's view of the finished request is a Completed value;
    its clock, client address and error formatting are inputs. */
module Middleware {
  import Contextx
  import Slog

  /** What the middleware reads from a finished request. `errorsText` is the
      framework's rendering of the recorded errors, `errorCount` their number. */
  datatype Completed = Completed(status: int, httpMethod: string, path: string, query: string,
                                 clientIP: string, latency: string, userAgent: string,
                                 errorCount: nat, errorsText: string)

  /** The fields the middleware adds, in their fixed order. */
  function RequestFields(r: Completed): (f: seq<Contextx.Arg>)
    ensures |f| == 14
    ensures f[0] == Contextx.Str("status") && f[1] == Contextx.Int(r.status)
    ensures f[2] == Contextx.Str("method") && f[3] == Contextx.Str(r.httpMethod)
    ensures f[4] == Contextx.Str("path") && f[5] == Contextx.Str(r.path)
    ensures f[6] == Contextx.Str("query") && f[7] == Contextx.Str(r.query)
    ensures f[8] == Contextx.Str("ip") && f[9] == Contextx.Str(r.clientIP)
    ensures f[10] == Contextx.Str("latency") && f[11] == Contextx.Str(r.latency)
    ensures f[12] == Contextx.Str("user_agent") && f[13] == Contextx.Str(r.userAgent)
  {
    [Contextx.Str("status"), Contextx.Int(r.status),
     Contextx.Str("method"), Contextx.Str(r.httpMethod),
     Contextx.Str("path"), Contextx.Str(r.path),
     Contextx.Str("query"), Contextx.Str(r.query),
     Contextx.Str("ip"), Contextx.Str(r.clientIP),
     Contextx.Str("latency"), Contextx.Str(r.latency),
     Contextx.Str("user_agent"), Contextx.Str(r.userAgent)]
  }

  datatype LogEvent = LogEvent(level: Slog.Level, msg: string, args: seq<Contextx.Arg>)

  /** The one log call made for a finished request. */
  function Logging(c: Contextx.Context, r: Completed): (e: LogEvent)
    ensures e.args == Contextx.FieldsOf(c) + RequestFields(r)
    ensures r.errorCount > 0 ==> e.level == Slog.Level.Error && e.msg == r.errorsText
    ensures r.errorCount == 0 && r.status >= 500 ==> e == LogEvent(Slog.Level.Error, "server error", e.args)
    ensures r.errorCount == 0 && 400 <= r.status < 500 ==> e == LogEvent(Slog.Level.Warn, "client error", e.args)
    ensures r.errorCount == 0 && r.status < 400 ==> e == LogEvent(Slog.Level.Info, "request completed", e.args)
  {
    var ctx := Contextx.WithFields(c, RequestFields(r));
    var args := Contextx.FieldsOf(ctx);
    if r.errorCount > 0 then LogEvent(Slog.Level.Error, r.errorsText, args)
    else if r.status >= 500 then LogEvent(Slog.Level.Error, "server error", args)
    else if r.status >= 400 then LogEvent(Slog.Level.Warn, "client error", args)
    else LogEvent(Slog.Level.Info, "request completed", args)
  }

  /** The level alone: Error for recorded errors or a server error, Warn for
      a client error, Info otherwise, never Debug. */
  lemma LevelClassification(c: Contextx.Context, r: Completed)
    ensures Logging(c, r).level == Slog.Level.Error <==> r.errorCount > 0 || r.status >= 500
    ensures Logging(c, r).level == Slog.Level.Warn <==> r.errorCount == 0 && 400 <= r.status < 500
    ensures Logging(c, r).level == Slog.Level.Info <==> r.errorCount == 0 && r.status < 400
    ensures Logging(c, r).level != Slog.Level.Debug
  {
  }

  /** Recorded errors decide the message whatever the status. */
  lemma ErrorsOverrideStatus(c: Contextx.Context, r: Completed, status: int)
    requires r.errorCount > 0
    ensures Logging(c, r.(status := status)) == Logging(c, r).(args := Logging(c, r.(status := status)).args)
  {
  }

  /** The middleware as the request pipeline runs it: it derives the logging
      context and makes exactly one call through it, which reaches the
      logger chosen for the request context. */
  method LogRequest(pkg: Contextx.Package, c: Contextx.Context, r: Completed)
    modifies Contextx.Recipients(Contextx.ChosenLogger(c, pkg.defaultLogger))
    ensures pkg.defaultLogger == old(pkg.defaultLogger)
    ensures var chosen := Contextx.ChosenLogger(c, pkg.defaultLogger);
      var e := Logging(c, r);
      chosen.Some? && chosen.value.Custom? ==>
        chosen.value.rec.calls == old(chosen.value.rec.calls) + [Contextx.LogCall(e.level, e.msg, e.args)]
  {
    var ctx := Contextx.WithFields(c, RequestFields(r));
    assert Contextx.AttachedLogger(ctx) == Contextx.AttachedLogger(c);
    assert Contextx.FieldsOf(ctx) + [] == Logging(c, r).args;
    if r.errorCount > 0 {
      pkg.Error(ctx, r.errorsText, []);
    } else if r.status >= 500 {
      pkg.Error(ctx, "server error", []);
    } else if r.status >= 400 {
      pkg.Warn(ctx, "client error", []);
    } else {
      pkg.Info(ctx, "request completed", []);
    }
  }
}

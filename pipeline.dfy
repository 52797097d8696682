/**
 * The server's handler (main.go:75): AddOSContext(LoggingMiddleware(Recovery(mux))),
 * and what that fixed nesting guarantees for every request.
 */
module Pipeline {
  import opened Wrappers
  import opened Http
  import opened Middleware
  import opened Endpoints
  import opened Handlers
  import opened Router

  /** main.go:75 */
  function Wrapped(mux: Handler): (h: Handler)
  {
    AddOSContext(Logging(Recovery(mux)))
  }

  /** The server's handler as a method: serve one request on the wrapped router. */
  method ServeRequest(mux: ServeMux, col: Collaborators, r: Request, w: ResponseWriter, env: Env)
    modifies w, env
    ensures (Snapshot(w, env), Returned) == Run(Wrapped(mux.AsHandler()), col, r, old(Snapshot(w, env)))
  {
    ghost var before := Snapshot(w, env);
    var h := Wrapped(mux.AsHandler());
    var o := Serve(h, col, r, w, env);
    PipelineNeverPanics(mux.AsHandler(), col, r, before);
    assert o == Returned;
  }

  /** No panic escapes the wrapped handler. */
  lemma PipelineNeverPanics(mux: Handler, col: Collaborators, r: Request, s: State)
    ensures Run(Wrapped(mux), col, r, s).1 == Returned
  {
    var r' := WithOS(r, col.parseOS(r.userAgent));
    var inner := Run(Recovery(mux), col, r', s);
    assert inner == Recover(Run(mux, col, r', s));
    assert Run(Wrapped(mux), col, r, s) == LogAfter(s.now, r', inner);
  }

  /**
   * Every request through the wrapped handler leaves exactly one log record:
   * it starts at the request's start time, has a non-negative latency, the
   * request's path and the OS injected by AddOSContext.
   */
  lemma PipelineLogsOnce(mux: Handler, col: Collaborators, r: Request, s: State)
    requires LogFree(mux)
    ensures var out := Run(Wrapped(mux), col, r, s).0;
      && |out.logs| == |s.logs| + 1
      && out.logs[..|s.logs|] == s.logs
      && out.logs[|s.logs|] == LogData(s.now, Microseconds(out.now - s.now), r.path, col.parseOS(r.userAgent))
      && out.logs[|s.logs|].latency >= 0
  {
    var r' := WithOS(r, col.parseOS(r.userAgent));
    assert Run(Wrapped(mux), col, r, s) == Run(Logging(Recovery(mux)), col, r', s);
    ComposedOrderKeepsRecord(mux, col, r', s);
    assert OSOf(r'.ctx) == col.parseOS(r.userAgent);
  }

  /**
   * A panic under the mux, raised before any status was written, ends as one
   * 500 "Internal Server Error" response and one log record carrying the
   * injected OS.
   */
  lemma PipelinePanicIs500(mux: Handler, col: Collaborators, r: Request, s: State)
    requires LogFree(mux)
    requires var inner := Run(mux, col, WithOS(r, col.parseOS(r.userAgent)), s);
      inner.1.Panicking? && inner.0.resp.status.None?
    ensures var out := Run(Wrapped(mux), col, r, s).0;
      && out.resp.status == Some(StatusInternalServerError)
      && |out.logs| == |s.logs| + 1
      && out.logs[|s.logs|].os == col.parseOS(r.userAgent)
      && out.logs[|s.logs|].path == r.path
  {
    var r' := WithOS(r, col.parseOS(r.userAgent));
    var inner := Run(Recovery(mux), col, r', s);
    assert inner == Recover(Run(mux, col, r', s));
    assert Run(Wrapped(mux), col, r, s) == LogAfter(s.now, r', inner);
    PipelineLogsOnce(mux, col, r, s);
  }

  /**
   * End to end on the real route table: a fresh request to /do-panic gets
   * 500, a plain-text Content-Type and the body "Internal Server Error"; the
   * panic is logged once and one record with the elapsed latency is emitted.
   */
  lemma DoPanicEndToEnd(user: string, password: string, routes: map<string, Handler>,
                        col: Collaborators, r: Request, s: State)
    requires IsRouteTable(routes, user, password) && r.path == "/do-panic"
    requires s.resp == Response(map[], None, "", false)
    ensures var (out, o) := Run(Wrapped(Mux(routes)), col, r, s);
      && o == Returned
      && out.resp == Response(map[ContentType := PlainText], Some(StatusInternalServerError), InternalServerError, false)
      && out.messages == s.messages + [PanicMsg(PanicValue)]
      && out.logs == s.logs + [LogData(s.now, Microseconds(out.now - s.now), "/do-panic", col.parseOS(r.userAgent))]
      && out.logs[|s.logs|].latency >= 0
  {
    var r' := WithOS(r, col.parseOS(r.userAgent));
    DoPanicRecovered(routes, user, password, col, r', s);
    var inner := Run(Recovery(Mux(routes)), col, r', s);
    assert Run(Wrapped(Mux(routes)), col, r, s) == LogAfter(s.now, r', inner);
    assert OSOf(r'.ctx) == col.parseOS(r.userAgent);
  }

  /** Under Recovery, /do-panic on an untouched response becomes the plain-text 500. */
  lemma DoPanicRecovered(routes: map<string, Handler>, user: string, password: string,
                         col: Collaborators, r: Request, s: State)
    requires IsRouteTable(routes, user, password) && r.path == "/do-panic"
    requires s.resp == Response(map[], None, "", false)
    ensures Run(Recovery(Mux(routes)), col, r, s) ==
      (s.(resp := Response(map[ContentType := PlainText], Some(StatusInternalServerError), InternalServerError, false),
          messages := s.messages + [PanicMsg(PanicValue)]), Returned)
  {
    DoPanicPanics(routes, user, password, col, r, s);
    assert Run(Recovery(Mux(routes)), col, r, s) == Recover((s, Panicking(PanicValue)));
    RecoverOnFreshResponse(s, PanicValue);
  }

  /** Recovery on a response nothing was written to yet. */
  lemma RecoverOnFreshResponse(s: State, v: string)
    requires s.resp == Response(map[], None, "", false)
    ensures Recover((s, Panicking(v))) ==
      (s.(resp := Response(map[ContentType := PlainText], Some(StatusInternalServerError), InternalServerError, false),
          messages := s.messages + [PanicMsg(v)]), Returned)
  {
    assert HeaderGet(s.resp, ContentType) == "";
    var w2 := StatusSet(HeaderSet(s.resp, ContentType, PlainText), StatusInternalServerError);
    assert w2 == Response(map[ContentType := PlainText], Some(StatusInternalServerError), "", false);
    assert w2.body + InternalServerError == InternalServerError;
    assert BodyWrite(w2, InternalServerError) ==
      (Response(map[ContentType := PlainText], Some(StatusInternalServerError), InternalServerError, false), true);
  }

  /**
   * Behind the wrapped handler /test-os always finds the OS: it echoes the
   * User-Agent and the parser's result, never the 500 reply.
   */
  lemma TestOSEndToEnd(user: string, password: string, routes: map<string, Handler>,
                       col: Collaborators, r: Request, s: State)
    requires IsRouteTable(routes, user, password) && r.path == "/test-os"
    ensures var out := Run(Wrapped(Mux(routes)), col, r, s).0;
      out.resp == BodyWrite(s.resp, EchoLine(r.userAgent, col.parseOS(r.userAgent))).0
  {
    var r' := WithOS(r, col.parseOS(r.userAgent));
    assert Run(Mux(routes), col, r', s) == Run(TestOS, col, r', s);
    var inner := Run(Recovery(Mux(routes)), col, r', s);
    assert inner == Recover(Run(Mux(routes), col, r', s));
    assert Run(Wrapped(Mux(routes)), col, r, s) == LogAfter(s.now, r', inner);
  }

  /**
   * Why Recovery sits inside LoggingMiddleware: with the order swapped, a
   * request whose handler panics leaves no log record ...
   */
  lemma SwappedOrderLosesRecord(col: Collaborators, r: Request, s: State)
    ensures Run(Recovery(Logging(PanicHandler)), col, r, s).0.logs == s.logs
  {
    var panicked := (s, Panicking(PanicValue));
    assert Run(Logging(PanicHandler), col, r, s) == panicked;
    assert Run(Recovery(Logging(PanicHandler)), col, r, s) == Recover(panicked);
  }

  /**
   * ... while in the order main.go uses, every request under a log-free
   * handler is logged once, whether or not that handler panics.
   */
  lemma ComposedOrderKeepsRecord(h: Handler, col: Collaborators, r: Request, s: State)
    requires LogFree(h)
    ensures var out := Run(Logging(Recovery(h)), col, r, s).0;
      && out.logs == s.logs + [LogData(s.now, Microseconds(out.now - s.now), r.path,
                                 if OSContextKey in r.ctx then r.ctx[OSContextKey] else UnknownOS)]
      && out.logs[|s.logs|].latency >= 0
  {
    var inner := Run(h, col, r, s);
    var recovered := Run(Recovery(h), col, r, s);
    assert recovered.1 == Returned && recovered.0.logs == s.logs && recovered.0.now == inner.0.now by {
      LogFreeKeepsLogs(h, col, r, s);
      assert recovered == Recover(inner);
    }
    var rec := LogData(s.now, Microseconds(recovered.0.now - s.now), r.path, OSOf(r.ctx));
    assert Run(Logging(Recovery(h)), col, r, s).0.logs == s.logs + [rec] by {
      assert Run(Logging(Recovery(h)), col, r, s) == LogAfter(s.now, r, recovered);
    }
  }
}

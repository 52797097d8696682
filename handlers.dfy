/**
 * Handlers and how a request runs through them. A `Handler` value is what
 * the source builds by nesting decorators around endpoint handlers; `Run`
 * is the meaning of its ServeHTTP, and the `Serve` methods carry it out on a
 * mutable ResponseWriter and the process environment (the log and the clock).
 */
module Handlers {
  import opened Wrappers
  import opened Http
  import opened Middleware
  import opened Endpoints

  datatype Handler =
    | Recovery(inner: Handler)                                          // middleware.Recovery
    | AddOSContext(inner: Handler)                                      // middleware.AddOSContext
    | Logging(inner: Handler)                                           // middleware.LoggingMiddleware
    | BasicAuth(validUser: string, validPassword: string, inner: Handler)  // middleware.BasicAuth
    | PanicHandler                                                      // middleware.PanicHandler
    | TestOS                                                            // the /test-os closure
    | Healthz                                                           // handler.HealthzHandler
    | TodoHandler                                                       // handler.TODOHandler
    | Mux(routes: map<string, Handler>)                                 // *http.ServeMux

  /** What a handler outside the model did: its response, the time it took, a panic if any. */
  datatype LeafResult = LeafResult(resp: Response, elapsed: nat, panicked: Option<string>)

  /**
   * Code the core calls but that is not part of this model: the User-Agent
   * parser (useragent.Parse(ua).OS) and the TODO resource handler.
   */
  datatype Collaborators = Collaborators(parseOS: string -> string, todo: (Request, Response) -> LeafResult)

  const NotFoundPage := "404 page not found"

  /** The meaning of h.ServeHTTP(w, r) started in state s. */
  function Run(h: Handler, col: Collaborators, r: Request, s: State): (res: (State, Outcome))
    ensures res.0.now >= s.now
    ensures res.0.resp.broken == s.resp.broken
    decreases h
  {
    match h
    case Recovery(inner) => Recover(Run(inner, col, r, s))
    case AddOSContext(inner) => Run(inner, col, WithOS(r, col.parseOS(r.userAgent)), s)
    case Logging(inner) => LogAfter(s.now, r, Run(inner, col, r, s))
    case BasicAuth(user, password, inner) =>
      if Authorized(r.basicAuth, user, password) then Run(inner, col, r, s)
      else (s.(resp := Challenge(s.resp)), Returned)
    case PanicHandler => (s, Panicking(PanicValue))
    case TestOS => (s.(resp := TestOSReply(r, s.resp)), Returned)
    case Healthz => (s.(resp := HealthzReply(s.resp), now := s.now + HealthzDelay), Returned)
    case TodoHandler =>
      var out := col.todo(r, s.resp);
      (s.(resp := out.resp.(broken := s.resp.broken), now := s.now + out.elapsed),
       if out.panicked.Some? then Panicking(out.panicked.value) else Returned)
    case Mux(routes) =>
      if r.path in routes then Run(routes[r.path], col, r, s)
      else (s.(resp := ErrorReply(s.resp, NotFoundPage, StatusNotFound)), Returned)
  }

  /** No LoggingMiddleware anywhere inside h. */
  predicate LogFree(h: Handler)
  {
    match h
    case Recovery(inner) => LogFree(inner)
    case AddOSContext(inner) => LogFree(inner)
    case Logging(_) => false
    case BasicAuth(_, _, inner) => LogFree(inner)
    case Mux(routes) => forall p | p in routes :: LogFree(routes[p])
    case _ => true
  }

  /** A handler with no LoggingMiddleware inside emits no request-log record. */
  lemma {:induction false} LogFreeKeepsLogs(h: Handler, col: Collaborators, r: Request, s: State)
    requires LogFree(h)
    ensures Run(h, col, r, s).0.logs == s.logs
  {
    match h
    case Recovery(inner) => LogFreeKeepsLogs(inner, col, r, s);
    case AddOSContext(inner) => LogFreeKeepsLogs(inner, col, WithOS(r, col.parseOS(r.userAgent)), s);
    case Logging(_) =>
    case BasicAuth(user, password, inner) =>
      if Authorized(r.basicAuth, user, password) {
        LogFreeKeepsLogs(inner, col, r, s);
      }
    case Mux(routes) =>
      if r.path in routes {
        LogFreeKeepsLogs(routes[r.path], col, r, s);
      }
    case _ =>
  }

  /**
   * BasicAuth runs the inner handler exactly when the extracted credentials are
   * the configured pair; otherwise the response is the 401 challenge.
   */
  lemma BasicAuthGate(user: string, password: string, inner: Handler, col: Collaborators, r: Request, s: State)
    ensures Run(BasicAuth(user, password, inner), col, r, s) ==
      if r.basicAuth == Some(Credentials(user, password)) then Run(inner, col, r, s)
      else (s.(resp := Challenge(s.resp)), Returned)
  {
    AuthorizedIff(r.basicAuth, user, password);
  }

  /** A rejected request never reaches the inner handler: which handler it is makes no difference. */
  lemma BasicAuthRejectionIgnoresInner(user: string, password: string, inner: Handler, other: Handler,
                                       col: Collaborators, r: Request, s: State)
    requires r.basicAuth != Some(Credentials(user, password))
    ensures Run(BasicAuth(user, password, inner), col, r, s) == Run(BasicAuth(user, password, other), col, r, s)
  {
    BasicAuthGate(user, password, inner, col, r, s);
    BasicAuthGate(user, password, other, col, r, s);
  }

  // ---------------------------------------------------------------------------
  // The imperative form

  /** The process-wide log sink and clock. */
  class Env {
    var logs: seq<LogData>
    var messages: seq<Message>
    var now: int

    constructor (now: int)
      ensures logs == [] && messages == [] && this.now == now
    {
      logs := [];
      messages := [];
      this.now := now;
    }
  }

  function Snapshot(w: ResponseWriter, env: Env): (s: State)
    reads w, env
  {
    State(w.Value(), env.logs, env.messages, env.now)
  }

  /** h.ServeHTTP(w, r) */
  method Serve(h: Handler, col: Collaborators, r: Request, w: ResponseWriter, env: Env) returns (o: Outcome)
    modifies w, env
    ensures (Snapshot(w, env), o) == Run(h, col, r, old(Snapshot(w, env)))
    decreases h, 1
  {
    match h
    case Recovery(inner) => o := ServeRecovery(inner, col, r, w, env);
    case AddOSContext(inner) => o := ServeAddOSContext(inner, col, r, w, env);
    case Logging(inner) => o := ServeLogging(inner, col, r, w, env);
    case BasicAuth(user, password, inner) => o := ServeBasicAuth(user, password, inner, col, r, w, env);
    case PanicHandler => o := Panicking(PanicValue);
    case TestOS => ServeTestOS(r, w);  o := Returned;
    case Healthz => ServeHealthz(w, env);  o := Returned;
    case TodoHandler =>
      var out := col.todo(r, w.Value());
      w.Assign(out.resp.(broken := w.broken));
      env.now := env.now + out.elapsed;
      o := if out.panicked.Some? then Panicking(out.panicked.value) else Returned;
    case Mux(routes) => o := Dispatch(routes, col, r, w, env);
  }

  /** The handler Recovery(inner) returns. */
  method ServeRecovery(inner: Handler, col: Collaborators, r: Request, w: ResponseWriter, env: Env) returns (o: Outcome)
    modifies w, env
    ensures (Snapshot(w, env), o) == Run(Recovery(inner), col, r, old(Snapshot(w, env)))
    decreases inner, 2
  {
    var p := Serve(inner, col, r, w, env);
    if p.Panicking? {
      env.messages := env.messages + [PanicMsg(p.value)];
      var contentType := w.Get(ContentType);
      if contentType == "" {
        w.Set(ContentType, PlainText);
      }
      w.WriteHeader(StatusInternalServerError);
      var ok := w.Write(InternalServerError);
      if !ok {
        env.messages := env.messages + [WriteErrorMsg];
      }
    }
    o := Returned;
  }

  /** The handler AddOSContext(inner) returns. */
  method ServeAddOSContext(inner: Handler, col: Collaborators, r: Request, w: ResponseWriter, env: Env) returns (o: Outcome)
    modifies w, env
    ensures (Snapshot(w, env), o) == Run(AddOSContext(inner), col, r, old(Snapshot(w, env)))
    decreases inner, 2
  {
    var os := col.parseOS(r.userAgent);
    o := Serve(inner, col, WithOS(r, os), w, env);
  }

  /** The handler LoggingMiddleware(inner) returns: time, call, time, record. */
  method ServeLogging(inner: Handler, col: Collaborators, r: Request, w: ResponseWriter, env: Env) returns (o: Outcome)
    modifies w, env
    ensures (Snapshot(w, env), o) == Run(Logging(inner), col, r, old(Snapshot(w, env)))
    decreases inner, 2
  {
    var startTime := env.now;
    o := Serve(inner, col, r, w, env);
    if o.Panicking? {
      return;
    }
    var endTime := env.now;
    var latency := Microseconds(endTime - startTime);
    var os := OSOf(r.ctx);
    env.logs := env.logs + [LogData(startTime, latency, r.path, os)];
  }

  /** The handler BasicAuth(user, password, inner) returns. */
  method ServeBasicAuth(user: string, password: string, inner: Handler, col: Collaborators, r: Request,
                        w: ResponseWriter, env: Env) returns (o: Outcome)
    modifies w, env
    ensures (Snapshot(w, env), o) == Run(BasicAuth(user, password, inner), col, r, old(Snapshot(w, env)))
    decreases inner, 2
  {
    if !Authorized(r.basicAuth, user, password) {
      w.Set(WWWAuthenticate, BasicRealm);
      w.Error(Unauthorized, StatusUnauthorized);
      return Returned;
    }
    o := Serve(inner, col, r, w, env);
  }

  method ServeTestOS(r: Request, w: ResponseWriter)
    modifies w
    ensures w.Value() == TestOSReply(r, old(w.Value()))
  {
    if OSContextKey !in r.ctx {
      w.Error(OSNotFound, StatusInternalServerError);
      return;
    }
    var _ := w.Write(EchoLine(r.userAgent, r.ctx[OSContextKey]));
  }

  method ServeHealthz(w: ResponseWriter, env: Env)
    modifies w, env
    ensures w.Value() == HealthzReply(old(w.Value()))
    ensures env.now == old(env.now) + HealthzDelay
    ensures env.logs == old(env.logs) && env.messages == old(env.messages)
  {
    env.now := env.now + HealthzDelay;
    var _ := w.Write(HealthzPayload);
  }

  /** ServeMux.ServeHTTP: the handler registered for exactly this path, else 404. */
  method Dispatch(routes: map<string, Handler>, col: Collaborators, r: Request, w: ResponseWriter, env: Env)
    returns (o: Outcome)
    modifies w, env
    ensures (Snapshot(w, env), o) == Run(Mux(routes), col, r, old(Snapshot(w, env)))
    decreases Mux(routes), 0
  {
    if r.path in routes {
      o := Serve(routes[r.path], col, r, w, env);
    } else {
      w.Error(NotFoundPage, StatusNotFound);
      o := Returned;
    }
  }
}

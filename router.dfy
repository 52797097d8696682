/**
 * The router package: NewRouter fills a ServeMux with the four endpoints and
 * puts BasicAuth in front of /todos only.
 */
module Router {
  import opened Wrappers
  import opened Http
  import opened Middleware
  import opened Endpoints
  import opened Handlers

  /** http.ServeMux as NewRouter uses it: a table from exact paths to handlers. */
  class ServeMux {
    var routes: map<string, Handler>

    constructor ()
      ensures routes == map[]
    {
      routes := map[];
    }

    /** Handle / HandleFunc: registering an empty or an already registered pattern panics. */
    method Handle(pattern: string, h: Handler)
      requires pattern != "" && pattern !in routes
      modifies this
      ensures routes == old(routes)[pattern := h]
    {
      routes := routes[pattern := h];
    }

    function AsHandler(): (h: Handler)
      reads this
    {
      Mux(routes)
    }
  }

  /** The table NewRouter builds, with the Basic credentials it was given. */
  predicate IsRouteTable(routes: map<string, Handler>, user: string, password: string)
  {
    && routes.Keys == {"/healthz", "/todos", "/do-panic", "/test-os"}
    && routes["/healthz"] == Healthz
    && routes["/todos"] == BasicAuth(user, password, TodoHandler)
    && routes["/do-panic"] == PanicHandler
    && routes["/test-os"] == TestOS
  }

  /**
   * NewRouter; the two BASIC_AUTH_* environment values are its parameters.
   * The TODO handler's service and database are outside the model.
   */
  method NewRouter(basicAuthUserID: string, basicAuthPassword: string) returns (mux: ServeMux)
    ensures fresh(mux)
    ensures IsRouteTable(mux.routes, basicAuthUserID, basicAuthPassword)
  {
    mux := new ServeMux();
    mux.Handle("/healthz", Healthz);
    mux.Handle("/todos", BasicAuth(basicAuthUserID, basicAuthPassword, TodoHandler));
    mux.Handle("/do-panic", PanicHandler);
    mux.Handle("/test-os", TestOS);
  }

  // ---------------------------------------------------------------------------
  // What each path does

  /** Exactly four paths are registered and only /todos is wrapped in BasicAuth. */
  lemma OnlyTodosIsAuthenticated(routes: map<string, Handler>, user: string, password: string)
    requires IsRouteTable(routes, user, password)
    ensures |routes| == 4
    ensures forall p :: p in routes ==> (routes[p].BasicAuth? <==> p == "/todos")
  {
    assert routes.Keys == {"/healthz", "/todos", "/do-panic", "/test-os"};
  }

  /** /todos reaches the TODO handler exactly when the configured credentials are presented. */
  lemma TodosBehindBasicAuth(routes: map<string, Handler>, user: string, password: string,
                             col: Collaborators, r: Request, s: State)
    requires IsRouteTable(routes, user, password) && r.path == "/todos"
    ensures Run(Mux(routes), col, r, s) ==
      if r.basicAuth == Some(Credentials(user, password)) then Run(TodoHandler, col, r, s)
      else (s.(resp := Challenge(s.resp)), Returned)
  {
    AuthorizedIff(r.basicAuth, user, password);
  }

  /**
   * A rejected /todos request never runs the TODO handler: whatever that
   * handler would do, the outcome is the same.
   */
  lemma RejectedTodosIgnoresHandler(routes: map<string, Handler>, user: string, password: string,
                                    col: Collaborators, other: (Request, Response) -> LeafResult,
                                    r: Request, s: State)
    requires IsRouteTable(routes, user, password) && r.path == "/todos"
    requires r.basicAuth != Some(Credentials(user, password))
    ensures Run(Mux(routes), col, r, s) == Run(Mux(routes), col.(todo := other), r, s)
  {
    TodosBehindBasicAuth(routes, user, password, col, r, s);
    TodosBehindBasicAuth(routes, user, password, col.(todo := other), r, s);
  }

  /** /healthz is served directly, whatever credentials the request carries. */
  lemma HealthzIsOpen(routes: map<string, Handler>, user: string, password: string,
                      col: Collaborators, r: Request, s: State)
    requires IsRouteTable(routes, user, password) && r.path == "/healthz"
    ensures Run(Mux(routes), col, r, s) ==
      (s.(resp := HealthzReply(s.resp), now := s.now + HealthzDelay), Returned)
  {
  }

  /** /do-panic always panics with "Panic!" and touches nothing first. */
  lemma DoPanicPanics(routes: map<string, Handler>, user: string, password: string,
                      col: Collaborators, r: Request, s: State)
    requires IsRouteTable(routes, user, password) && r.path == "/do-panic"
    ensures Run(Mux(routes), col, r, s) == (s, Panicking(PanicValue))
  {
  }

  /**
   * Without a value under middleware.OSContextKey, /test-os answers 500 with
   * the fixed message, even when the router's own key is set.
   */
  lemma TestOSWithoutOS(routes: map<string, Handler>, user: string, password: string,
                        col: Collaborators, r: Request, s: State)
    requires IsRouteTable(routes, user, password) && r.path == "/test-os"
    requires OSContextKey !in r.ctx
    ensures var (s', o) := Run(Mux(routes), col, r, s);
      && o == Returned
      && s' == s.(resp := ErrorReply(s.resp, OSNotFound, StatusInternalServerError))
      && (s.resp.status.None? ==> s'.resp.status == Some(StatusInternalServerError))
  {
  }

  /** With an OS value, /test-os writes exactly the echo line. */
  lemma TestOSWithOS(routes: map<string, Handler>, user: string, password: string,
                     col: Collaborators, r: Request, s: State)
    requires IsRouteTable(routes, user, password) && r.path == "/test-os"
    requires OSContextKey in r.ctx && !s.resp.broken
    ensures var (s', o) := Run(Mux(routes), col, r, s);
      && o == Returned
      && s'.resp.body == s.resp.body + "User-Agent: " + r.userAgent + "\nDetected OS: " + r.ctx[OSContextKey]
  {
  }

  /** Any other path gets the mux's 404 reply. */
  lemma OtherPathsNotFound(routes: map<string, Handler>, user: string, password: string,
                           col: Collaborators, r: Request, s: State)
    requires IsRouteTable(routes, user, password)
    requires r.path !in {"/healthz", "/todos", "/do-panic", "/test-os"}
    ensures Run(Mux(routes), col, r, s) == (s.(resp := ErrorReply(s.resp, NotFoundPage, StatusNotFound)), Returned)
  {
  }

  /** The router itself emits no request-log record. */
  lemma RouterIsLogFree(routes: map<string, Handler>, user: string, password: string)
    requires IsRouteTable(routes, user, password)
    ensures LogFree(Mux(routes))
  {
  }
}

/**
 * The middleware package: what each decorator does around the handler it
 * wraps, as functions on the observable state of one request (the response,
 * the process log and the clock). How a decorator reaches its inner handler
 * is in module Handlers.
 */
module Middleware {
  import opened Wrappers
  import opened Http

  /** One request-log record (LogData); timestamp in nanoseconds, latency in microseconds. */
  datatype LogData = LogData(timestamp: int, latency: int, path: string, os: string)

  /** The lines Recovery writes with log.Printf. */
  datatype Message = PanicMsg(value: string) | WriteErrorMsg

  /**
   * What a running handler can observe and change: the response being written,
   * the request-log records and log lines emitted so far, and the clock (ns).
   */
  datatype State = State(resp: Response, logs: seq<LogData>, messages: seq<Message>, now: int)

  /** How a handler's ServeHTTP ended: it returned, or a panic with this value is unwinding. */
  datatype Outcome = Returned | Panicking(value: string)

  const InternalServerError := "Internal Server Error"
  const PanicValue := "Panic!"
  const UnknownOS := "unknown OS"
  const WWWAuthenticate := "WWW-Authenticate"
  const BasicRealm := "Basic realm=\"Restricted\""
  const Unauthorized := "Unauthorized"

  // ---------------------------------------------------------------------------
  // Recovery

  /**
   * The deferred recover block of Recovery, applied to the state and outcome
   * the inner handler left: a panic is logged and answered with 500 and a
   * fixed body; a failed body write is only logged; Recovery always returns.
   */
  function Recover(res: (State, Outcome)): (out: (State, Outcome))
    ensures out.1 == Returned
    ensures res.1.Returned? ==> out == res
    ensures res.1.Panicking? ==>
      var (s, w, o) := (res.0, res.0.resp, out.0);
      && o.logs == s.logs && o.now == s.now
      && o.messages == s.messages + [PanicMsg(res.1.value)] + (if w.broken then [WriteErrorMsg] else [])
      && o.resp.status == (if w.status.None? then Some(StatusInternalServerError) else w.status)
      && o.resp.body == (if w.broken then w.body else w.body + InternalServerError)
      && HeaderGet(o.resp, ContentType) == (if HeaderGet(w, ContentType) == "" then PlainText else HeaderGet(w, ContentType))
      && o.resp.header - {ContentType} == w.header - {ContentType}
      && o.resp.broken == w.broken
  {
    match res.1
    case Returned => res
    case Panicking(v) =>
      var s := res.0.(messages := res.0.messages + [PanicMsg(v)]);
      var w1 := if HeaderGet(s.resp, ContentType) == "" then HeaderSet(s.resp, ContentType, PlainText) else s.resp;
      var w2 := StatusSet(w1, StatusInternalServerError);
      var (w3, ok) := BodyWrite(w2, InternalServerError);
      (s.(resp := w3, messages := if ok then s.messages else s.messages + [WriteErrorMsg]), Returned)
  }

  // ---------------------------------------------------------------------------
  // AddOSContext

  /** context.WithValue(r.Context(), OSContextKey, os), attached to the same request. */
  function WithOS(r: Request, os: string): (r': Request)
    ensures r'.path == r.path && r'.userAgent == r.userAgent && r'.basicAuth == r.basicAuth
    ensures OSContextKey in r'.ctx && r'.ctx[OSContextKey] == os
    ensures r'.ctx.Keys == r.ctx.Keys + {OSContextKey}
    ensures forall k :: k in r.ctx && k != OSContextKey ==> r'.ctx[k] == r.ctx[k]
  {
    r.(ctx := r.ctx[OSContextKey := os])
  }

  // ---------------------------------------------------------------------------
  // LoggingMiddleware

  /**
   * time.Duration.Microseconds: the elapsed nanoseconds in whole microseconds,
   * truncated toward zero.
   */
  function Microseconds(nanos: int): (micros: int)
    ensures nanos >= 0 ==> 0 <= micros && micros * 1000 <= nanos < (micros + 1) * 1000
    ensures nanos < 0 ==> micros <= 0 && -micros * 1000 <= -nanos < (-micros + 1) * 1000
  {
    if nanos >= 0 then nanos / 1000 else -((-nanos) / 1000)
  }

  /** The OS value stored in the context, or the "unknown OS" sentinel. */
  function OSOf(ctx: map<ContextKey, string>): (os: string)
  {
    if OSContextKey in ctx then ctx[OSContextKey] else UnknownOS
  }

  /**
   * What LoggingMiddleware does once the inner handler is done: a panic
   * passes through with no record; a return appends exactly one record (the
   * start time, the elapsed time in microseconds, the URL path and the OS, or
   * "unknown OS" when the context has none) and changes nothing else.
   */
  function LogAfter(start: int, r: Request, res: (State, Outcome)): (out: (State, Outcome))
    ensures res.1.Panicking? ==> out == res
    ensures res.1.Returned? ==>
      var (s, o) := (res.0, out.0);
      && out.1 == Returned
      && o.resp == s.resp && o.messages == s.messages && o.now == s.now
      && |o.logs| == |s.logs| + 1
      && o.logs[..|s.logs|] == s.logs
      && var rec := o.logs[|s.logs|];
      && rec.timestamp == start
      && rec.path == r.path
      && rec.os == (if OSContextKey in r.ctx then r.ctx[OSContextKey] else UnknownOS)
      && (s.now >= start ==> 0 <= rec.latency && rec.latency * 1000 <= s.now - start < (rec.latency + 1) * 1000)
  {
    if res.1.Panicking? then res
    else
      var latency := Microseconds(res.0.now - start);
      var record := LogData(start, latency, r.path, OSOf(r.ctx));
      (res.0.(logs := res.0.logs + [record]), Returned)
  }

  // ---------------------------------------------------------------------------
  // BasicAuth

  /** The credential check: extraction succeeded and both fields match. */
  predicate Authorized(creds: Option<Credentials>, validUser: string, validPassword: string)
  {
    !(creds.None? || creds.value.user != validUser || creds.value.password != validPassword)
  }

  lemma AuthorizedIff(creds: Option<Credentials>, validUser: string, validPassword: string)
    ensures Authorized(creds, validUser, validPassword) <==> creds == Some(Credentials(validUser, validPassword))
  {
  }

  /** The header keys the challenge writes or deletes. */
  const ChallengeKeys := {WWWAuthenticate} + ErrorReplyKeys

  /** The 401 challenge: WWW-Authenticate naming the realm, then http.Error with "Unauthorized". */
  function Challenge(w: Response): (r: Response)
    ensures HeaderGet(r, WWWAuthenticate) == BasicRealm
    ensures HeaderGet(r, ContentType) == PlainText
    ensures HeaderGet(r, "X-Content-Type-Options") == "nosniff"
    ensures "Content-Length" !in r.header
    ensures r.status == if w.status.None? then Some(StatusUnauthorized) else w.status
    ensures r.body == if w.broken then w.body else w.body + Unauthorized + "\n"
    ensures r.broken == w.broken
    ensures r.header - ChallengeKeys == w.header - ChallengeKeys
  {
    ErrorReply(HeaderSet(w, WWWAuthenticate, BasicRealm), Unauthorized, StatusUnauthorized)
  }
}

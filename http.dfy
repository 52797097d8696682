/**
 * The parts of net/http the core relies on: a request as the handlers see
 * it, the response a ResponseWriter accumulates, and the writer operations
 * (Header().Get/Set/Del, WriteHeader, Write, http.Error) both as functions on
 * a response value and as methods of a mutable ResponseWriter.
 */
module Http {
  import opened Wrappers

  /** Keys under which request-scoped values are stored in a request's context. */
  datatype ContextKey =
    | OSContextKey          // middleware.OSContextKey, the key AddOSContext writes
    | RouterOSContextKey    // router.OSContextKey ("os"): declared, never written or read

  datatype Credentials = Credentials(user: string, password: string)

  datatype Request = Request(
    path: string,                     // r.URL.Path
    userAgent: string,                // r.UserAgent(): the User-Agent header, "" when absent
    basicAuth: Option<Credentials>,   // r.BasicAuth(): None when it reports !ok
    ctx: map<ContextKey, string>)     // r.Context() values

  /**
   * What has been written to one response so far. `status` is None until
   * WriteHeader runs; `broken` says every body write to this response
   * fails: one flag standing for whatever makes net/http's Write return an
   * error.
   */
  datatype Response = Response(header: map<string, string>, status: Option<int>, body: string, broken: bool)

  const StatusOK := 200
  const StatusUnauthorized := 401
  const StatusNotFound := 404
  const StatusInternalServerError := 500

  const ContentType := "Content-Type"
  const PlainText := "text/plain; charset=utf-8"

  /** Header().Get: the value, or "" when the key is absent. */
  function HeaderGet(w: Response, key: string): (v: string)
  {
    if key in w.header then w.header[key] else ""
  }

  /** Header().Set */
  function HeaderSet(w: Response, key: string, value: string): (r: Response)
  {
    w.(header := w.header[key := value])
  }

  /** Header().Del */
  function HeaderDel(w: Response, key: string): (r: Response)
  {
    w.(header := w.header - {key})
  }

  /** WriteHeader: only the first call sets the status. */
  function StatusSet(w: Response, code: int): (r: Response)
    ensures r.status == if w.status.None? then Some(code) else w.status
    ensures r.header == w.header && r.body == w.body && r.broken == w.broken
  {
    if w.status.None? then w.(status := Some(code)) else w
  }

  /**
   * Write: sends a 200 status first if none was sent, then appends `data`
   * unless the connection is broken; the flag says whether the write succeeded.
   */
  function BodyWrite(w: Response, data: string): (r: (Response, bool))
    ensures r.1 == !w.broken
    ensures r.0.body == if w.broken then w.body else w.body + data
    ensures r.0.status == if w.status.None? then Some(StatusOK) else w.status
    ensures r.0.header == w.header && r.0.broken == w.broken
  {
    var w1 := StatusSet(w, StatusOK);
    if w.broken then (w1, false) else (w1.(body := w1.body + data), true)
  }

  /** The header keys http.Error writes or deletes. */
  const ErrorReplyKeys := {"Content-Length", ContentType, "X-Content-Type-Options"}

  /**
   * http.Error: drop Content-Length, plain-text Content-Type, nosniff, the
   * status, then the message and a newline (fmt.Fprintln).
   */
  function ErrorReply(w: Response, msg: string, code: int): (r: Response)
    ensures HeaderGet(r, ContentType) == PlainText
    ensures HeaderGet(r, "X-Content-Type-Options") == "nosniff"
    ensures "Content-Length" !in r.header
    ensures r.status == if w.status.None? then Some(code) else w.status
    ensures r.body == if w.broken then w.body else w.body + msg + "\n"
    ensures r.broken == w.broken
    ensures r.header - ErrorReplyKeys == w.header - ErrorReplyKeys
  {
    var w1 := HeaderDel(w, "Content-Length");
    var w2 := HeaderSet(w1, ContentType, PlainText);
    var w3 := HeaderSet(w2, "X-Content-Type-Options", "nosniff");
    var w4 := StatusSet(w3, code);
    BodyWrite(w4, msg + "\n").0
  }

  /** The http.ResponseWriter of one request. */
  class ResponseWriter {
    var header: map<string, string>
    var status: Option<int>
    var body: string
    const broken: bool

    function Value(): (v: Response)
      reads this
    {
      Response(header, status, body, broken)
    }

    constructor (broken: bool)
      ensures Value() == Response(map[], None, "", broken)
    {
      header := map[];
      status := None;
      body := "";
      this.broken := broken;
    }

    method Get(key: string) returns (v: string)
      ensures v == HeaderGet(Value(), key)
    {
      v := if key in header then header[key] else "";
    }

    method Set(key: string, value: string)
      modifies this
      ensures Value() == HeaderSet(old(Value()), key, value)
    {
      header := header[key := value];
    }

    method Del(key: string)
      modifies this
      ensures Value() == HeaderDel(old(Value()), key)
    {
      header := header - {key};
    }

    method WriteHeader(code: int)
      modifies this
      ensures Value() == StatusSet(old(Value()), code)
    {
      if status.None? {
        status := Some(code);
      }
    }

    method Write(data: string) returns (ok: bool)
      modifies this
      ensures (Value(), ok) == BodyWrite(old(Value()), data)
    {
      WriteHeader(StatusOK);
      ok := !broken;
      if ok {
        body := body + data;
      }
    }

    /** http.Error(w, msg, code) */
    method Error(msg: string, code: int)
      modifies this
      ensures Value() == ErrorReply(old(Value()), msg, code)
    {
      Del("Content-Length");
      Set(ContentType, PlainText);
      Set("X-Content-Type-Options", "nosniff");
      WriteHeader(code);
      var _ := Write(msg + "\n");
    }

    /** Whatever a handler outside the model leaves in the writer. */
    method Assign(v: Response)
      requires v.broken == broken
      modifies this
      ensures Value() == v
    {
      header, status, body := v.header, v.status, v.body;
    }
  }
}

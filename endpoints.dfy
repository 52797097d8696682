/**
 * The bodies of the two endpoint handlers the router builds itself: the
 * /test-os closure and HealthzHandler.
 */
module Endpoints {
  import opened Wrappers
  import opened Http

  const OSNotFound := "OS information not found in context"

  /** The /test-os reply line: "User-Agent: <ua>\nDetected OS: <os>". */
  function EchoLine(userAgent: string, os: string): (line: string)
  {
    "User-Agent: " + userAgent + "\nDetected OS: " + os
  }

  /**
   * The /test-os handler: 500 with a fixed message when the context holds no
   * value under middleware.OSContextKey, otherwise an echo of the User-Agent
   * header and that value.
   */
  function TestOSReply(r: Request, w: Response): (w': Response)
    ensures OSContextKey !in r.ctx ==> w' == ErrorReply(w, OSNotFound, StatusInternalServerError)
    ensures OSContextKey in r.ctx ==>
      && w'.body == (if w.broken then w.body else w.body + EchoLine(r.userAgent, r.ctx[OSContextKey]))
      && w'.status == (if w.status.None? then Some(StatusOK) else w.status)
      && w'.header == w.header
    ensures w'.broken == w.broken
  {
    if OSContextKey !in r.ctx then ErrorReply(w, OSNotFound, StatusInternalServerError)
    else BodyWrite(w, EchoLine(r.userAgent, r.ctx[OSContextKey])).0
  }

  /** HealthzHandler sleeps five seconds (in ns) before answering. */
  const HealthzDelay := 5_000_000_000

  /** The JSON encoder's output for HealthzResponse{Message: "OK"}, newline included. */
  const HealthzPayload := "{\"message\":\"OK\"}\n"

  function HealthzReply(w: Response): (w': Response)
    ensures w'.body == if w.broken then w.body else w.body + HealthzPayload
    ensures w'.status == if w.status.None? then Some(StatusOK) else w.status
    ensures w'.header == w.header && w'.broken == w.broken
  {
    BodyWrite(w, HealthzPayload).0
  }
}

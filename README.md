# go-stations core in Dafny

This is a model of the request-handling core of the go-stations TODO server.

- **The TODO service** (`service/todo.go`) keeps a `todos` table in an in-memory store.
  - The store is the class `TodoService.DB`. Its rows are kept newest first, so `ORDER BY id DESC` is simply the order of the sequence.
  - The four operations are methods of `TodoService.TODOService`: create, keyset-paginated read, update and bulk delete.
  - Each operation takes a `Fault` parameter. It names the driver call (`ExecContext`, `LastInsertId`/`RowsAffected`, `QueryContext`, `Scan`, `rows.Err`) that fails during that call, if any.
- **The middleware** (`handler/middleware/recovery.go`) is modelled in two layers.
  - A pure layer. `Handlers.Run` gives the meaning of a handler. Handlers are built from the decorators `Recovery`, `AddOSContext`, `LoggingMiddleware` and `BasicAuth`, and the endpoint handlers sit under them.
  - An imperative layer. The `Handlers.Serve*` methods update a mutable `Http.ResponseWriter` and an `Handlers.Env`, which holds the log sink and the clock. Each method is proved to match `Run`.
  - Panics are represented explicitly as `Outcome.Panicking`.
- **The route table** (`handler/router/router.go`). `Router.NewRouter` fills an `http.ServeMux`, modelled as `Router.ServeMux`. The route lemmas state what each of the four paths does.
- **The composition** `AddOSContext(LoggingMiddleware(Recovery(mux)))` from `main.go` is `Pipeline.Wrapped`. The end-to-end guarantees are proved about it.

Parts of `net/http` that the core depends on are modelled in module `Http`:

- `Header().Get/Set/Del`;
- only the first `WriteHeader` takes effect;
- `Write` sends a 200 status first if none was set;
- `http.Error` deletes Content-Length, sets a plain-text Content-Type and `nosniff`, sets the status, and writes the message followed by a newline;
- `ServeMux` exact-path dispatch with its 404 reply.

Collaborators whose code is not part of this model are passed to `Run` as function values in `Handlers.Collaborators`:

- the User-Agent parser (`useragent.Parse(ua).OS`);
- the TODO resource handler, `handler/todo.go`, which is not part of this model.

The clock is an integer count of nanoseconds held in the state. It is an input, not a reading of the wall clock.

Where the source and its comments disagree, the model follows the code:

- The `LogData.Latency` field comment says milliseconds, but the code computes `Duration.Microseconds()`. The model uses microseconds (`Middleware.Microseconds`), truncating toward zero as Go does.
- `handler/router/router.go` declares its own `OSContextKey`, but nothing writes or reads it. The `/test-os` handler reads `middleware.OSContextKey`. The model keeps both keys (`Http.ContextKey`), and `Router.TestOSWithoutOS` shows that a value under the router's key alone still gets the 500 reply.

## Model

| member | source | states |
|---|---|---|
| TodoService.TODOService.CreateTODO | service/todo.go:25-51 | If the insert fails, the table and the id counter are unchanged and the error is returned. Otherwise exactly one record is added: the given subject and description under the next store-assigned id, at the front of the table. A failure while reading the id or the row back gives that error, and otherwise the inserted record is returned. The table stays well formed. |
| TodoService.TODOService.ReadTODO | service/todo.go:54-107 | Changes nothing. If size is 0, the result is an empty list whatever the driver would do, so the answer does not depend on the store. A query error, a scan error on a row that exists, or a `rows.Err` error is passed through. Otherwise the result is exactly `Select(rows, CursorOf(prevID), size)`. |
| TodoService.TODOService.UpdateTODO | service/todo.go:110-147 | If id is 0, returns NotFound and touches nothing. If the UPDATE fails, the table is unchanged. Otherwise the table becomes `Updated(rows, id, ...)`. A stored id returns `Todo(id, subject, description, old createdAt, now)`, or the read-back error. A missing id returns NotFound. The table stays well formed. |
| TodoService.TODOService.DeleteTODO | service/todo.go:150-180 | An empty id list returns nil and leaves the table unchanged. If the DELETE fails, the table is unchanged. Otherwise exactly the records whose id is listed are removed. The result is `NotFound("TODO")` exactly when nothing was removed, so a partial match is a success. The driver's placeholder/argument check never fires. The table stays well formed. |
| TodoService.Lookup | service/todo.go:28 | The row returned has the requested id and is in the table. None means no row has that id. |
| TodoService.CursorOf | service/todo.go:68-72 | Definition of the WHERE clause: a positive prevID gives `id < prevID`, any other prevID gives the unfiltered query. Its properties are stated by `MatchingAllAdmitted`, `MatchingBelowRow`, `NextCursorIsRest` and `Continuation`. |
| TodoService.Limit | service/todo.go:56-57 | Definition of `LIMIT ?`: the first `size` rows, or all of them when `size` is negative. Its properties are stated by `LimitSplit` and `SelectLength`. |
| TodoService.Select | service/todo.go:56-57 | Definition of the page query: the rows the cursor admits, newest first, then LIMIT. Its properties are stated by `SelectIsPage`, `SelectLength`, `SelectHasNoGap` and `Continuation`. |
| TodoService.Updated | service/todo.go:117-122 | Definition of the UPDATE statement on the table. Its properties are stated by `UpdatedKeepsIds`, `UpdatedOnlyTarget`, `UpdatedMissingIsIdentity` and `UpdatedLookup`. |
| TodoService.CountId | service/todo.go:128 | Definition of the UPDATE's RowsAffected: the number of rows with that id. Its property is stated by `CountIdIsLookup`. |
| TodoService.FormatDelete | service/todo.go:151-159 | Definition of `fmt.Sprintf(deleteFmt, placeholders)`. Its properties are stated by `FilledPlaceholders`, `DeleteQueryPlaceholders` and `DeleteQueryShape`. |
| TodoService.Matching | service/todo.go:56-57 | The rows the WHERE clause admits: every result is a row the cursor admits, and every such row is in the result. |
| TodoService.MatchingDescending | service/todo.go:56-57 | Filtering a descending table keeps it descending. |
| TodoService.MatchingAllAdmitted | service/todo.go:56 | Without a WHERE clause the whole table is selected. |
| TodoService.MatchingBelowRow | service/todo.go:57 | `id < d[k].id` selects exactly the rows after position k. |
| TodoService.MatchingNarrower | service/todo.go:57 | Filtering by a narrower bound after a wider cursor is the same as filtering by the narrower bound alone. |
| TodoService.SelectIsPage | service/todo.go:56-57 | A page is strictly descending and holds only records the cursor admits. |
| TodoService.SelectLength | service/todo.go:56-57 | A page's length is min(size, k), where k is the number of admitted records, and it is all k when size is negative. |
| TodoService.SelectHasNoGap | service/todo.go:56-57 | No admitted record at or above the page's lowest id is skipped. |
| TodoService.PrefixHasNoGap | service/todo.go:99-106 | A prefix of a descending sequence is descending and holds every element whose id is at or above one of its own ids. |
| TodoService.Continuation | service/todo.go:68-69 | After a full page, a second call with prevID set to the last id returned gives, appended to the first page, one page of the combined size. So there is no overlap and no gap. |
| TodoService.NextCursorIsRest | service/todo.go:68-69 | prevID set to the n-th admitted id selects exactly the admitted records after it. |
| TodoService.LimitSplit | service/todo.go:56-57 | `LIMIT n` followed by `LIMIT more` on the rest equals `LIMIT n+more`. A negative limit means no limit. |
| TodoService.ShortPageEnds | service/todo.go:99-106 | After a page shorter than size, the next page is empty. |
| TodoService.TenRowsExample | service/todo.go:68-72 | With ids 10 down to 1 and size 3, the first page is {10,9,8} and prevID 8 gives {7,6,5}. |
| TodoService.UpdatedKeepsIds | service/todo.go:117-122 | The UPDATE keeps the number of rows and every row's id. |
| TodoService.UpdatedOnlyTarget | service/todo.go:117-122 | Only the row with that id changes, and only its subject, description and updated_at. Every other row is unchanged. |
| TodoService.UpdatedMissingIsIdentity | service/todo.go:128-134 | An UPDATE that matches no row leaves the table unchanged. |
| TodoService.UpdatedLookup | service/todo.go:137-146 | Reading the row back after the UPDATE gives the new subject and description, the old created_at and the new updated_at. |
| TodoService.CountIdIsLookup | service/todo.go:128-134 | RowsAffected is 1 when the id is stored and 0 when it is not. |
| TodoService.Remove | service/todo.go:151 | A record survives the DELETE exactly when it was in the table and its id is not listed. |
| TodoService.RemoveKeepsWellFormed | service/todo.go:167 | The DELETE keeps the table descending with ids below the counter. |
| TodoService.RemoveNothingIff | service/todo.go:172-178 | Nothing is removed exactly when no stored id is in the list. |
| TodoService.Repeat | service/todo.go:158 | `strings.Repeat` has length n times the length of its input. |
| TodoService.CountPlaceholdersAppend | service/todo.go:159 | The `?` count of a concatenation is the sum of the counts of its parts. |
| TodoService.RepeatPlaceholders | service/todo.go:158 | `",?"` repeated n times has n placeholders. |
| TodoService.FilledPlaceholders | service/todo.go:151 | Filling the format's `%s` adds the fill's placeholders to the format's single `?`. |
| TodoService.DeleteQueryPlaceholders | service/todo.go:151-159 | For n ids the statement has exactly n `?`. |
| TodoService.DeleteQueryShape | service/todo.go:151-159 | The statement is `DELETE FROM todos WHERE id IN (` followed by n comma-separated `?` and then `)`. |
| TodoService.RepeatAt | service/todo.go:158 | Position 2i of the repeated string is `,` and position 2i+1 is `?`. |
| Middleware.Recover | handler/middleware/recovery.go:28-43 | Always returns normally, and a normal return passes through unchanged. After a panic: the panic is logged; status is 500 unless already set; the body gets "Internal Server Error"; Content-Type is set to plain text only if empty; other headers are kept. A failed write is only logged. |
| Middleware.WithOS | handler/middleware/recovery.go:54-61 | The same request, with the given OS under OSContextKey. Every other context value is kept. |
| Middleware.Microseconds | handler/middleware/recovery.go:69 | `Duration.Microseconds`: for a non-negative elapsed time, the whole number of microseconds in it (non-negative, at most the elapsed nanoseconds over 1000 and within one microsecond of it); a negative one is truncated toward zero. |
| Middleware.LogAfter | handler/middleware/recovery.go:64-89 | If the inner handler panicked, no record is written and the panic passes through. Otherwise exactly one record is appended after the earlier ones, and the response, the log lines and the clock are unchanged. The record carries the start time, the URL path, the context's OS value or "unknown OS" when the context has none, and, when the clock did not go back, the elapsed time in whole microseconds (non-negative). |
| Middleware.Authorized | handler/middleware/recovery.go:97 | Definition of the credential check: extraction succeeded and both fields match. Its meaning is stated by `AuthorizedIff`. |
| Middleware.AuthorizedIff | handler/middleware/recovery.go:96-97 | The check passes exactly when the extracted credentials equal the configured pair. |
| Middleware.Challenge | handler/middleware/recovery.go:97-101 | The rejection response, written by `http.Error` after the challenge header: `WWW-Authenticate: Basic realm="Restricted"`, a plain-text Content-Type, status 401 unless already set, `X-Content-Type-Options: nosniff`, no Content-Length, and body "Unauthorized" with a newline. Every header other than WWW-Authenticate, Content-Type, Content-Length and X-Content-Type-Options is kept. |
| Handlers.Run | handler/middleware/recovery.go:25-106 | Running any handler never moves the clock backwards and never changes whether the connection is broken. |
| Handlers.LogFreeKeepsLogs | handler/middleware/recovery.go:64-90 | A handler with no LoggingMiddleware inside emits no log record. |
| Handlers.BasicAuthGate | handler/middleware/recovery.go:93-105 | BasicAuth runs the inner handler with the valid credentials and gives the 401 challenge otherwise. |
| Handlers.BasicAuthRejectionIgnoresInner | handler/middleware/recovery.go:97-101 | A rejected request leads to the same result whatever the inner handler is, so the inner handler is never invoked. |
| Handlers.Serve | handler/middleware/recovery.go:25-106 | Serving on the mutable writer and environment leaves exactly the state, and gives exactly the outcome, that `Run` specifies. |
| Handlers.ServeRecovery | handler/middleware/recovery.go:25-48 | The deferred recover, run on the writer, agrees with `Run` for Recovery. |
| Handlers.ServeAddOSContext | handler/middleware/recovery.go:54-62 | Agrees with `Run` for AddOSContext. |
| Handlers.ServeLogging | handler/middleware/recovery.go:64-91 | The steps read the time, call the inner handler, read the time and append the record. Together they agree with `Run` for LoggingMiddleware. |
| Handlers.ServeBasicAuth | handler/middleware/recovery.go:93-106 | Agrees with `Run` for BasicAuth. |
| Handlers.ServeTestOS | handler/router/router.go:41-52 | The writer ends as `TestOSReply` describes. |
| Handlers.ServeHealthz | handler/healthz.go:20-33 | The clock advances five seconds and the writer holds the JSON "OK" reply. |
| Handlers.Dispatch | handler/router/router.go:20 | Serves the handler registered for exactly this path, or the 404 reply, as `Run` for a mux specifies. |
| Endpoints.EchoLine | handler/router/router.go:50-51 | Definition of the echo text `User-Agent: <ua>\nDetected OS: <os>`. It is used by `TestOSReply` and `Pipeline.TestOSEndToEnd`. |
| Endpoints.TestOSReply | handler/router/router.go:41-52 | With no value under `middleware.OSContextKey`: 500 and "OS information not found in context". Otherwise the body gains exactly `User-Agent: <ua>\nDetected OS: <os>` and the headers are kept. |
| Endpoints.HealthzReply | handler/healthz.go:20-33 | The body gains `{"message":"OK"}` and a newline, with status 200 unless already set and the headers kept. |
| Router.ServeMux.Handle | handler/router/router.go:28 | Registers one new pattern and leaves the others unchanged. |
| Router.IsRouteTable | handler/router/router.go:28-52 | Definition of the route table: exactly the four paths, each with its handler, and BasicAuth with the configured credentials around the TODO handler only. `NewRouter` ensures it, and `OnlyTodosIsAuthenticated` and the route lemmas use it. |
| Router.NewRouter | handler/router/router.go:18-55 | A fresh mux whose table is exactly the four routes, with BasicAuth around the TODO handler using the given credentials. |
| Router.OnlyTodosIsAuthenticated | handler/router/router.go:28-52 | Exactly four paths are registered, and only `/todos` is wrapped in BasicAuth. |
| Router.TodosBehindBasicAuth | handler/router/router.go:23-35 | `/todos` runs the TODO handler exactly when the configured credentials are presented, and gives the 401 challenge otherwise. |
| Router.RejectedTodosIgnoresHandler | handler/router/router.go:35 | A rejected `/todos` request gives the same result whatever the TODO handler does. |
| Router.HealthzIsOpen | handler/router/router.go:27-28 | `/healthz` is answered by HealthzHandler, whatever credentials the request carries. |
| Router.DoPanicPanics | handler/router/router.go:38 | `/do-panic` panics with "Panic!" and changes nothing before it does. |
| Router.TestOSWithoutOS | handler/router/router.go:43-47 | Without the middleware's OS value, `/test-os` gives the 500 reply, even when the router's own key is set. |
| Router.TestOSWithOS | handler/router/router.go:50-51 | With the OS value, `/test-os` appends exactly the echo line. |
| Router.OtherPathsNotFound | handler/router/router.go:20 | Every other path gets the mux's 404 reply. |
| Router.RouterIsLogFree | handler/router/router.go:18-55 | The route table contains no LoggingMiddleware. |
| Pipeline.Wrapped | main.go:75 | Definition of the composition `AddOSContext(LoggingMiddleware(Recovery(mux)))`. Its properties are stated by `PipelineNeverPanics`, `PipelineLogsOnce`, `PipelinePanicIs500`, `DoPanicEndToEnd` and `TestOSEndToEnd`. |
| Pipeline.ServeRequest | main.go:75-81 | The server's handler, run on the writer, ends in exactly the state `Run` gives for the wrapped mux, and it returns normally. |
| Pipeline.PipelineNeverPanics | main.go:75 | No panic escapes the wrapped handler. |
| Pipeline.PipelineLogsOnce | main.go:75 | Every request appends exactly one log record. The record has the start time, a non-negative latency, the path, and the OS from the parser, never the fallback. |
| Pipeline.PipelinePanicIs500 | main.go:75 | A panic under the mux before any status was written gives status 500 and exactly one record, which carries the injected OS. |
| Pipeline.RecoverOnFreshResponse | handler/middleware/recovery.go:30-41 | Recovery on an untouched response gives exactly the plain-text 500 "Internal Server Error" response. |
| Pipeline.DoPanicEndToEnd | main.go:75 | `/do-panic` on a fresh response gives exactly a plain-text 500 "Internal Server Error", one "panic: Panic!" log line, and one record with the start time, the elapsed microseconds (non-negative), the path and the parsed OS. |
| Pipeline.DoPanicRecovered | handler/router/router.go:38 | Under Recovery, `/do-panic` on an untouched response gives exactly the plain-text 500 "Internal Server Error" and one "panic: Panic!" log line. |
| Pipeline.TestOSEndToEnd | main.go:75 | Behind the pipeline, `/test-os` always echoes the parsed OS and never gives the 500 reply. |
| Pipeline.SwappedOrderLosesRecord | main.go:75 | Nesting matters: with the order swapped, `Recovery(Logging(h))`, a panicking request leaves no record. |
| Pipeline.ComposedOrderKeepsRecord | main.go:75 | In the order main.go uses, `Logging(Recovery(h))` with h free of LoggingMiddleware, every request leaves exactly one record, panicking or not: the start time, the elapsed microseconds (non-negative), the path and the context's OS. |

## Left out

- Process lifecycle in `main.go` is not modelled: signals, the server goroutine, the wait group, graceful shutdown, `.env` loading and `time.Local`. It is concurrency and configuration I/O.
- The `BASIC_AUTH_USER_ID` / `BASIC_AUTH_PASSWORD` environment reads are the parameters of `Router.NewRouter`.
- `useragent.Parse` is an uninterpreted function (`Collaborators.parseOS`).
- `r.BasicAuth()` header decoding is net/http internals. Its result is the request's `basicAuth: Option<Credentials>`.
- The TODO resource handler (`handler/todo.go`) is not part of this model. The router calls it as the collaborator `Collaborators.todo`, which returns a response, an elapsed time and an optional panic.
- `LogData` JSON marshalling is left out: the marshal-failure branch and the text printed by `log`. A record is modelled as appended to `State.logs`, and Recovery's lines as `Message` values.
- Wall-clock time and `time.Sleep` are left out. Time is an integer count of nanoseconds in the state, and only Healthz (five seconds) and the TODO collaborator advance it.
- The real SQL engine and driver are left out. The store assigns ids from a counter. `created_at`/`updated_at` are the `now` value the caller passes: both are set on insert, and updated_at is set on update.
- The deferred `rows.Close` error (service/todo.go:77-81) is left out. It is assigned to a local that is never returned, so it has no effect.
- `TodoService.TODOService.CreateTODO`: an exhausted id counter (above the largest int64) is modelled as an insert error, which is how the store would refuse the row.
- `TodoService.TODOService.ReadTODO`: the `size > 0 && len(todos) > size` truncation (service/todo.go:102-104) is modelled, but it never changes the result, because LIMIT already bounds the page.
- `Handlers.Dispatch`: `http.ServeMux` is reduced to exact-path matching and its 404. Host patterns and trailing-slash subtrees are not modelled; none of the four registered patterns uses them. The 301 redirect that net/http sends for any unclean path (one that `path.Clean` would change, such as `//todos` or `/./healthz`) is not modelled either: such a path gets the 404 reply here.
- `Router.OtherPathsNotFound`: holds as net/http behaves only for clean paths; an unclean path is redirected with 301 by net/http, while the model answers 404.
- `Pipeline.DoPanicEndToEnd`, `Pipeline.ComposedOrderKeepsRecord`: the model gives every middleware step and the `/do-panic` and `/test-os` handlers zero duration (only Healthz and the TODO collaborator advance the clock), so in the model the latency these records carry is 0 on those paths, whereas the program logs the real elapsed microseconds; the contracts state the latency only as the elapsed time, which is non-negative.
- `Http.ResponseWriter`: header keys are not canonicalised. After the status is sent, header changes still show in the model, whereas net/http would ignore them. Whether a body write fails is one fixed flag per response (`broken`), an abstraction of every cause: net/http also refuses a body after a 204 or 304 status (`ErrBodyNotAllowed`) and beyond a declared Content-Length (`ErrContentLength`), which the model does not; and net/http buffers writes, so a client that has gone away does not make a small `Write` fail at once, whereas a broken response here fails every write.
- `Endpoints.HealthzReply`: does not model the encoder-error branch (handler/healthz.go:29-31). That branch runs only when the body write already failed, and then it can only add headers after the status and attempt another failing write.
- `Middleware.Recover`: the text of the `write error: %v` log line is reduced to the `WriteErrorMsg` marker, and the panic value to its string. A status of 204 or 304 set before the panic makes the program's `w.Write` fail and log "write error"; here the body gets "Internal Server Error" and no `WriteErrorMsg` unless the response is `broken`. In the program Recovery's lines and the request records go to one `log` stream; here they are two sequences (`State.messages` and `State.logs`), so their relative order is not modelled.

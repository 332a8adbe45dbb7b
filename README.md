# http-logger, modelled in Dafny

A model of the request-logging middleware for Go's `net/http` in
`logger.go`. The middleware wraps a handler. For every request it puts a
status-capturing proxy (`ResponseWriterWithLogging`) between the handler and
the real response writer. It runs the handler through that proxy, and then
logs one Info entry through a `zap` logger. The entry holds the request's
method, path, protocol and remote address, the status the proxy captured,
and the latency.

Files:

- `nethttp.dfy` (module `NetHttp`): the request fields that are read, and
  the calls a handler makes on a response writer (`Op`: `WriteHeader(code)`
  or `Write(bytes)`).
- `zap.dfy` (module `Zap`): typed log fields, the Info level, entries, and a
  `ContextMap` view of an entry's fields by name.
- `runtime.dfy` (module `Runtime`): the two collaborators. The real response
  writer records every call it receives in `trace`. It answers a body write
  through an environment function `reply` of the calls it has already
  received and the bytes. The logger collects every entry in `entries`. Each
  also reports to a ghost `History` of events (`Forwarded(op)` or
  `Logged(entry)`), which the two may share. When they share it, the order
  of forwarding and logging is observable across the two objects.
- `logger.dfy` (module `HttpLogger`): the proxy class, the `WithLogging`
  method, the status function `FoldStatus`, and the lemmas about it.

`WithLogging` in Go returns a closure. The model is that closure serving one
request. The handler is the finite sequence of calls it makes on the proxy;
the method applies them one at a time in a loop. The final status is
`FoldStatus(0, handler)`, a left fold of `Step` over the calls. In `Step`,
`WriteHeader(c)` sets the status to `c`; `Write` sets it to 200 only when it
is still 0.

Every `WriteHeader` call overwrites the recorded status (logger.go:16). So
the logged status is the last code passed, even when the runtime ignores a
second `WriteHeader`, and a later `WriteHeader(0)` makes the status unset
again. The model follows the code.

## Model

| member | source | states |
|---|---|---|
| `HttpLogger.ResponseWriterWithLogging.constructor` | logger.go:35 | the proxy wraps the given writer and starts with the given status (0 in `WithLogging`) |
| `HttpLogger.ResponseWriterWithLogging.WriteHeader` | logger.go:15-18 | afterwards `status == code`, and exactly one `WriteHeader(code)` is appended to the wrapped writer's trace and reported as one forwarded event to its history; nothing else changes |
| `HttpLogger.ResponseWriterWithLogging.Write` | logger.go:20-27 | an unset (0) status becomes 200 and any other status is kept; exactly `Write(b)` is appended to the wrapped writer's trace and reported as one forwarded event; the returned `(n, err)` is the wrapped writer's answer for `b` given the calls it received before, unchanged |
| `HttpLogger.WithLogging` | logger.go:32-47 | the wrapped writer receives the handler's calls exactly, in order; the sink gains exactly one entry, at Info level with message "Request", whose fields are the request's method, path, proto and remote address, the fold of the handler's calls from status 0, and the latency `finishedAt - startedAt`; when the writer and the logger share one history, the history gains exactly the handler's calls as forwarded events, in order, and then the one logged entry, so the entry comes after every forwarded call |
| `HttpLogger.Step` | logger.go:15-24 | the status after one call: `WriteHeader(c)` gives `c`; a `Write` gives 200 from 0 and keeps any other status, so after any body write the status is never 0 |
| `HttpLogger.FoldStatusAppend` | logger.go:15-27 | the status after two call sequences run one after the other is the fold over their concatenation; `StatusAfterLastHeader` is proved from it by splitting the calls after the last `WriteHeader` |
| `HttpLogger.StatusAfterLastHeader` | logger.go:16-24 | if `ops[i]` is the last `WriteHeader` call and its code is non-zero, the final status is that code whatever writes follow; if its code is 0, the final status is 200 when a write follows and 0 otherwise |
| `HttpLogger.StatusWithoutHeader` | logger.go:22-24 | with no `WriteHeader` call, the status stays at its start value, except that an unset start becomes 200 once there is at least one write; from 0 with no calls at all it stays 0 |
| `HttpLogger.StatusUnsetIff` | logger.go:16-24 | the final status is 0 exactly when there were no calls and the start was 0, or the last call was `WriteHeader(0)` |
| `HttpLogger.LoggedFieldsVerbatim` | logger.go:38-45 | looked up by name, the logged fields are `method`, `path`, `proto`, `remoteAddr` copied verbatim from the request, `status` as an int and `latency` as a duration, and no other key |
| `HttpLogger.ServeCreated` | logger_test.go:22-72 | a `POST /api/data` request from `192.0.2.1:1234` over HTTP/1.1, served by a handler that calls `WriteHeader(201)` and then writes "Success!", logs exactly one Info entry with those four strings and status 201 |
| `Zap.ContextMap` | logger_test.go:63 | the keys of the field map are exactly the keys of the fields |

## Left out

- Latency: `time.Now` and `time.Since` (logger.go:34, logger.go:44) are clock readings. They are parameters `startedAt` and `finishedAt` of `WithLogging`. The latency is their difference, and it is non-negative only when the clock is monotone, which Go's clock guarantees but the model does not. Go's `time.Since` also clamps the difference to the range of `time.Duration` (int64); the model's difference is unbounded.
- HttpLogger.WithLogging: the request is modelled as an immutable value. In Go the handler receives the same `*http.Request` pointer (logger.go:36), and the four logged strings are read through it only after the handler returns (logger.go:39-42). A handler that rewrites `*r` or `*r.URL` in place, for example to set `RemoteAddr` to a forwarded client address, changes what Go logs; the model does not capture that, so its "verbatim" fields are the request's values on entry.
- `Header()` and the other methods that the proxy inherits from the embedded `http.ResponseWriter` are plain delegation to the runtime. They are not modelled.
- A handler is modelled as a fixed sequence of calls, so a handler that looks at a write's result before deciding its next call is not captured. Handler panics are not modelled either; the code does not recover from them.
- The `zap` library itself is left out: its encoding, levels other than Info, and output. The sink only collects entries.
- The `net/http` server, `ListenAndServe`, `DefaultServeMux` and route registration (logger_test.go:74-86) are not modelled.
- Status codes are not range-checked. The model's writer accepts any code, as the proxy does (logger.go:15-18). Go's own server writer and test recorder reject codes outside 100..999, so the `WriteHeader(0)` cases of `StatusAfterLastHeader` and `StatusUnsetIff` arise only with a writer that accepts 0.
- Integer widths: Go's `int` status code and `time.Duration` are unbounded integers here. The proxy does no arithmetic on them, so nothing can wrap.
- Concurrency across requests: each request gets its own proxy and no state is shared, so there is nothing to model.

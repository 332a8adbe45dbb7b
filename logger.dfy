/** The request-logging middleware: a response-writer proxy that remembers
    the status code, and the decorator that runs a handler through it and
    logs one entry afterwards. */
module HttpLogger {
  import opened NetHttp
  import Zap
  import opened Runtime

  /** The status the proxy holds after it has seen `op` while holding
      `status`: `WriteHeader(c)` overwrites it with `c`; `Write` turns an
      unset (zero) status into 200 and leaves any other alone. */
  function Step(status: int, op: Op): (r: int)
    ensures op.Write? ==> r != 0
  {
    match op
    case WriteHeader(c) => c
    case Write(_) => if status == 0 then 200 else status
  }

  /** The status after the proxy has seen every call in `ops`, starting from
      `status`: a left fold of `Step` over the calls. */
  function FoldStatus(status: int, ops: seq<Op>): (r: int)
    decreases |ops|
  {
    if ops == [] then status
    else Step(FoldStatus(status, ops[..|ops| - 1]), ops[|ops| - 1])
  }

  /** Folding over two traces one after the other is folding over their
      concatenation. */
  lemma {:induction false} FoldStatusAppend(status: int, a: seq<Op>, b: seq<Op>)
    ensures FoldStatus(status, a + b) == FoldStatus(FoldStatus(status, a), b)
    decreases |b|
  {
    if b == [] {
      assert a + b == a;
    } else {
      var b' := b[..|b| - 1];
      assert (a + b)[..|a + b| - 1] == a + b';
      FoldStatusAppend(status, a, b');
    }
  }

  /** When `ops[i]` is the last `WriteHeader` call, the status is its code
      if that is non-zero, whatever writes follow; a `WriteHeader(0)` leaves
      the status unset unless some write follows it, which makes it 200. */
  lemma {:induction false} StatusAfterLastHeader(status: int, ops: seq<Op>, i: int)
    requires 0 <= i < |ops| && ops[i].WriteHeader?
    requires forall j :: i < j < |ops| ==> ops[j].Write?
    ensures ops[i].code != 0 ==> FoldStatus(status, ops) == ops[i].code
    ensures ops[i].code == 0 ==> FoldStatus(status, ops) == if i < |ops| - 1 then 200 else 0
  {
    var upTo, after := ops[..i + 1], ops[i + 1..];
    assert upTo[..|upTo| - 1] == ops[..i];
    assert FoldStatus(status, upTo) == ops[i].code;
    assert forall j :: 0 <= j < |after| ==> after[j].Write? by {
      forall j | 0 <= j < |after| ensures after[j].Write? {
        assert after[j] == ops[i + 1 + j];
      }
    }
    StatusWithoutHeader(ops[i].code, after);
    assert upTo + after == ops;
    FoldStatusAppend(status, upTo, after);
  }

  /** Without any `WriteHeader` call the status stays as it started, except
      that an unset status becomes 200 as soon as the first write is seen. */
  lemma {:induction false} StatusWithoutHeader(status: int, ops: seq<Op>)
    requires forall j :: 0 <= j < |ops| ==> ops[j].Write?
    ensures FoldStatus(status, ops) == if status == 0 && ops != [] then 200 else status
    decreases |ops|
  {
    if ops != [] {
      var prefix := ops[..|ops| - 1];
      assert forall j :: 0 <= j < |prefix| ==> prefix[j].Write? by {
        forall j | 0 <= j < |prefix| ensures prefix[j].Write? {
          assert prefix[j] == ops[j];
        }
      }
      StatusWithoutHeader(status, prefix);
    }
  }

  /** The status is unset (zero) exactly when nothing was seen and it started
      unset, or the very last call was `WriteHeader(0)`. */
  lemma StatusUnsetIff(status: int, ops: seq<Op>)
    ensures FoldStatus(status, ops) == 0 <==>
              if ops == [] then status == 0 else ops[|ops| - 1] == Op.WriteHeader(0)
  {
  }

  /** The fields of the one entry logged for request `r`, in the order they
      are passed to the logger. */
  function RequestFields(r: Request, status: int, latency: int): (fs: seq<Zap.Field>)
  {
    [ Zap.Field("method", Zap.Str(r.httpMethod)),
      Zap.Field("path", Zap.Str(r.path)),
      Zap.Field("proto", Zap.Str(r.proto)),
      Zap.Field("remoteAddr", Zap.Str(r.remoteAddr)),
      Zap.Field("status", Zap.Int(status)),
      Zap.Field("latency", Zap.Duration(latency)) ]
  }

  /** Looked up by name, the logged fields give the request's method, path,
      protocol and remote address verbatim, the status and the latency. */
  lemma LoggedFieldsVerbatim(r: Request, status: int, latency: int)
    ensures Zap.ContextMap(RequestFields(r, status, latency)) ==
              map[ "method" := Zap.Str(r.httpMethod), "path" := Zap.Str(r.path),
                   "proto" := Zap.Str(r.proto), "remoteAddr" := Zap.Str(r.remoteAddr),
                   "status" := Zap.Int(status), "latency" := Zap.Duration(latency) ]
  {
    var fs := RequestFields(r, status, latency);
    var m0: map<string, Zap.Value> := map[];
    var m1 := m0["method" := Zap.Str(r.httpMethod)];
    var m2 := m1["path" := Zap.Str(r.path)];
    var m3 := m2["proto" := Zap.Str(r.proto)];
    var m4 := m3["remoteAddr" := Zap.Str(r.remoteAddr)];
    var m5 := m4["status" := Zap.Int(status)];
    assert fs[..1][..0] == [];
    assert Zap.ContextMap(fs[..1]) == m1;
    assert fs[..2][..1] == fs[..1];
    assert Zap.ContextMap(fs[..2]) == m2;
    assert fs[..3][..2] == fs[..2];
    assert Zap.ContextMap(fs[..3]) == m3;
    assert fs[..4][..3] == fs[..3];
    assert Zap.ContextMap(fs[..4]) == m4;
    assert fs[..5][..4] == fs[..4];
    assert Zap.ContextMap(fs[..5]) == m5;
    assert fs[..|fs| - 1] == fs[..5];
  }

  /** The proxy Go calls `ResponseWriterWithLogging`: it forwards every call
      to the writer it wraps and keeps the status code it last saw. */
  class ResponseWriterWithLogging {
    const responseWriter: ResponseWriter
    var status: int

    constructor (w: ResponseWriter, status: int)
      ensures responseWriter == w && this.status == status
    {
      responseWriter := w;
      this.status := status;
    }

    /** Records `code` and forwards the call. */
    method WriteHeader(code: int)
      modifies this, responseWriter, responseWriter.history
      ensures status == code
      ensures responseWriter.trace == old(responseWriter.trace) + [Op.WriteHeader(code)]
      ensures responseWriter.history.events ==
                old(responseWriter.history.events) + [Forwarded(Op.WriteHeader(code))]
    {
      status := code;
      responseWriter.WriteHeader(code);
    }

    /** Marks an unset status as 200, then forwards `b` and hands back the
        underlying writer's answer untouched. */
    method Write(b: seq<byte>) returns (n: int, err: Option<Error>)
      modifies this, responseWriter, responseWriter.history
      ensures old(status) == 0 ==> status == 200
      ensures old(status) != 0 ==> status == old(status)
      ensures responseWriter.trace == old(responseWriter.trace) + [Op.Write(b)]
      ensures responseWriter.history.events ==
                old(responseWriter.history.events) + [Forwarded(Op.Write(b))]
      ensures WriteResult(n, err) == responseWriter.reply(old(responseWriter.trace), b)
    {
      if status == 0 {
        status := 200;
      }
      n, err := responseWriter.Write(b);
    }
  }

  /** The entry logged for request `r` when the handler made the calls
      `ops` and took `latency` nanoseconds. */
  function LoggedEntry(r: Request, ops: seq<Op>, latency: int): (e: Zap.Entry)
  {
    Zap.Entry(Zap.Level.Info, "Request", RequestFields(r, FoldStatus(0, ops), latency))
  }

  /** The events the runtime's writer reports when it receives `ops`. */
  function ForwardedAll(ops: seq<Op>): (es: seq<Event>)
  {
    seq(|ops|, i requires 0 <= i < |ops| => Forwarded(ops[i]))
  }

  /** One request served by the handler that `WithLogging` returns: a fresh
      proxy with status 0 wraps `w`, the handler's calls `handler` go
      through it in order, and then exactly one Info entry is logged.
      `startedAt` and `finishedAt` are the clock readings taken before and
      after the handler runs. When the writer and the logger report to the
      same history, it shows every handler call forwarded before the entry
      is logged. */
  method WithLogging(handler: seq<Op>, logger: Logger, w: ResponseWriter, r: Request,
                     startedAt: int, finishedAt: int)
    modifies logger, w, w.history, logger.history
    ensures w.trace == old(w.trace) + handler
    ensures logger.entries == old(logger.entries) + [LoggedEntry(r, handler, finishedAt - startedAt)]
    ensures w.history == logger.history ==>
              w.history.events == old(w.history.events) + ForwardedAll(handler)
                                  + [Logged(LoggedEntry(r, handler, finishedAt - startedAt))]
    ensures w.history != logger.history ==>
              && w.history.events == old(w.history.events) + ForwardedAll(handler)
              && logger.history.events ==
                   old(logger.history.events) + [Logged(LoggedEntry(r, handler, finishedAt - startedAt))]
  {
    var wl := new ResponseWriterWithLogging(w, 0);
    var i := 0;
    while i < |handler|
      invariant 0 <= i <= |handler|
      invariant wl.responseWriter == w
      invariant wl.status == FoldStatus(0, handler[..i])
      invariant w.trace == old(w.trace) + handler[..i]
      invariant w.history.events == old(w.history.events) + ForwardedAll(handler[..i])
      invariant w.history != logger.history ==> logger.history.events == old(logger.history.events)
      invariant logger.entries == old(logger.entries)
    {
      assert handler[..i + 1][..i] == handler[..i];
      assert ForwardedAll(handler[..i + 1]) == ForwardedAll(handler[..i]) + [Forwarded(handler[i])];
      match handler[i] {
        case WriteHeader(c) =>
          wl.WriteHeader(c);
        case Write(b) =>
          var _, _ := wl.Write(b);
      }
      i := i + 1;
    }
    assert handler[..i] == handler;
    logger.Info("Request", RequestFields(r, wl.status, finishedAt - startedAt));
  }

  /** The request of the repository's own test: `POST /api/data` from
      `192.0.2.1:1234` over HTTP/1.1, answered by a handler that sets 201
      and writes "Success!". Serving it through the middleware logs exactly
      one Info entry whose fields are the request's and status 201. */
  method ServeCreated() returns (entries: seq<Zap.Entry>)
    ensures |entries| == 1 && entries[0].level == Zap.Level.Info
    ensures entries[0].message == "Request"
    ensures Zap.ContextMap(entries[0].fields) ==
              map[ "method" := Zap.Str("POST"), "path" := Zap.Str("/api/data"),
                   "proto" := Zap.Str("HTTP/1.1"), "remoteAddr" := Zap.Str("192.0.2.1:1234"),
                   "status" := Zap.Int(201), "latency" := Zap.Duration(0) ]
  {
    var history := new History();
    var logger := new Logger(history);
    var w := new ResponseWriter((_, b) => WriteResult(|b|, None), history);
    var r := Request("POST", "/api/data", "HTTP/1.1", "192.0.2.1:1234");
    // "Success!" as ASCII bytes
    var success: seq<byte> := [83, 117, 99, 99, 101, 115, 115, 33];
    var handler := [Op.WriteHeader(201), Op.Write(success)];
    WithLogging(handler, logger, w, r, 0, 0);
    assert handler[..1] == [Op.WriteHeader(201)];
    assert FoldStatus(0, handler) == 201;
    entries := logger.entries;
    assert entries == [LoggedEntry(r, handler, 0)];
    assert LoggedEntry(r, handler, 0) == Zap.Entry(Zap.Level.Info, "Request", RequestFields(r, 201, 0));
    LoggedFieldsVerbatim(r, 201, 0);
  }
}

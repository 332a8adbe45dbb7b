/** The values of Go's net/http that the logging middleware touches: the
    request fields it reads, and the calls a handler makes on a response
    writer. The writer itself is in module Runtime. */
module NetHttp {

  newtype byte = b: int | 0 <= b < 256

  datatype Option<T> = None | Some(value: T)

  /** The error value a body write may return (Go's `error`). */
  datatype Error = Error(message: string)

  /** What the underlying writer answers to one `Write`: the byte count and
      the error, exactly as the runtime produced them. */
  datatype WriteResult = WriteResult(n: int, err: Option<Error>)

  /** One call that reaches a response writer. */
  datatype Op = WriteHeader(code: int) | Write(body: seq<byte>)

  /** The fields of `*http.Request` the middleware reads (`Method` is
      `httpMethod` here, `URL.Path` is flattened to `path`). */
  datatype Request = Request(httpMethod: string, path: string, proto: string, remoteAddr: string)
}

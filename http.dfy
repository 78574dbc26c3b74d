/** The HTTP-facing values shared by the proxy's handlers: the exception the
    handlers raise (FastAPI's `HTTPException`) and the three kinds of reply. */
module Http {
  import opened PyText

  /** `HTTPException(status_code, detail)`; the reply body is `{"detail": detail}`. */
  datatype HttpException = HttpException(status: int, detail: string)

  /** `str()` of an `HTTPException`, as Starlette defines it: "<status>: <detail>". */
  function ExceptionText(e: HttpException): string {
    IntToString(e.status) + ": " + e.detail
  }

  /** What the caller receives from an endpoint. */
  datatype Response =
    | JsonResponse(body: string)              // status 200, the serialised upstream object
    | EventStream(frames: seq<string>)        // status 200, `text/event-stream`
    | ErrorResponse(status: int, detail: string)

  function Status(r: Response): int {
    match r
    case JsonResponse(_) => 200
    case EventStream(_) => 200
    case ErrorResponse(status, _) => status
  }

  function Raise(e: HttpException): Response {
    ErrorResponse(e.status, e.detail)
  }
}

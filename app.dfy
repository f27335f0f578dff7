/** The middleware chain of the Express application: the CORS headers, the
    fallback for requests no route matched, and the general error handler that
    deletes an uploaded file before it answers or forwards the error. */
module App {
  import opened Http

  const AllowOrigin := "Access-Control-Allow-Origin"
  const AllowHeaders := "Access-Control-Allow-Headers"
  const AllowMethods := "Access-Control-Allow-Methods"
  const AllowedOrigins := "*"
  const AllowedHeaders := "Origin, X-Requested-With, Content-Type, Accept, Authorization"
  const AllowedMethods := "GET, POST, PATCH, DELETE"

  const NotFoundMessage := "Could not find this route"
  const UnknownError := "An unknown error occurred!"

  /** A file the upload middleware already stored, at `location`. */
  datatype UploadedFile = UploadedFile(location: string)

  /** The part of a request this core looks at: `req.file`. */
  datatype Request = Request(file: Option<UploadedFile>)

  /** What a middleware does with the request: `next()`, `next(error)`, or
      nothing further because it answered. */
  datatype Next = Continue | Forward(error: HttpError) | Finished

  /** The side effects of a request that leave the process, in order: a
      `fileDelete(location)` call, or a response written to the client. */
  datatype Effect = FileDelete(location: string) | Sent(status: int, body: Body)

  /** `error.code || 500`. */
  function ErrorStatus(code: int): (s: int)
    ensures s != 0
    ensures code != 0 ==> s == code
    ensures code == 0 ==> s == 500
  {
    if code != 0 then code else 500
  }

  /** `error.message || 'An unknown error occurred!'`. */
  function ErrorMessage(message: string): (m: string)
    ensures m != ""
    ensures message != "" ==> m == message
    ensures message == "" ==> m == UnknownError
  {
    if message != "" then message else UnknownError
  }

  /** The delete call the error handler makes for a request. */
  function Cleanup(req: Request): seq<Effect>
  {
    if req.file.Some? then [FileDelete(req.file.value.location)] else []
  }

  /** Everything the error handler makes happen, given whether headers had
      already been sent. */
  function ErrorEffects(error: HttpError, req: Request, headersSent: bool): seq<Effect>
  {
    Cleanup(req) + if headersSent then [] else [Sent(ErrorStatus(error.code), Message(ErrorMessage(error.message)))]
  }

  /** The locations passed to `fileDelete`, in call order. */
  function Deletes(trace: seq<Effect>): (r: seq<string>)
    ensures |r| <= |trace|
  {
    if trace == [] then []
    else (if trace[0].FileDelete? then [trace[0].location] else []) + Deletes(trace[1..])
  }

  lemma {:induction false} DeletesAppend(a: seq<Effect>, b: seq<Effect>)
    ensures Deletes(a + b) == Deletes(a) + Deletes(b)
  {
    if a == [] {
      assert a + b == b;
    } else {
      assert (a + b)[1..] == a[1..] + b;
      DeletesAppend(a[1..], b);
    }
  }

  /** The error handler calls `fileDelete` exactly once, with the uploaded
      file's location, whenever the request carries a file, and never
      otherwise; headers already sent or not makes no difference, and the
      call comes before any response is written. */
  lemma CleanupExactlyOnce(error: HttpError, req: Request, headersSent: bool)
    ensures Deletes(ErrorEffects(error, req, headersSent)) ==
              if req.file.Some? then [req.file.value.location] else []
    ensures req.file.Some? ==> ErrorEffects(error, req, headersSent)[0] == FileDelete(req.file.value.location)
    ensures forall k :: 0 <= k < |ErrorEffects(error, req, headersSent)| && ErrorEffects(error, req, headersSent)[k].Sent? ==>
              k == |Cleanup(req)| && !headersSent
  {
  }

  /** The response record (`res`). */
  class Response {
    var headersSent: bool
    var status: int
    var body: Body
    var headers: map<string, string>

    /** A fresh response: Express starts at status 200 with nothing sent. */
    constructor ()
      ensures !headersSent && status == 200 && body == Empty && headers == map[]
    {
      headersSent := false;
      status := 200;
      body := Empty;
      headers := map[];
    }

    /** `res.setHeader(name, value)`. */
    method SetHeader(name: string, value: string)
      modifies this
      ensures headers == old(headers)[name := value]
      ensures headersSent == old(headersSent) && status == old(status) && body == old(body)
    {
      headers := headers[name := value];
    }
  }

  /** The log of effects leaving the process. */
  class Effects {
    var trace: seq<Effect>

    constructor ()
      ensures trace == []
    {
      trace := [];
    }

    /** `fileDelete(location)`: fire and forget, so only the call is recorded. */
    method DeleteFile(location: string)
      modifies this
      ensures trace == old(trace) + [FileDelete(location)]
    {
      trace := trace + [FileDelete(location)];
    }
  }

  /** `res.status(status).json(body)`: sets the status and body and sends them. */
  method Send(res: Response, fx: Effects, status: int, body: Body)
    modifies res, fx
    ensures res.status == status && res.body == body && res.headersSent && res.headers == old(res.headers)
    ensures fx.trace == old(fx.trace) + [Sent(status, body)]
  {
    res.status := status;
    res.body := body;
    res.headersSent := true;
    fx.trace := fx.trace + [Sent(status, body)];
  }

  /** The CORS middleware: the three fixed headers, then `next()`. */
  method Cors(res: Response) returns (n: Next)
    modifies res
    ensures n == Continue
    ensures res.headers == old(res.headers)[AllowOrigin := AllowedOrigins][AllowHeaders := AllowedHeaders][AllowMethods := AllowedMethods]
    ensures res.headersSent == old(res.headersSent) && res.status == old(res.status) && res.body == old(res.body)
  {
    res.SetHeader(AllowOrigin, AllowedOrigins);
    res.SetHeader(AllowHeaders, AllowedHeaders);
    res.SetHeader(AllowMethods, AllowedMethods);
    return Continue;
  }

  /** The fallback after all routes: a request that reaches it fails with 404
      and touches neither the response nor anything else. */
  method NotFound(req: Request) returns (n: Next)
    ensures n.Forward? && n.error.code == 404 && n.error.message == NotFoundMessage
  {
    return Forward(HttpError(NotFoundMessage, 404));
  }

  /** The general error handler. */
  method HandleError(error: HttpError, req: Request, res: Response, fx: Effects) returns (n: Next)
    modifies res, fx
    ensures fx.trace == old(fx.trace) + ErrorEffects(error, req, old(res.headersSent))
    ensures res.headersSent && res.headers == old(res.headers)
    ensures old(res.headersSent) ==> n == Forward(error) && res.status == old(res.status) && res.body == old(res.body)
    ensures !old(res.headersSent) ==>
              n == Finished && res.status == ErrorStatus(error.code) && res.body == Message(ErrorMessage(error.message))
  {
    if req.file.Some? {
      fx.DeleteFile(req.file.value.location);
    }
    if res.headersSent {
      return Forward(error);
    }
    Send(res, fx, ErrorStatus(error.code), Message(ErrorMessage(error.message)));
    return Finished;
  }

  /** How Express ends a request once a handler has settled: the handler's own
      `res.status(...).json(...)`, or `next(error)` into the error handler. */
  method Finish(out: Outcome, req: Request, res: Response, fx: Effects) returns (n: Next)
    modifies res, fx
    ensures res.headersSent
    ensures out.Respond? ==>
              n == Finished && res.status == out.status && res.body == out.body && res.headers == old(res.headers)
              && fx.trace == old(fx.trace) + [Sent(out.status, out.body)]
    ensures out.Fail? ==>
              fx.trace == old(fx.trace) + ErrorEffects(out.error, req, old(res.headersSent))
              && res.headers == old(res.headers)
              && (old(res.headersSent) ==> n == Forward(out.error) && res.status == old(res.status) && res.body == old(res.body))
              && (!old(res.headersSent) ==> n == Finished && res.status == ErrorStatus(out.error.code)
                                            && res.body == Message(ErrorMessage(out.error.message)))
  {
    match out
    case Respond(status, body) =>
      Send(res, fx, status, body);
      return Finished;
    case Fail(error) =>
      n := HandleError(error, req, res, fx);
  }
}

/** The HTTP server wrapper of
    `src/rot13-service/infrastructure/http_server.js`: its start/stop
    lifecycle and the pipeline that turns whatever a request handler does
    into a well-formed response, logging handler malfunctions. */
module Server {
  import opened Results
  import Request

  /** The JavaScript values a handler can return. */
  datatype JsValue =
    | Undefined
    | Null
    | Bool(b: bool)
    | Num(n: real)
    | Str(s: string)
    | Obj(properties: map<string, JsValue>)

  /** The constructors a type descriptor names. */
  datatype JsType = NumberType | ObjectType | StringType

  /** `RESPONSE_TYPE`: the shape a handler's response must have. */
  const ResponseType: map<string, JsType> :=
    map["status" := NumberType, "headers" := ObjectType, "body" := StringType]

  predicate HasType(v: JsValue, t: JsType) {
    match t
    case NumberType => v.Num?
    case ObjectType => v.Obj?
    case StringType => v.Str?
  }

  /** The model of `type.check(response, RESPONSE_TYPE) === null`: an object
      whose every property named by the descriptor has the named type. */
  predicate WellShaped(v: JsValue): (r: bool)
    ensures r <==> v.Obj? && "status" in v.properties && v.properties["status"].Num?
                   && "headers" in v.properties && v.properties["headers"].Obj?
                   && "body" in v.properties && v.properties["body"].Str?
  {
    v.Obj? && forall name :: name in ResponseType ==>
      name in v.properties && HasType(v.properties[name], ResponseType[name])
  }

  /** What the server writes back on the wire: status code, headers, body. */
  datatype WireResponse = WireResponse(status: real, headers: map<string, JsValue>, body: string)

  /** The destructuring `{ status, headers, body }` of a well-shaped value. */
  function ToWire(v: JsValue): (w: WireResponse)
    requires WellShaped(v)
    ensures Num(w.status) == v.properties["status"]
    ensures Obj(w.headers) == v.properties["headers"]
    ensures Str(w.body) == v.properties["body"]
  {
    WireResponse(v.properties["status"].n, v.properties["headers"].properties, v.properties["body"].s)
  }

  const InvalidResponseMessage := "request handler returned invalid response"
  const ThrewMessage := "request handler threw exception"
  const AlreadyRunningMessage := "Can't start server because it's already running"
  const NotRunningMessage := "Can't stop server because it isn't running"
  const SimulateNotRunningMessage := "Can't simulate request because server isn't running"
  const StartupErrorPrefix := "Couldn't start server due to error: "

  /** `internalServerError()`: the fixed response substituted for a
      malfunctioning handler. */
  function InternalServerError(): (v: JsValue)
    ensures WellShaped(v)
    ensures ToWire(v) == WireResponse(500.0,
                                      map["content-type" := Str("text/plain; charset=utf-8")],
                                      "Internal Server Error")
  {
    Obj(map[
      "status" := Num(500.0),
      "headers" := Obj(map["content-type" := Str("text/plain; charset=utf-8")]),
      "body" := Str("Internal Server Error")])
  }

  /** The log's alert levels. */
  datatype Alert = Debug | Info | Monitor | Action | Emergency

  /** The structured data logged beside the message: the offending response
      or the thrown error. */
  datatype Payload = InvalidResponse(response: JsValue) | Error(error: string)

  /** One structured log entry, as the log's output tracker records it. */
  datatype LogEntry = LogEntry(alert: Alert, message: string, payload: Payload)

  /** How the handler's promise settled. */
  datatype HandlerOutcome = Returned(value: JsValue) | Threw(error: string)

  /** The response `handleRequestAsync` resolves to, and the log entries it
      wrote on the way. */
  datatype Handled = Handled(response: JsValue, logged: seq<LogEntry>)

  /** `handleRequestAsync`: a well-shaped handler response passes through
      untouched and unlogged; anything else is logged once at emergency level
      and replaced by the fixed 500 response. */
  function HandleRequest(outcome: HandlerOutcome): (h: Handled)
    ensures WellShaped(h.response)
    ensures |h.logged| <= 1
    ensures h.logged == [] <==> outcome.Returned? && WellShaped(outcome.value)
    ensures h.logged == [] ==> h.response == outcome.value
    ensures h.logged != [] ==> h.response == InternalServerError() && h.logged[0].alert == Emergency
    ensures outcome.Returned? && !WellShaped(outcome.value) ==>
              h.logged == [LogEntry(Emergency, InvalidResponseMessage, InvalidResponse(outcome.value))]
    ensures outcome.Threw? ==>
              h.logged == [LogEntry(Emergency, ThrewMessage, Error(outcome.error))]
  {
    match outcome
    case Returned(response) =>
      if !WellShaped(response) then
        Handled(InternalServerError(),
                [LogEntry(Emergency, InvalidResponseMessage, InvalidResponse(response))])
      else
        Handled(response, [])
    case Threw(err) =>
      Handled(InternalServerError(), [LogEntry(Emergency, ThrewMessage, Error(err))])
  }

  /** Feeding the pipeline's own answer back through it changes nothing and
      logs nothing: the pipeline is idempotent. */
  lemma HandleRequestIdempotent(outcome: HandlerOutcome)
    ensures HandleRequest(Returned(HandleRequest(outcome).response))
         == Handled(HandleRequest(outcome).response, [])
  {
  }

  /** A request handler: what its promise settles to for a given request. */
  type Handler = Request.HttpRequest -> HandlerOutcome

  /** The transport's listening server (`_server`), created at start. */
  datatype NodeServer = NodeServer(port: real)

  /** The server wrapper: `_server` is `None` while stopped, and
      `_onRequestAsync` is the handler bound by the latest start. */
  class HttpServer {
    var server: Option<NodeServer>
    var onRequest: Option<Handler>
    ghost var log: seq<LogEntry>

    /** A started server always has a handler. */
    ghost predicate Valid()
      reads this
    {
      server.Some? ==> onRequest.Some?
    }

    /** `isStarted`: whether the transport's server is set; a started
        server has a handler to answer requests with. */
    predicate IsStarted(): (r: bool)
      reads this
      ensures r && Valid() ==> onRequest.Some?
    {
      server.Some?
    }

    /** `HttpServer.create` and `createNull`: a stopped server with an
        empty log. */
    constructor Create()
      ensures Valid() && !IsStarted()
      ensures onRequest == None && log == []
    {
      server := None;
      onRequest := None;
      log := [];
    }

    /** `startAsync`: refused while started, leaving everything unchanged;
        otherwise binds the handler and creates the listening server. A
        transport error reported through its `error` event (`listenError`) rejects the start
        but, as written, leaves the server field set, so the server still
        reads as started. */
    method Start(port: real, handler: Handler, listenError: Option<string>) returns (r: Outcome)
      requires Valid()
      modifies this
      ensures Valid() && log == old(log)
      ensures old(IsStarted()) ==>
                r == Fail(AlreadyRunningMessage)
                && server == old(server) && onRequest == old(onRequest)
      ensures !old(IsStarted()) ==>
                IsStarted() && server == Some(NodeServer(port)) && onRequest == Some(handler)
                && r == (if listenError.Some? then Fail(StartupErrorPrefix + listenError.value) else Pass)
    {
      if IsStarted() {
        return Fail(AlreadyRunningMessage);
      }
      onRequest := Some(handler);
      server := Some(NodeServer(port));
      match listenError
      case Some(message) => r := Fail(StartupErrorPrefix + message);
      case None => r := Pass;
    }

    /** `stopAsync`: refused while stopped; otherwise closes the listening
        server, after which the server is stopped. The bound handler stays. */
    method Stop() returns (r: Outcome)
      requires Valid()
      modifies this
      ensures Valid() && log == old(log) && onRequest == old(onRequest)
      ensures !IsStarted()
      ensures r == if old(IsStarted()) then Pass else Fail(NotRunningMessage)
    {
      if !IsStarted() {
        return Fail(NotRunningMessage);
      }
      server := None;
      r := Pass;
    }

    /** `simulateRequestAsync`: refused while stopped; otherwise runs the
        handler bound at start through the response pipeline, appending
        what it logged. */
    method SimulateRequest(request: Request.HttpRequest) returns (r: Result<JsValue>)
      requires Valid()
      modifies this
      ensures Valid() && server == old(server) && onRequest == old(onRequest)
      ensures !old(IsStarted()) ==> r == Failure(SimulateNotRunningMessage) && log == old(log)
      ensures old(IsStarted()) ==>
                var handled := HandleRequest(onRequest.value(request));
                r == Success(handled.response) && log == old(log) + handled.logged
    {
      if !IsStarted() {
        return Failure(SimulateNotRunningMessage);
      }
      var handled := HandleRequest(onRequest.value(request));
      log := log + handled.logged;
      r := Success(handled.response);
    }

    /** The transport's `request` event: the handler bound at start answers,
        through the same pipeline, and the pipeline's well-shaped result is
        what is handed to the transport to write back. */
    method OnRequest(request: Request.HttpRequest) returns (w: WireResponse)
      requires Valid() && IsStarted()
      modifies this
      ensures Valid() && server == old(server) && onRequest == old(onRequest)
      ensures var handled := HandleRequest(onRequest.value(request));
              w == ToWire(handled.response) && log == old(log) + handled.logged
    {
      var handled := HandleRequest(onRequest.value(request));
      log := log + handled.logged;
      w := ToWire(handled.response);
    }
  }

  /** Misuse of the lifecycle fails fast: a second start while running and
      a stop while stopped are both refused, and a request simulated after
      stopping is refused too. */
  method LifecycleMisuse(port: real, handler: Handler, request: Request.HttpRequest)
    returns (secondStart: Outcome, secondStop: Outcome, lateRequest: Result<JsValue>)
    ensures secondStart == Fail(AlreadyRunningMessage)
    ensures secondStop == Fail(NotRunningMessage)
    ensures lateRequest == Failure(SimulateNotRunningMessage)
  {
    var server := new HttpServer.Create();
    var first := server.Start(port, handler, None);
    secondStart := server.Start(port, handler, None);
    var stopped := server.Stop();
    secondStop := server.Stop();
    lateRequest := server.SimulateRequest(request);
  }

  /** A transport error during startup rejects the start, yet the server
      field has already been assigned: the server still reads as started, so
      a retry is refused as "already running" until it is stopped. */
  method StartupErrorLeavesServerStarted(port: real, handler: Handler, error: string)
    returns (start: Outcome, retry: Outcome, started: bool)
    ensures start == Fail(StartupErrorPrefix + error)
    ensures retry == Fail(AlreadyRunningMessage)
    ensures started
  {
    var server := new HttpServer.Create();
    start := server.Start(port, handler, Some(error));
    retry := server.Start(port, handler, None);
    started := server.IsStarted();
  }
}

/** A connection to a WebDriver server over HTTP: how a request value becomes
    an HTTP request (URL path, method, JSON body), how a reply is classified
    (non-200 is an error response, 200 decodes against the request's response
    shape), how the wire dialect is detected, and the dialect dispatch of
    Status. The network is a scripted oracle: a queue of pre-decided replies,
    with a ghost log of every HTTP request sent. */
module Http {
  import opened Wire
  import opened Requests
  import LegacySelenium
  import W3C

  /** One component of a URL path; a directory component gets a trailing slash. */
  datatype Segment = Segment(name: string, isDirectory: bool)
  datatype Url = Url(origin: string, path: seq<Segment>)

  const JsonContentType := "application/json;charset=UTF-8"

  /** What `buildURLRequest` produces: the URL, the method's raw value, the
      content-type header and the (abstractly encoded) JSON body. */
  datatype UrlRequest = UrlRequest(url: Url, httpMethod: string, contentType: Option<string>, httpBody: Option<Body>)

  type Seconds = r: real | 0.0 <= r

  /** What the transport hands back: a status code and a body, or a failure to connect. */
  datatype Reply = HttpResponse(statusCode: int, payload: Payload) | Unreachable

  /** One scripted round trip: its reply and the time it took. */
  datatype Exchange = Exchange(reply: Reply, latency: Seconds)

  /** The next scripted exchange; once the script is used up the server is unreachable. */
  function Next(script: seq<Exchange>): (e: Exchange)
    ensures script == [] ==> e.reply.Unreachable? && e.latency == 0.0
    ensures script != [] ==> e == script[0]
  {
    if script == [] then Exchange(Unreachable, 0.0) else script[0]
  }

  function Rest(script: seq<Exchange>): seq<Exchange> {
    if script == [] then [] else script[1..]
  }

  /** The scripted transport. `now` is its wall clock, advanced by each exchange. */
  class Server {
    var script: seq<Exchange>
    var now: real
    ghost var log: seq<UrlRequest>

    constructor (script: seq<Exchange>)
      ensures this.script == script && now == 0.0 && log == []
    {
      this.script := script;
      now := 0.0;
      log := [];
    }

    /** `URLRequest.send()`: one round trip. */
    method Perform(request: UrlRequest) returns (reply: Reply)
      modifies this
      ensures reply == Next(old(script)).reply
      ensures script == Rest(old(script))
      ensures now == old(now) + Next(old(script)).latency
      ensures log == old(log) + [request]
    {
      var exchange := Next(script);
      reply := exchange.reply;
      script := Rest(script);
      now := now + exchange.latency;
      log := log + [request];
    }
  }

  /** `url` after `appendPathComponent` of each component in turn, every one
      but the last as a directory. */
  function Appended(url: Url, components: seq<string>): (u: Url)
    ensures u.origin == url.origin
    ensures |u.path| == |url.path| + |components|
    ensures u.path[..|url.path|] == url.path
    ensures forall j :: |url.path| <= j < |u.path| ==> u.path[j].name == components[j - |url.path|]
    ensures forall j :: |url.path| <= j < |u.path| ==> (u.path[j].isDirectory <==> j < |u.path| - 1)
    decreases |components|
  {
    if components == [] then url
    else
      var next := Url(url.origin, url.path + [Segment(components[0], |components| > 1)]);
      var u := Appended(next, components[1..]);
      assert u.path[|url.path|] == next.path[|url.path|];
      u
  }

  /** The HTTP request a request value becomes. */
  function UrlRequestFor(serverUrl: Url, request: Request): UrlRequest {
    UrlRequest(
      Appended(serverUrl, request.pathComponents),
      request.requestMethod.RawValue(),
      if request.body.Some? then Some(JsonContentType) else None,
      request.body)
  }

  /** `buildURLRequest`: append the path components one by one, then set the
      method, and attach a JSON body only when the request type has one. */
  method BuildUrlRequest(serverUrl: Url, request: Request) returns (r: UrlRequest)
    ensures r == UrlRequestFor(serverUrl, request)
    ensures r.url.path[..|serverUrl.path|] == serverUrl.path
    ensures r.httpMethod == request.requestMethod.RawValue()
    ensures r.contentType == Some(JsonContentType) <==> request.body.Some?
    ensures r.httpBody == request.body
  {
    var components := request.pathComponents;
    var url := serverUrl;
    var index := 0;
    while index < |components|
      invariant 0 <= index <= |components|
      invariant url.origin == serverUrl.origin
      invariant Appended(url, components[index..]) == Appended(serverUrl, components)
    {
      var last := index == |components| - 1;
      assert components[index..][1..] == components[index + 1..];
      url := Url(url.origin, url.path + [Segment(components[index], !last)]);
      index := index + 1;
    }
    var contentType: Option<string> := None;
    var httpBody: Option<Body> := None;
    if request.body.Some? {
      contentType := Some(JsonContentType);
      httpBody := request.body;
    }
    r := UrlRequest(url, request.requestMethod.RawValue(), contentType, httpBody);
  }

  /** The error a non-200 reply throws: its body decoded as an `ErrorResponse`. */
  function ErrorResponseFailure(p: Payload): Failure {
    match p.errorBody
    case Some(e) => ServerError(e)
    case None => DecodingFailure
  }

  /** `send`: a non-200 status throws the decoded error response; a 200 decodes
      the body against the request's response shape. */
  function Classify(shape: Shape, reply: Reply): (r: Result<Value, Failure>)
    ensures r.Ok? ==> reply.HttpResponse? && reply.statusCode == 200 && Conforms(r.value, shape)
    ensures r.Ok? ==> shape in reply.payload.decodings && reply.payload.decodings[shape] == r.value
    ensures r.Err? && r.error.ServerError? <==>
              reply.HttpResponse? && reply.statusCode != 200 && reply.payload.errorBody.Some?
    ensures r.Err? && r.error.ServerError? ==> r.error.response == reply.payload.errorBody.value
    ensures r.Err? ==> r.error.TransportFailure? || r.error.ServerError? || r.error.DecodingFailure?
    ensures reply.Unreachable? <==> r == Err(TransportFailure)
    ensures reply.HttpResponse? && reply.statusCode == 200 && Decodes(reply.payload, shape) ==>
              r == Ok(reply.payload.decodings[shape])
    ensures reply.HttpResponse? && reply.statusCode == 200 && !Decodes(reply.payload, shape) ==>
              r == Err(DecodingFailure)
  {
    match reply
    case Unreachable => Err(TransportFailure)
    case HttpResponse(status, payload) =>
      if status != 200 then Err(ErrorResponseFailure(payload))
      else Decode(payload, shape)
  }

  /** `detectProtocol`: the answer to the status probe is tried as the legacy
      shape first, then as the W3C shape. */
  function Detect(reply: Reply): (r: Result<WireProtocol, Failure>)
    ensures r.Ok? ==> reply.HttpResponse? && reply.statusCode == 200
    ensures r == Ok(LegacySelenium) <==>
              reply.HttpResponse? && reply.statusCode == 200 && Decodes(reply.payload, LegacyStatusShape)
    ensures r == Ok(W3C) <==>
              reply.HttpResponse? && reply.statusCode == 200 && !Decodes(reply.payload, LegacyStatusShape)
              && Decodes(reply.payload, W3CStatusShape)
    ensures r == Err(ProtocolDetectionFailure) <==>
              reply.HttpResponse? && reply.statusCode == 200 && !Decodes(reply.payload, LegacyStatusShape)
              && !Decodes(reply.payload, W3CStatusShape)
    ensures reply.HttpResponse? && reply.statusCode != 200 ==> r == Err(ErrorResponseFailure(reply.payload))
    ensures reply.Unreachable? <==> r == Err(TransportFailure)
  {
    match reply
    case Unreachable => Err(TransportFailure)
    case HttpResponse(status, payload) =>
      if status != 200 then Err(ErrorResponseFailure(payload))
      else if Decodes(payload, LegacyStatusShape) then Ok(LegacySelenium)
      else if Decodes(payload, W3CStatusShape) then Ok(W3C)
      else Err(ProtocolDetectionFailure)
  }

  /** The request `status()` sends in each dialect. */
  function StatusRequest(wireProtocol: WireProtocol): Request {
    match wireProtocol
    case LegacySelenium => LegacySelenium.Status()
    case W3C => W3C.Status()
  }

  /** `status()`: the legacy body is the status record; the W3C body is its envelope. */
  function StatusResult(wireProtocol: WireProtocol, reply: Reply): (r: Result<WebDriverStatus, Failure>)
    ensures var classified := Classify(StatusRequest(wireProtocol).response, reply);
            && (r.Ok? <==> classified.Ok?)
            && (r.Err? ==> r.error == classified.error)
    ensures r.Ok? && wireProtocol == LegacySelenium ==>
              reply.HttpResponse? && reply.statusCode == 200
              && reply.payload.decodings[LegacyStatusShape] == Value.Status(r.value)
    ensures r.Ok? && wireProtocol == W3C ==>
              reply.HttpResponse? && reply.statusCode == 200
              && reply.payload.decodings[W3CStatusShape] == Envelope(Value.Status(r.value))
  {
    var r := Classify(StatusRequest(wireProtocol).response, reply);
    if r.Err? then Err(r.error)
    else match wireProtocol
      case LegacySelenium => Ok(LegacySelenium.StatusOf(r.value))
      case W3C => Ok(W3C.StatusOf(r.value))
  }

  /** The client of one server in one dialect (`HTTPWebDriver`). Whether an
      error status is an inconclusive interaction is pluggable; the HTTP
      driver keeps the default, under which no status is. */
  class WebDriver {
    const server: Server
    const serverUrl: Url
    const wireProtocol: WireProtocol
    const inconclusiveStatuses: iset<ErrorStatus>

    constructor (server: Server, endpoint: Url, wireProtocol: WireProtocol)
      ensures this.server == server && serverUrl == endpoint && this.wireProtocol == wireProtocol
      ensures inconclusiveStatuses == iset{}
    {
      this.server := server;
      serverUrl := endpoint;
      this.wireProtocol := wireProtocol;
      inconclusiveStatuses := iset{};
    }

    /** A driver that overrides `isInconclusiveInteraction` to accept `statuses`. */
    constructor WithInconclusiveStatuses(server: Server, endpoint: Url, wireProtocol: WireProtocol, statuses: iset<ErrorStatus>)
      ensures this.server == server && serverUrl == endpoint && this.wireProtocol == wireProtocol
      ensures inconclusiveStatuses == statuses
    {
      this.server := server;
      serverUrl := endpoint;
      this.wireProtocol := wireProtocol;
      inconclusiveStatuses := statuses;
    }

    predicate IsInconclusiveInteraction(status: ErrorStatus) {
      status in inconclusiveStatuses
    }

    /** Probe `status` once with the legacy Status request and classify the answer. */
    static method DetectProtocol(server: Server, serverUrl: Url) returns (r: Result<WireProtocol, Failure>)
      modifies server
      ensures server.log == old(server.log) + [UrlRequestFor(serverUrl, LegacySelenium.Status())]
      ensures server.script == Rest(old(server.script))
      ensures server.now == old(server.now) + Next(old(server.script)).latency
      ensures r == Detect(Next(old(server.script)).reply)
    {
      var urlRequest := BuildUrlRequest(serverUrl, LegacySelenium.Status());
      var reply := server.Perform(urlRequest);
      r := Detect(reply);
    }

    static method CreateWithDetectedProtocol(server: Server, serverUrl: Url) returns (r: Result<WebDriver, Failure>)
      modifies server
      ensures server.log == old(server.log) + [UrlRequestFor(serverUrl, LegacySelenium.Status())]
      ensures server.script == Rest(old(server.script))
      ensures r.Ok? <==> Detect(Next(old(server.script)).reply).Ok?
      ensures r.Ok? ==> fresh(r.value) && r.value.server == server && r.value.serverUrl == serverUrl
                        && r.value.wireProtocol == Detect(Next(old(server.script)).reply).value
                        && r.value.inconclusiveStatuses == iset{}
      ensures r.Err? ==> r.error == Detect(Next(old(server.script)).reply).error
    {
      var detected := DetectProtocol(server, serverUrl);
      if detected.Err? {
        return Err(detected.error);
      }
      var driver := new WebDriver(server, serverUrl, detected.value);
      r := Ok(driver);
    }

    /** Send one request and decode its response or its error. */
    method Send(request: Request) returns (r: Result<Value, Failure>)
      modifies server
      ensures server.log == old(server.log) + [UrlRequestFor(serverUrl, request)]
      ensures server.script == Rest(old(server.script))
      ensures server.now == old(server.now) + Next(old(server.script)).latency
      ensures r == Classify(request.response, Next(old(server.script)).reply)
    {
      var urlRequest := BuildUrlRequest(serverUrl, request);
      var reply := server.Perform(urlRequest);
      r := Classify(request.response, reply);
    }

    /** `status()`: one request, the dialect's Status. */
    method Status() returns (r: Result<WebDriverStatus, Failure>)
      modifies server
      ensures server.log == old(server.log) + [UrlRequestFor(serverUrl, StatusRequest(wireProtocol))]
      ensures server.script == Rest(old(server.script))
      ensures r == StatusResult(wireProtocol, Next(old(server.script)).reply)
    {
      var response := Send(StatusRequest(wireProtocol));
      if response.Err? {
        return Err(response.error);
      }
      match wireProtocol
      case LegacySelenium => r := Ok(LegacySelenium.StatusOf(response.value));
      case W3C => r := Ok(W3C.StatusOf(response.value));
    }
  }
}

/** Value types shared by both wire dialects: the dialect itself, HTTP methods,
    the error taxonomy, capabilities, the abstract JSON payloads a server sends
    back, and how such a payload decodes against the shape a request expects. */
module Wire {

  datatype Option<+T> = None | Some(value: T) {
    /** Swift's `x ?? default`. */
    function GetOr(default: T): T {
      match this
      case Some(v) => v
      case None => default
    }
  }

  /** The outcome of a Swift `throws` function: a value, or the error it throws. */
  datatype Result<+T, +E> = Ok(value: T) | Err(error: E)

  /** The two wire dialects a server may speak; fixed once detected. */
  datatype WireProtocol = LegacySelenium | W3C

  datatype HttpMethod = Get | Post | Delete {
    function RawValue(): string {
      match this
      case Get => "GET"
      case Post => "POST"
      case Delete => "DELETE"
    }
  }

  /** The status taxonomy of an error response; only `NoSuchElement` is
      singled out by the session engine, the rest are carried along. */
  datatype ErrorStatus =
    | NoSuchElement
    | NoSuchWindow
    | StaleElementReference
    | ElementNotVisible
    | InvalidElementState
    | ElementNotInteractable
    | Timeout
    | UnknownCommand
    | UnknownError
    | OtherStatus(code: int)

  datatype ErrorResponse = ErrorResponse(status: ErrorStatus, message: string)

  /** The capability record is opaque to the core except for the implicit
      wait it may carry, in integer milliseconds. */
  datatype Timeouts = Timeouts(script: Option<int>, pageLoad: Option<int>, implicit: Option<int>)
  datatype Capabilities = Capabilities(platformName: Option<string>, timeouts: Option<Timeouts>)

  const NoCapabilities := Capabilities(None, None)

  datatype WebDriverStatus = WebDriverStatus(ready: Option<bool>, message: Option<string>)

  /** A locator strategy and its value, as sent in `{using, value}`. */
  datatype Locator = Locator(using: string, value: string)

  /** Every error an operation of the core can throw. */
  datatype Failure =
    | TransportFailure
    | ServerError(response: ErrorResponse)
    | DecodingFailure
    | ProtocolDetectionFailure
    | NoSuchElementFailure(locator: Locator, source: Failure)

  /** A decoded JSON response body. `Envelope` is `ResponseWithValue<T>`,
      i.e. `{value: T}`; `Empty` is `CodableNone`. */
  datatype Value =
    | Empty
    | Status(status: WebDriverStatus)
    | LegacySessionReply(sessionId: string, caps: Capabilities)
    | NewSession(sessionId: string, capabilities: Capabilities)
    | ElementRef(element: string)
    | ElementRefs(elements: seq<string>)
    | Text(text: string)
    | Flag(flag: bool)
    | Point(x: int, y: int)
    | Extent(width: int, height: int)
    | Envelope(value: Value)

  /** The `Response` type a request declares, i.e. the shape its body is decoded against. */
  datatype Shape =
    | NoContent
    | LegacyStatusShape
    | W3CStatusShape
    | LegacySessionShape
    | W3CSessionShape
    | ElementShape
    | ElementsShape
    | TextShape
    | FlagShape
    | PointShape
    | ExtentShape

  predicate Conforms(v: Value, s: Shape) {
    match s
    case NoContent => v.Empty?
    case LegacyStatusShape => v.Status?
    case W3CStatusShape => v.Envelope? && v.value.Status?
    case LegacySessionShape => v.LegacySessionReply?
    case W3CSessionShape => v.Envelope? && v.value.NewSession?
    case ElementShape => v.Envelope? && v.value.ElementRef?
    case ElementsShape => v.Envelope? && v.value.ElementRefs?
    case TextShape => v.Envelope? && v.value.Text?
    case FlagShape => v.Envelope? && v.value.Flag?
    case PointShape => v.Envelope? && v.value.Point?
    case ExtentShape => v.Envelope? && v.value.Extent?
  }

  /** A response body, abstracted from its bytes: what it decodes to as an
      `ErrorResponse`, and what it decodes to against each response shape.
      A shape missing from `decodings` is a body that does not decode as it. */
  datatype Payload = Payload(errorBody: Option<ErrorResponse>, decodings: map<Shape, Value>)

  /** `JSONDecoder().decode(Shape, from: payload)`. */
  function Decode(p: Payload, s: Shape): (r: Result<Value, Failure>)
    ensures r.Ok? <==> s in p.decodings && Conforms(p.decodings[s], s)
    ensures r.Ok? ==> Conforms(r.value, s) && r.value == p.decodings[s]
    ensures r.Err? ==> r.error == DecodingFailure
  {
    if s in p.decodings && Conforms(p.decodings[s], s) then Ok(p.decodings[s]) else Err(DecodingFailure)
  }

  predicate Decodes(p: Payload, s: Shape) {
    Decode(p, s).Ok?
  }
}

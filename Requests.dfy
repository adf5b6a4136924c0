/** A request is a value: its path components, HTTP method, optional JSON
    body and the shape its response decodes against. This module holds the
    body shapes and the session-scoped requests the session engine and the
    element handle send; the dialect-specific requests are in the modules
    LegacySelenium and W3C. */
module Requests {
  import opened Wire

  /** The kind of a touch click; each kind is its own JSON wire protocol endpoint. */
  datatype TouchClickKind = Single | Double | LongPress {
    /** The `touch/…` endpoint of this kind. */
    function Endpoint(): string {
      match this
      case Single => "click"
      case Double => "doubleclick"
      case LongPress => "longclick"
    }
  }

  /** The `{capabilities: {alwaysMatch, firstMatch}}` member of a W3C New Session body. */
  datatype MatchCapabilities = MatchCapabilities(alwaysMatch: Capabilities, firstMatch: Option<seq<Capabilities>>)

  /** The JSON bodies the core sends; a request without one has the `CodableNone` body type. */
  datatype Body =
    | LegacySessionBody(desiredCapabilities: Capabilities, requiredCapabilities: Option<Capabilities>)
    | W3CSessionBody(capabilities: MatchCapabilities)
    | TimeoutsBody(script: Option<real>, pageLoad: Option<real>, implicit: Option<real>)
    | LocatorBody(using: string, value: string)
    | KeysBody(keys: seq<string>)
    | TouchElementBody(element: string)
    | FlickElementBody(element: string, xOffset: real, yOffset: real, speed: real)
    | FlickBody(xSpeed: real, ySpeed: real)

  datatype Request = Request(pathComponents: seq<string>, requestMethod: HttpMethod, body: Option<Body>, response: Shape)

  /** The `session/{id}/…` prefix every session-scoped request starts with. */
  function SessionPath(session: string, rest: seq<string>): seq<string> {
    ["session", session] + rest
  }

  /** `session/{id}/element/{element}/…` */
  function ElementPath(session: string, element: string, rest: seq<string>): seq<string> {
    SessionPath(session, ["element", element] + rest)
  }

  function SessionDelete(session: string): Request {
    Request(SessionPath(session, []), Delete, None, NoContent)
  }

  function SessionTimeouts(session: string, script: Option<real>, pageLoad: Option<real>, implicit: Option<real>): Request {
    Request(SessionPath(session, ["timeouts"]), Post, Some(TimeoutsBody(script, pageLoad, implicit)), NoContent)
  }

  function SessionActiveElement(session: string): Request {
    Request(SessionPath(session, ["element", "active"]), Post, None, ElementShape)
  }

  /** Find one element, from the session root or below `element`. */
  function SessionElement(session: string, element: Option<string>, locator: Locator): Request {
    var path := match element
      case None => SessionPath(session, ["element"])
      case Some(e) => ElementPath(session, e, ["element"]);
    Request(path, Post, Some(LocatorBody(locator.using, locator.value)), ElementShape)
  }

  /** Find all matching elements, from the session root or below `element`. */
  function SessionElements(session: string, element: Option<string>, locator: Locator): Request {
    var path := match element
      case None => SessionPath(session, ["elements"])
      case Some(e) => ElementPath(session, e, ["elements"]);
    Request(path, Post, Some(LocatorBody(locator.using, locator.value)), ElementsShape)
  }

  function SessionTouchFlick(session: string, xSpeed: real, ySpeed: real): Request {
    Request(SessionPath(session, ["touch", "flick"]), Post, Some(FlickBody(xSpeed, ySpeed)), NoContent)
  }

  function ElementText(session: string, element: string): Request {
    Request(ElementPath(session, element, ["text"]), Get, None, TextShape)
  }

  function ElementLocation(session: string, element: string): Request {
    Request(ElementPath(session, element, ["location"]), Get, None, PointShape)
  }

  function ElementSize(session: string, element: string): Request {
    Request(ElementPath(session, element, ["size"]), Get, None, ExtentShape)
  }

  function ElementDisplayed(session: string, element: string): Request {
    Request(ElementPath(session, element, ["displayed"]), Get, None, FlagShape)
  }

  function ElementEnabled(session: string, element: string): Request {
    Request(ElementPath(session, element, ["enabled"]), Get, None, FlagShape)
  }

  function ElementSelected(session: string, element: string): Request {
    Request(ElementPath(session, element, ["selected"]), Get, None, FlagShape)
  }

  function ElementClick(session: string, element: string): Request {
    Request(ElementPath(session, element, ["click"]), Post, None, NoContent)
  }

  function SessionTouchClick(session: string, kind: TouchClickKind, element: string): Request {
    Request(SessionPath(session, ["touch", kind.Endpoint()]), Post, Some(TouchElementBody(element)), NoContent)
  }

  /** A touch click of the double kind is the same request as a touch double click. */
  lemma TouchDoubleClickIsDoubleClick(session: string, element: string)
    ensures SessionTouchClick(session, Double, element) == SessionTouchDoubleClick(session, element)
  {
  }

  function SessionTouchDoubleClick(session: string, element: string): Request {
    Request(SessionPath(session, ["touch", "doubleclick"]), Post, Some(TouchElementBody(element)), NoContent)
  }

  function SessionTouchFlickElement(session: string, element: string, xOffset: real, yOffset: real, speed: real): Request {
    Request(SessionPath(session, ["touch", "flick"]), Post, Some(FlickElementBody(element, xOffset, yOffset, speed)), NoContent)
  }

  function ElementAttribute(session: string, element: string, attribute: string): Request {
    Request(ElementPath(session, element, ["attribute", attribute]), Get, None, TextShape)
  }

  function ElementValue(session: string, element: string, text: string): Request {
    Request(ElementPath(session, element, ["value"]), Post, Some(KeysBody([text])), NoContent)
  }

  function ElementClear(session: string, element: string): Request {
    Request(ElementPath(session, element, ["clear"]), Post, None, NoContent)
  }
}

/** The session engine: a remote session's id and capabilities, its implicit
    wait (enforced by the server, or emulated by polling once the server has
    refused it), the at-most-once, owner-only deletion flag, and the retry
    policies of element lookup and interactions. */
module Sessions {
  import opened Wire
  import opened Requests
  import opened Http
  import opened Polling
  import LegacySelenium
  import W3C

  /** A handle on a remote element: the session it belongs to (not owned)
      and an id meaningful only within that session. */
  datatype Element = Element(session: Session, id: string)

  /** The implicit wait a session starts with: the capabilities' implicit
      timeout, given in milliseconds, as seconds; zero when absent. */
  function InitialImplicitWait(capabilities: Capabilities): (seconds: real)
    ensures capabilities.timeouts.None? || capabilities.timeouts.value.implicit.None? ==> seconds == 0.0
    ensures capabilities.timeouts.Some? && capabilities.timeouts.value.implicit.Some? ==>
              seconds * 1000.0 == capabilities.timeouts.value.implicit.value as real
  {
    match capabilities.timeouts
    case Some(Timeouts(_, _, Some(milliseconds))) => milliseconds as real / 1000.0
    case _ => 0.0
  }

  /** A duration in seconds as the milliseconds the Timeouts request carries. */
  function Millis(seconds: Option<real>): Option<real> {
    match seconds
    case Some(s) => Some(s * 1000.0)
    case None => None
  }

  /** The outcome of a request whose response carries nothing. */
  function Discarded(r: Result<Value, Failure>): Result<(), Failure> {
    match r
    case Ok(_) => Ok(())
    case Err(e) => Err(e)
  }

  /** The poll budget of a lookup: zero while the server enforces the
      implicit wait, else the per-call wait or the implicit wait. */
  function SearchTimeout(emulate: bool, waitTimeout: Option<real>, implicitWait: real): real {
    if emulate then waitTimeout.GetOr(implicitWait) else 0.0
  }

  const NotFound: iset<ErrorStatus> := iset{NoSuchElement}

  /** Single lookup: every error that escapes the poll, not only
      `noSuchElement`, is wrapped with the locator used. */
  function FoundElement(session: Session, locator: Locator, polled: Result<Value, Failure>): (r: Result<Element, Failure>)
    requires polled.Ok? ==> Conforms(polled.value, ElementShape)
    ensures r.Ok? <==> polled.Ok?
    ensures r.Ok? ==> r.value.session == session && polled.value == Envelope(ElementRef(r.value.id))
    ensures r.Err? ==> r.error == NoSuchElementFailure(locator, polled.error)
  {
    match polled
    case Ok(v) => Ok(Element(session, v.value.element))
    case Err(e) => Err(NoSuchElementFailure(locator, e))
  }

  /** Plural lookup: a terminal `noSuchElement` means nothing was found;
      every other error propagates as it is. */
  function FoundElements(session: Session, polled: Result<Value, Failure>): (r: Result<seq<Element>, Failure>)
    requires polled.Ok? ==> Conforms(polled.value, ElementsShape)
    ensures polled.Err? && Retryable(polled.error, NotFound) ==> r == Ok([])
    ensures r.Err? <==> polled.Err? && !Retryable(polled.error, NotFound)
    ensures r.Err? ==> r.error == polled.error
    ensures polled.Ok? ==> r.Ok? && |r.value| == |polled.value.value.elements|
    ensures polled.Ok? ==> forall i :: 0 <= i < |r.value| ==>
              r.value[i] == Element(session, polled.value.value.elements[i])
  {
    match polled
    case Ok(v) => Ok(seq(|v.value.elements|, i requires 0 <= i < |v.value.elements| => Element(session, v.value.elements[i])))
    case Err(e) => if Retryable(e, NotFound) then Ok([]) else Err(e)
  }

  /** The active element, or none when the server reports `noSuchElement`. */
  function ActiveElementResult(session: Session, response: Result<Value, Failure>): (r: Result<Option<Element>, Failure>)
    requires response.Ok? ==> Conforms(response.value, ElementShape)
    ensures response.Ok? ==> r == Ok(Some(Element(session, response.value.value.element)))
    ensures r == Ok(None) <==> response.Err? && Retryable(response.error, NotFound)
    ensures r.Err? <==> response.Err? && !Retryable(response.error, NotFound)
    ensures r.Err? ==> r.error == response.error
  {
    match response
    case Ok(v) => Ok(Some(Element(session, v.value.element)))
    case Err(e) => if Retryable(e, NotFound) then Ok(None) else Err(e)
  }

  /** The block `withImplicitWaitTimeout` runs: one of the two lookups. */
  datatype Search =
    | FindOne(root: Option<Element>, locator: Locator, waitTimeout: Option<real>)
    | FindAll(root: Option<Element>, locator: Locator, waitTimeout: Option<real>)

  datatype Found = One(element: Element) | Many(elements: seq<Element>)

  class Session {
    const driver: WebDriver
    const id: string
    const capabilities: Capabilities
    /** The authoritative implicit wait, in seconds. */
    var implicitWaitTimeout: real
    /** Set once the server has refused an implicit wait; never cleared. */
    var emulateImplicitWait: bool
    /** Set while this client owns the remote session and has not deleted it. */
    var shouldDelete: bool
    var implicitInteractionRetryTimeout: real

    /** Attach to a session by id; only a session this client created is owned. */
    constructor (driver: WebDriver, existingId: string, capabilities: Capabilities := NoCapabilities, owned: bool := false)
      ensures this.driver == driver && id == existingId && this.capabilities == capabilities
      ensures implicitWaitTimeout == InitialImplicitWait(capabilities)
      ensures !emulateImplicitWait && shouldDelete == owned && implicitInteractionRetryTimeout == 0.0
    {
      this.driver := driver;
      id := existingId;
      this.capabilities := capabilities;
      implicitWaitTimeout := InitialImplicitWait(capabilities);
      emulateImplicitWait := false;
      shouldDelete := owned;
      implicitInteractionRetryTimeout := 0.0;
    }

    /** What a freshly created session looks like. */
    ghost predicate Established(driver: WebDriver, id: string, capabilities: Capabilities)
      reads this
    {
      && this.driver == driver && this.id == id && this.capabilities == capabilities
      && implicitWaitTimeout == InitialImplicitWait(capabilities)
      && !emulateImplicitWait && shouldDelete && implicitInteractionRetryTimeout == 0.0
    }

    /** New Session under the legacy dialect. */
    static method CreateLegacy(driver: WebDriver, desiredCapabilities: Capabilities, requiredCapabilities: Option<Capabilities> := None)
      returns (r: Result<Session, Failure>)
      modifies driver.server
      ensures driver.server.log == old(driver.server.log)
                + [UrlRequestFor(driver.serverUrl, LegacySelenium.Session(desiredCapabilities, requiredCapabilities))]
      ensures driver.server.script == Rest(old(driver.server.script))
      ensures var response := Classify(LegacySessionShape, Next(old(driver.server.script)).reply);
              && (r.Ok? <==> response.Ok?)
              && (r.Err? ==> r.error == response.error)
              && (r.Ok? ==>
                    && fresh(r.value)
                    && var (sessionId, negotiated) := LegacySelenium.Established(response.value);
                       r.value.Established(driver, sessionId, negotiated))
    {
      var response := driver.Send(LegacySelenium.Session(desiredCapabilities, requiredCapabilities));
      if response.Err? {
        return Err(response.error);
      }
      var (sessionId, negotiated) := LegacySelenium.Established(response.value);
      var session := new Session(driver, sessionId, negotiated, true);
      r := Ok(session);
    }

    /** New Session under the W3C dialect. */
    static method CreateW3C(driver: WebDriver, alwaysMatch: Capabilities, firstMatch: seq<Capabilities> := [])
      returns (r: Result<Session, Failure>)
      modifies driver.server
      ensures driver.server.log == old(driver.server.log)
                + [UrlRequestFor(driver.serverUrl, W3C.Session(alwaysMatch, firstMatch))]
      ensures driver.server.script == Rest(old(driver.server.script))
      ensures var response := Classify(W3CSessionShape, Next(old(driver.server.script)).reply);
              && (r.Ok? <==> response.Ok?)
              && (r.Err? ==> r.error == response.error)
              && (r.Ok? ==>
                    && fresh(r.value)
                    && var (sessionId, negotiated) := W3C.Established(response.value);
                       r.value.Established(driver, sessionId, negotiated))
    {
      var response := driver.Send(W3C.Session(alwaysMatch, firstMatch));
      if response.Err? {
        return Err(response.error);
      }
      var (sessionId, negotiated) := W3C.Established(response.value);
      var session := new Session(driver, sessionId, negotiated, true);
      r := Ok(session);
    }

    /** New Session in the driver's dialect: legacy asks for the capabilities
        as both desired and required, W3C as `alwaysMatch` with no `firstMatch`. */
    static method Create(driver: WebDriver, capabilities: Capabilities) returns (r: Result<Session, Failure>)
      modifies driver.server
      ensures driver.wireProtocol == LegacySelenium ==>
                driver.server.log == old(driver.server.log)
                  + [UrlRequestFor(driver.serverUrl, LegacySelenium.Session(capabilities, Some(capabilities)))]
      ensures driver.wireProtocol == W3C ==>
                driver.server.log == old(driver.server.log) + [UrlRequestFor(driver.serverUrl, W3C.Session(capabilities, []))]
      ensures driver.server.script == Rest(old(driver.server.script))
      ensures driver.wireProtocol == LegacySelenium ==>
                var response := Classify(LegacySessionShape, Next(old(driver.server.script)).reply);
                && (r.Ok? <==> response.Ok?)
                && (r.Err? ==> r.error == response.error)
                && (r.Ok? ==>
                      && fresh(r.value)
                      && var (sessionId, negotiated) := LegacySelenium.Established(response.value);
                         r.value.Established(driver, sessionId, negotiated))
      ensures driver.wireProtocol == W3C ==>
                var response := Classify(W3CSessionShape, Next(old(driver.server.script)).reply);
                && (r.Ok? <==> response.Ok?)
                && (r.Err? ==> r.error == response.error)
                && (r.Ok? ==>
                      && fresh(r.value)
                      && var (sessionId, negotiated) := W3C.Established(response.value);
                         r.value.Established(driver, sessionId, negotiated))
    {
      match driver.wireProtocol
      case LegacySelenium => r := CreateLegacy(driver, capabilities, Some(capabilities));
      case W3C => r := CreateW3C(driver, capabilities, []);
    }

    /** The HTTP request `request` becomes on this session's connection. */
    function OnWire(request: Request): UrlRequest {
      UrlRequestFor(driver.serverUrl, request)
    }

    /** `setTimeout`: every given duration is sent in milliseconds; the
        implicit wait is recorded only when given and accepted. */
    method SetTimeout(script: Option<real> := None, pageLoad: Option<real> := None, implicit: Option<real> := None) returns (r: Result<(), Failure>)
      modifies this`implicitWaitTimeout, driver.server
      ensures driver.server.log == old(driver.server.log) + [OnWire(SessionTimeouts(id, Millis(script), Millis(pageLoad), Millis(implicit)))]
      ensures driver.server.script == Rest(old(driver.server.script))
      ensures r == Discarded(Classify(NoContent, Next(old(driver.server.script)).reply))
      ensures implicitWaitTimeout == if r.Ok? && implicit.Some? then implicit.value else old(implicitWaitTimeout)
    {
      var response := driver.Send(SessionTimeouts(id, Millis(script), Millis(pageLoad), Millis(implicit)));
      r := Discarded(response);
      if r.Ok? && implicit.Some? {
        implicitWaitTimeout := implicit.value;
      }
    }

    /** `setImplicitWaitTimeout`: a no-op for the current value; otherwise
        the server is asked unless already emulating, a refusal switches to
        emulation for good, and the new value is recorded either way. */
    method SetImplicitWaitTimeout(newValue: real)
      modifies this`implicitWaitTimeout, this`emulateImplicitWait, driver.server
      ensures implicitWaitTimeout == newValue
      ensures old(emulateImplicitWait) ==> emulateImplicitWait
      ensures newValue == old(implicitWaitTimeout) || old(emulateImplicitWait) ==>
                emulateImplicitWait == old(emulateImplicitWait) && unchanged(driver.server)
      ensures newValue != old(implicitWaitTimeout) && !old(emulateImplicitWait) ==>
                && driver.server.log == old(driver.server.log) + [OnWire(SessionTimeouts(id, None, None, Some(newValue * 1000.0)))]
                && driver.server.script == Rest(old(driver.server.script))
                && emulateImplicitWait == Classify(NoContent, Next(old(driver.server.script)).reply).Err?
    {
      if newValue == implicitWaitTimeout {
        return;
      }
      if !emulateImplicitWait {
        var accepted := SetTimeout(None, None, Some(newValue));
        if accepted.Err? {
          emulateImplicitWait := true;
        }
      }
      implicitWaitTimeout := newValue;
    }

    function SearchRequest(block: Search): Request {
      match block
      case FindOne(root, locator, _) => SessionElement(id, if root.Some? then Some(root.value.id) else None, locator)
      case FindAll(root, locator, _) => SessionElements(id, if root.Some? then Some(root.value.id) else None, locator)
    }

    function SearchResult(block: Search, polled: Result<Value, Failure>): Result<Found, Failure>
      requires polled.Ok? ==> Conforms(polled.value, SearchRequest(block).response)
    {
      match block
      case FindOne(_, locator, _) =>
        var r := FoundElement(this, locator, polled);
        if r.Ok? then Ok(One(r.value)) else Err(r.error)
      case FindAll(_, _, _) =>
        var r := FoundElements(this, polled);
        if r.Ok? then Ok(Many(r.value)) else Err(r.error)
    }

    /** What a lookup can return: a single lookup an element of this session
        or a wrapped error; a plural one elements of this session or an error
        that is neither a `noSuchElement` response nor wrapped. */
    predicate Answers(block: Search, r: Result<Found, Failure>) {
      match block
      case FindOne(_, locator, _) =>
        && (r.Ok? ==> r.value.One? && r.value.element.session == this)
        && (r.Err? ==> r.error.NoSuchElementFailure? && r.error.locator == locator)
      case FindAll(_, _, _) =>
        && (r.Ok? ==> r.value.Many? && forall i :: 0 <= i < |r.value.elements| ==> r.value.elements[i].session == this)
        && (r.Err? ==> !Retryable(r.error, NotFound) && !r.error.NoSuchElementFailure?)
    }

    /** The body of a lookup: one poll, retrying only `noSuchElement`, with
        a budget only while emulating the implicit wait. */
    method RunSearch(block: Search) returns (r: Result<Found, Failure>)
      modifies driver.server
      ensures Answers(block, r)
      ensures var o := PollRun(old(driver.server.script), SearchRequest(block).response, NotFound,
                               SearchTimeout(emulateImplicitWait, block.waitTimeout, implicitWaitTimeout), 0.0);
              && (o.result.Ok? ==> Conforms(o.result.value, SearchRequest(block).response))
              && r == SearchResult(block, o.result)
              && driver.server.log == old(driver.server.log) + Repeat(OnWire(SearchRequest(block)), o.attempts)
              && driver.server.script == Drop(old(driver.server.script), o.attempts)
    {
      var timeout := SearchTimeout(emulateImplicitWait, block.waitTimeout, implicitWaitTimeout);
      ghost var script := driver.server.script;
      var polled := Poll(driver, SearchRequest(block), NotFound, timeout);
      PollRunLastAttempt(script, SearchRequest(block).response, NotFound, timeout, 0.0);
      r := SearchResult(block, polled);
    }

    /** `withImplicitWaitTimeout`: run the lookup under a different implicit
        wait and restore the previous one on every exit. */
    method WithImplicitWaitTimeout(value: Option<real>, block: Search) returns (r: Result<Found, Failure>)
      modifies this`implicitWaitTimeout, this`emulateImplicitWait, driver.server
      ensures implicitWaitTimeout == old(implicitWaitTimeout)
      ensures old(emulateImplicitWait) ==> emulateImplicitWait
      ensures Answers(block, r)
      ensures value.None? || value.value == old(implicitWaitTimeout) || old(emulateImplicitWait) ==>
                var o := PollRun(old(driver.server.script), SearchRequest(block).response, NotFound,
                                 SearchTimeout(old(emulateImplicitWait), block.waitTimeout, value.GetOr(old(implicitWaitTimeout))), 0.0);
                && (o.result.Ok? ==> Conforms(o.result.value, SearchRequest(block).response))
                && r == SearchResult(block, o.result)
                && emulateImplicitWait == old(emulateImplicitWait)
                && driver.server.log == old(driver.server.log) + Repeat(OnWire(SearchRequest(block)), o.attempts)
                && driver.server.script == Drop(old(driver.server.script), o.attempts)
      ensures value.Some? && value.value != old(implicitWaitTimeout) && !old(emulateImplicitWait) ==>
                var refused := Classify(NoContent, Next(old(driver.server.script)).reply).Err?;
                var o := PollRun(Rest(old(driver.server.script)), SearchRequest(block).response, NotFound,
                                 SearchTimeout(refused, block.waitTimeout, value.value), 0.0);
                var afterSearch := Drop(Rest(old(driver.server.script)), o.attempts);
                && (o.result.Ok? ==> Conforms(o.result.value, SearchRequest(block).response))
                && r == SearchResult(block, o.result)
                && emulateImplicitWait == (refused || Classify(NoContent, Next(afterSearch).reply).Err?)
                && driver.server.log == old(driver.server.log)
                     + [OnWire(SessionTimeouts(id, None, None, Some(value.value * 1000.0)))]
                     + Repeat(OnWire(SearchRequest(block)), o.attempts)
                     + (if refused then [] else [OnWire(SessionTimeouts(id, None, None, Some(old(implicitWaitTimeout) * 1000.0)))])
                && driver.server.script == if refused then afterSearch else Rest(afterSearch)
    {
      if value.Some? && value.value != implicitWaitTimeout {
        var previousValue := implicitWaitTimeout;
        SetImplicitWaitTimeout(value.value);
        r := RunSearch(block);
        SetImplicitWaitTimeout(previousValue);
      } else {
        r := RunSearch(block);
      }
    }

    /** `findElement(startingAt:locator:waitTimeout:)`. */
    method FindElement(startingAt: Option<Element>, locator: Locator, waitTimeout: Option<real>) returns (r: Result<Element, Failure>)
      requires startingAt.None? || startingAt.value.session == this
      modifies this`implicitWaitTimeout, this`emulateImplicitWait, driver.server
      ensures implicitWaitTimeout == old(implicitWaitTimeout)
      ensures old(emulateImplicitWait) ==> emulateImplicitWait
      ensures r.Ok? ==> r.value.session == this
      ensures r.Err? ==> r.error.NoSuchElementFailure? && r.error.locator == locator
      ensures waitTimeout.None? || waitTimeout.value == old(implicitWaitTimeout) || old(emulateImplicitWait) ==>
                var request := SessionElement(id, if startingAt.Some? then Some(startingAt.value.id) else None, locator);
                var o := PollRun(old(driver.server.script), ElementShape, NotFound,
                                 SearchTimeout(old(emulateImplicitWait), waitTimeout, old(implicitWaitTimeout)), 0.0);
                && r == FoundElement(this, locator, o.result)
                && emulateImplicitWait == old(emulateImplicitWait)
                && driver.server.log == old(driver.server.log) + Repeat(OnWire(request), o.attempts)
                && driver.server.script == Drop(old(driver.server.script), o.attempts)
      ensures waitTimeout.Some? && waitTimeout.value != old(implicitWaitTimeout) && !old(emulateImplicitWait) ==>
                var request := SessionElement(id, if startingAt.Some? then Some(startingAt.value.id) else None, locator);
                var refused := Classify(NoContent, Next(old(driver.server.script)).reply).Err?;
                var o := PollRun(Rest(old(driver.server.script)), ElementShape, NotFound,
                                 SearchTimeout(refused, waitTimeout, waitTimeout.value), 0.0);
                var afterSearch := Drop(Rest(old(driver.server.script)), o.attempts);
                && r == FoundElement(this, locator, o.result)
                && emulateImplicitWait == (refused || Classify(NoContent, Next(afterSearch).reply).Err?)
                && driver.server.log == old(driver.server.log)
                     + [OnWire(SessionTimeouts(id, None, None, Some(waitTimeout.value * 1000.0)))]
                     + Repeat(OnWire(request), o.attempts)
                     + (if refused then [] else [OnWire(SessionTimeouts(id, None, None, Some(old(implicitWaitTimeout) * 1000.0)))])
                && driver.server.script == if refused then afterSearch else Rest(afterSearch)
    {
      var found := WithImplicitWaitTimeout(waitTimeout, FindOne(startingAt, locator, waitTimeout));
      if found.Err? {
        return Err(found.error);
      }
      r := Ok(found.value.element);
    }

    /** `findElements(startingAt:locator:waitTimeout:)`. */
    method FindElements(startingAt: Option<Element>, locator: Locator, waitTimeout: Option<real>) returns (r: Result<seq<Element>, Failure>)
      modifies this`implicitWaitTimeout, this`emulateImplicitWait, driver.server
      ensures implicitWaitTimeout == old(implicitWaitTimeout)
      ensures old(emulateImplicitWait) ==> emulateImplicitWait
      ensures r.Ok? ==> forall i :: 0 <= i < |r.value| ==> r.value[i].session == this
      ensures r.Err? ==> !Retryable(r.error, NotFound) && !r.error.NoSuchElementFailure?
      ensures waitTimeout.None? || waitTimeout.value == old(implicitWaitTimeout) || old(emulateImplicitWait) ==>
                var request := SessionElements(id, if startingAt.Some? then Some(startingAt.value.id) else None, locator);
                var o := PollRun(old(driver.server.script), ElementsShape, NotFound,
                                 SearchTimeout(old(emulateImplicitWait), waitTimeout, old(implicitWaitTimeout)), 0.0);
                && r == FoundElements(this, o.result)
                && emulateImplicitWait == old(emulateImplicitWait)
                && driver.server.log == old(driver.server.log) + Repeat(OnWire(request), o.attempts)
                && driver.server.script == Drop(old(driver.server.script), o.attempts)
      ensures waitTimeout.Some? && waitTimeout.value != old(implicitWaitTimeout) && !old(emulateImplicitWait) ==>
                var request := SessionElements(id, if startingAt.Some? then Some(startingAt.value.id) else None, locator);
                var refused := Classify(NoContent, Next(old(driver.server.script)).reply).Err?;
                var o := PollRun(Rest(old(driver.server.script)), ElementsShape, NotFound,
                                 SearchTimeout(refused, waitTimeout, waitTimeout.value), 0.0);
                var afterSearch := Drop(Rest(old(driver.server.script)), o.attempts);
                && r == FoundElements(this, o.result)
                && emulateImplicitWait == (refused || Classify(NoContent, Next(afterSearch).reply).Err?)
                && driver.server.log == old(driver.server.log)
                     + [OnWire(SessionTimeouts(id, None, None, Some(waitTimeout.value * 1000.0)))]
                     + Repeat(OnWire(request), o.attempts)
                     + (if refused then [] else [OnWire(SessionTimeouts(id, None, None, Some(old(implicitWaitTimeout) * 1000.0)))])
                && driver.server.script == if refused then afterSearch else Rest(afterSearch)
    {
      var found := WithImplicitWaitTimeout(waitTimeout, FindAll(startingAt, locator, waitTimeout));
      if found.Err? {
        return Err(found.error);
      }
      r := Ok(found.value.elements);
    }

    /** `sendInteraction`: poll the request under the retry timeout, retrying
        only what the driver calls an inconclusive interaction. */
    method SendInteraction(request: Request, retryTimeout: Option<real> := None) returns (r: Result<(), Failure>)
      requires request.response == NoContent
      modifies driver.server
      ensures var o := PollRun(old(driver.server.script), NoContent, driver.inconclusiveStatuses,
                               retryTimeout.GetOr(implicitInteractionRetryTimeout), 0.0);
              && r == Discarded(o.result)
              && driver.server.log == old(driver.server.log) + Repeat(OnWire(request), o.attempts)
              && driver.server.script == Drop(old(driver.server.script), o.attempts)
    {
      var polled := Poll(driver, request, driver.inconclusiveStatuses, retryTimeout.GetOr(implicitInteractionRetryTimeout));
      r := Discarded(polled);
    }

    /** Session-level flick, an interaction. */
    method Flick(xSpeed: real, ySpeed: real) returns (r: Result<(), Failure>)
      modifies driver.server
      ensures var o := PollRun(old(driver.server.script), NoContent, driver.inconclusiveStatuses,
                               implicitInteractionRetryTimeout, 0.0);
              && r == Discarded(o.result)
              && driver.server.log == old(driver.server.log) + Repeat(OnWire(SessionTouchFlick(id, xSpeed, ySpeed)), o.attempts)
              && driver.server.script == Drop(old(driver.server.script), o.attempts)
    {
      r := SendInteraction(SessionTouchFlick(id, xSpeed, ySpeed), None);
    }

    /** The focused element, if any. */
    method ActiveElement() returns (r: Result<Option<Element>, Failure>)
      modifies driver.server
      ensures driver.server.log == old(driver.server.log) + [OnWire(SessionActiveElement(id))]
      ensures driver.server.script == Rest(old(driver.server.script))
      ensures r == ActiveElementResult(this, Classify(ElementShape, Next(old(driver.server.script)).reply))
    {
      var response := driver.Send(SessionActiveElement(id));
      r := ActiveElementResult(this, response);
    }

    /** `delete`: only an owned, not yet deleted session sends the delete,
        and the flag is cleared only once the server has accepted it. */
    method Delete() returns (r: Result<(), Failure>)
      modifies this`shouldDelete, driver.server
      ensures !old(shouldDelete) ==> r == Ok(()) && !shouldDelete && unchanged(driver.server)
      ensures old(shouldDelete) ==>
                && driver.server.log == old(driver.server.log) + [OnWire(SessionDelete(id))]
                && driver.server.script == Rest(old(driver.server.script))
                && r == Discarded(Classify(NoContent, Next(old(driver.server.script)).reply))
                && shouldDelete == r.Err?
    {
      if !shouldDelete {
        return Ok(());
      }
      var response := driver.Send(SessionDelete(id));
      r := Discarded(response);
      if r.Ok? {
        shouldDelete := false;
      }
    }

    /** `deinit`: a best-effort delete of an owned session whose error is discarded. */
    method Teardown()
      modifies driver.server
      ensures !shouldDelete ==> unchanged(driver.server)
      ensures shouldDelete ==>
                && driver.server.log == old(driver.server.log) + [OnWire(SessionDelete(id))]
                && driver.server.script == Rest(old(driver.server.script))
    {
      if !shouldDelete {
        return;
      }
      var _ := driver.Send(SessionDelete(id));
    }
  }
}

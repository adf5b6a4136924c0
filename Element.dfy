/** The element handle: an immutable (session, id) pair whose queries are
    single requests addressed with the session's id and its own, whose
    interactions go through the session's interaction retry, and whose
    scoped lookups are the session's lookups started at the element. */
module Elements {
  import opened Wire
  import opened Requests
  import opened Http
  import opened Polling
  import opened Sessions

  /** The text of a `{value: string}` response. */
  function TextOf(response: Result<Value, Failure>): (r: Result<string, Failure>)
    requires response.Ok? ==> Conforms(response.value, TextShape)
    ensures r.Ok? <==> response.Ok?
    ensures r.Ok? ==> response.value == Envelope(Value.Text(r.value))
    ensures r.Err? ==> r.error == response.error
  {
    match response
    case Ok(v) => Ok(v.value.text)
    case Err(e) => Err(e)
  }

  /** The flag of a `{value: bool}` response. */
  function FlagOf(response: Result<Value, Failure>): (r: Result<bool, Failure>)
    requires response.Ok? ==> Conforms(response.value, FlagShape)
    ensures r.Ok? <==> response.Ok?
    ensures r.Ok? ==> response.value == Envelope(Flag(r.value))
    ensures r.Err? ==> r.error == response.error
  {
    match response
    case Ok(v) => Ok(v.value.flag)
    case Err(e) => Err(e)
  }

  /** `(x, y)` of a `{value: {x, y}}` response, fields unchanged. */
  function PointOf(response: Result<Value, Failure>): (r: Result<(int, int), Failure>)
    requires response.Ok? ==> Conforms(response.value, PointShape)
    ensures r.Ok? <==> response.Ok?
    ensures r.Ok? ==> response.value == Envelope(Point(r.value.0, r.value.1))
    ensures r.Err? ==> r.error == response.error
  {
    match response
    case Ok(v) => Ok((v.value.x, v.value.y))
    case Err(e) => Err(e)
  }

  /** `(width, height)` of a `{value: {width, height}}` response, fields unchanged. */
  function ExtentOf(response: Result<Value, Failure>): (r: Result<(int, int), Failure>)
    requires response.Ok? ==> Conforms(response.value, ExtentShape)
    ensures r.Ok? <==> response.Ok?
    ensures r.Ok? ==> response.value == Envelope(Extent(r.value.0, r.value.1))
    ensures r.Err? ==> r.error == response.error
  {
    match response
    case Ok(v) => Ok((v.value.width, v.value.height))
    case Err(e) => Err(e)
  }

  /** `text` */
  method Text(element: Element) returns (r: Result<string, Failure>)
    modifies element.session.driver.server
    ensures var server := element.session.driver.server;
            && server.log == old(server.log) + [element.session.OnWire(ElementText(element.session.id, element.id))]
            && server.script == Rest(old(server.script))
            && r == TextOf(Classify(TextShape, Next(old(server.script)).reply))
  {
    var response := element.session.driver.Send(ElementText(element.session.id, element.id));
    r := TextOf(response);
  }

  /** `location` */
  method Location(element: Element) returns (r: Result<(int, int), Failure>)
    modifies element.session.driver.server
    ensures var server := element.session.driver.server;
            && server.log == old(server.log) + [element.session.OnWire(ElementLocation(element.session.id, element.id))]
            && server.script == Rest(old(server.script))
            && r == PointOf(Classify(PointShape, Next(old(server.script)).reply))
  {
    var response := element.session.driver.Send(ElementLocation(element.session.id, element.id));
    r := PointOf(response);
  }

  /** `size` */
  method Size(element: Element) returns (r: Result<(int, int), Failure>)
    modifies element.session.driver.server
    ensures var server := element.session.driver.server;
            && server.log == old(server.log) + [element.session.OnWire(ElementSize(element.session.id, element.id))]
            && server.script == Rest(old(server.script))
            && r == ExtentOf(Classify(ExtentShape, Next(old(server.script)).reply))
  {
    var response := element.session.driver.Send(ElementSize(element.session.id, element.id));
    r := ExtentOf(response);
  }

  /** `displayed` */
  method Displayed(element: Element) returns (r: Result<bool, Failure>)
    modifies element.session.driver.server
    ensures var server := element.session.driver.server;
            && server.log == old(server.log) + [element.session.OnWire(ElementDisplayed(element.session.id, element.id))]
            && server.script == Rest(old(server.script))
            && r == FlagOf(Classify(FlagShape, Next(old(server.script)).reply))
  {
    var response := element.session.driver.Send(ElementDisplayed(element.session.id, element.id));
    r := FlagOf(response);
  }

  /** `enabled` */
  method Enabled(element: Element) returns (r: Result<bool, Failure>)
    modifies element.session.driver.server
    ensures var server := element.session.driver.server;
            && server.log == old(server.log) + [element.session.OnWire(ElementEnabled(element.session.id, element.id))]
            && server.script == Rest(old(server.script))
            && r == FlagOf(Classify(FlagShape, Next(old(server.script)).reply))
  {
    var response := element.session.driver.Send(ElementEnabled(element.session.id, element.id));
    r := FlagOf(response);
  }

  /** `selected` */
  method Selected(element: Element) returns (r: Result<bool, Failure>)
    modifies element.session.driver.server
    ensures var server := element.session.driver.server;
            && server.log == old(server.log) + [element.session.OnWire(ElementSelected(element.session.id, element.id))]
            && server.script == Rest(old(server.script))
            && r == FlagOf(Classify(FlagShape, Next(old(server.script)).reply))
  {
    var response := element.session.driver.Send(ElementSelected(element.session.id, element.id));
    r := FlagOf(response);
  }

  /** `getAttribute(name:)` */
  method GetAttribute(element: Element, name: string) returns (r: Result<string, Failure>)
    modifies element.session.driver.server
    ensures var server := element.session.driver.server;
            && server.log == old(server.log) + [element.session.OnWire(ElementAttribute(element.session.id, element.id, name))]
            && server.script == Rest(old(server.script))
            && r == TextOf(Classify(TextShape, Next(old(server.script)).reply))
  {
    var response := element.session.driver.Send(ElementAttribute(element.session.id, element.id, name));
    r := TextOf(response);
  }

  /** `sendKeys(_:)`: `keys` is the key sequence's raw text, sent as the one entry of `value`. */
  method SendKeys(element: Element, keys: string) returns (r: Result<(), Failure>)
    modifies element.session.driver.server
    ensures var server := element.session.driver.server;
            && server.log == old(server.log) + [element.session.OnWire(ElementValue(element.session.id, element.id, keys))]
            && server.script == Rest(old(server.script))
            && r == Discarded(Classify(NoContent, Next(old(server.script)).reply))
  {
    var response := element.session.driver.Send(ElementValue(element.session.id, element.id, keys));
    r := Discarded(response);
  }

  /** `clear()` */
  method Clear(element: Element) returns (r: Result<(), Failure>)
    modifies element.session.driver.server
    ensures var server := element.session.driver.server;
            && server.log == old(server.log) + [element.session.OnWire(ElementClear(element.session.id, element.id))]
            && server.script == Rest(old(server.script))
            && r == Discarded(Classify(NoContent, Next(old(server.script)).reply))
  {
    var response := element.session.driver.Send(ElementClear(element.session.id, element.id));
    r := Discarded(response);
  }

  /** `click(retryTimeout:)`, an interaction. */
  method Click(element: Element, retryTimeout: Option<real> := None) returns (r: Result<(), Failure>)
    modifies element.session.driver.server
    ensures var session := element.session;
            var o := PollRun(old(session.driver.server.script), NoContent, session.driver.inconclusiveStatuses,
                             retryTimeout.GetOr(session.implicitInteractionRetryTimeout), 0.0);
            && r == Discarded(o.result)
            && session.driver.server.log == old(session.driver.server.log)
                 + Repeat(session.OnWire(ElementClick(session.id, element.id)), o.attempts)
            && session.driver.server.script == Drop(old(session.driver.server.script), o.attempts)
  {
    r := element.session.SendInteraction(ElementClick(element.session.id, element.id), retryTimeout);
  }

  /** `touchClick(kind:retryTimeout:)`, an interaction. */
  method TouchClick(element: Element, kind: TouchClickKind := Single, retryTimeout: Option<real> := None) returns (r: Result<(), Failure>)
    modifies element.session.driver.server
    ensures var session := element.session;
            var o := PollRun(old(session.driver.server.script), NoContent, session.driver.inconclusiveStatuses,
                             retryTimeout.GetOr(session.implicitInteractionRetryTimeout), 0.0);
            && r == Discarded(o.result)
            && session.driver.server.log == old(session.driver.server.log)
                 + Repeat(session.OnWire(SessionTouchClick(session.id, kind, element.id)), o.attempts)
            && session.driver.server.script == Drop(old(session.driver.server.script), o.attempts)
  {
    r := element.session.SendInteraction(SessionTouchClick(element.session.id, kind, element.id), retryTimeout);
  }

  /** `doubleClick(retryTimeout:)`, an interaction. */
  method DoubleClick(element: Element, retryTimeout: Option<real> := None) returns (r: Result<(), Failure>)
    modifies element.session.driver.server
    ensures var session := element.session;
            var o := PollRun(old(session.driver.server.script), NoContent, session.driver.inconclusiveStatuses,
                             retryTimeout.GetOr(session.implicitInteractionRetryTimeout), 0.0);
            && r == Discarded(o.result)
            && session.driver.server.log == old(session.driver.server.log)
                 + Repeat(session.OnWire(SessionTouchDoubleClick(session.id, element.id)), o.attempts)
            && session.driver.server.script == Drop(old(session.driver.server.script), o.attempts)
  {
    r := element.session.SendInteraction(SessionTouchDoubleClick(element.session.id, element.id), retryTimeout);
  }

  /** `flick(xOffset:yOffset:speed:retryTimeout:)`, an interaction. */
  method Flick(element: Element, xOffset: real, yOffset: real, speed: real, retryTimeout: Option<real> := None) returns (r: Result<(), Failure>)
    modifies element.session.driver.server
    ensures var session := element.session;
            var o := PollRun(old(session.driver.server.script), NoContent, session.driver.inconclusiveStatuses,
                             retryTimeout.GetOr(session.implicitInteractionRetryTimeout), 0.0);
            && r == Discarded(o.result)
            && session.driver.server.log == old(session.driver.server.log)
                 + Repeat(session.OnWire(SessionTouchFlickElement(session.id, element.id, xOffset, yOffset, speed)), o.attempts)
            && session.driver.server.script == Drop(old(session.driver.server.script), o.attempts)
  {
    r := element.session.SendInteraction(SessionTouchFlickElement(element.session.id, element.id, xOffset, yOffset, speed), retryTimeout);
  }

  /** `findElement(locator:waitTimeout:)`: the session's lookup below this element. */
  method FindElement(element: Element, locator: Locator, waitTimeout: Option<real> := None) returns (r: Result<Element, Failure>)
    modifies element.session`implicitWaitTimeout, element.session`emulateImplicitWait, element.session.driver.server
    ensures var session := element.session;
            && session.implicitWaitTimeout == old(session.implicitWaitTimeout)
            && (old(session.emulateImplicitWait) ==> session.emulateImplicitWait)
            && (r.Ok? ==> r.value.session == session)
            && (r.Err? ==> r.error.NoSuchElementFailure? && r.error.locator == locator)
    ensures var session := element.session;
            var request := SessionElement(session.id, Some(element.id), locator);
            waitTimeout.None? || waitTimeout.value == old(session.implicitWaitTimeout) || old(session.emulateImplicitWait) ==>
              var o := PollRun(old(session.driver.server.script), ElementShape, NotFound,
                               SearchTimeout(old(session.emulateImplicitWait), waitTimeout, old(session.implicitWaitTimeout)), 0.0);
              && r == FoundElement(session, locator, o.result)
              && session.emulateImplicitWait == old(session.emulateImplicitWait)
              && session.driver.server.log == old(session.driver.server.log) + Repeat(session.OnWire(request), o.attempts)
              && session.driver.server.script == Drop(old(session.driver.server.script), o.attempts)
    ensures var session := element.session;
            var request := SessionElement(session.id, Some(element.id), locator);
            waitTimeout.Some? && waitTimeout.value != old(session.implicitWaitTimeout) && !old(session.emulateImplicitWait) ==>
              var refused := Classify(NoContent, Next(old(session.driver.server.script)).reply).Err?;
              var o := PollRun(Rest(old(session.driver.server.script)), ElementShape, NotFound,
                               SearchTimeout(refused, waitTimeout, waitTimeout.value), 0.0);
              var afterSearch := Drop(Rest(old(session.driver.server.script)), o.attempts);
              && r == FoundElement(session, locator, o.result)
              && session.emulateImplicitWait == (refused || Classify(NoContent, Next(afterSearch).reply).Err?)
              && session.driver.server.log == old(session.driver.server.log)
                   + [session.OnWire(SessionTimeouts(session.id, None, None, Some(waitTimeout.value * 1000.0)))]
                   + Repeat(session.OnWire(request), o.attempts)
                   + (if refused then [] else [session.OnWire(SessionTimeouts(session.id, None, None, Some(old(session.implicitWaitTimeout) * 1000.0)))])
              && session.driver.server.script == if refused then afterSearch else Rest(afterSearch)
  {
    r := element.session.FindElement(Some(element), locator, waitTimeout);
  }

  /** `findElements(locator:waitTimeout:)`: the session's plural lookup below this element. */
  method FindElements(element: Element, locator: Locator, waitTimeout: Option<real> := None) returns (r: Result<seq<Element>, Failure>)
    modifies element.session`implicitWaitTimeout, element.session`emulateImplicitWait, element.session.driver.server
    ensures var session := element.session;
            && session.implicitWaitTimeout == old(session.implicitWaitTimeout)
            && (old(session.emulateImplicitWait) ==> session.emulateImplicitWait)
            && (r.Ok? ==> forall i :: 0 <= i < |r.value| ==> r.value[i].session == session)
            && (r.Err? ==> !Retryable(r.error, NotFound) && !r.error.NoSuchElementFailure?)
    ensures var session := element.session;
            var request := SessionElements(session.id, Some(element.id), locator);
            waitTimeout.None? || waitTimeout.value == old(session.implicitWaitTimeout) || old(session.emulateImplicitWait) ==>
              var o := PollRun(old(session.driver.server.script), ElementsShape, NotFound,
                               SearchTimeout(old(session.emulateImplicitWait), waitTimeout, old(session.implicitWaitTimeout)), 0.0);
              && r == FoundElements(session, o.result)
              && session.emulateImplicitWait == old(session.emulateImplicitWait)
              && session.driver.server.log == old(session.driver.server.log) + Repeat(session.OnWire(request), o.attempts)
              && session.driver.server.script == Drop(old(session.driver.server.script), o.attempts)
    ensures var session := element.session;
            var request := SessionElements(session.id, Some(element.id), locator);
            waitTimeout.Some? && waitTimeout.value != old(session.implicitWaitTimeout) && !old(session.emulateImplicitWait) ==>
              var refused := Classify(NoContent, Next(old(session.driver.server.script)).reply).Err?;
              var o := PollRun(Rest(old(session.driver.server.script)), ElementsShape, NotFound,
                               SearchTimeout(refused, waitTimeout, waitTimeout.value), 0.0);
              var afterSearch := Drop(Rest(old(session.driver.server.script)), o.attempts);
              && r == FoundElements(session, o.result)
              && session.emulateImplicitWait == (refused || Classify(NoContent, Next(afterSearch).reply).Err?)
              && session.driver.server.log == old(session.driver.server.log)
                   + [session.OnWire(SessionTimeouts(session.id, None, None, Some(waitTimeout.value * 1000.0)))]
                   + Repeat(session.OnWire(request), o.attempts)
                   + (if refused then [] else [session.OnWire(SessionTimeouts(session.id, None, None, Some(old(session.implicitWaitTimeout) * 1000.0)))])
              && session.driver.server.script == if refused then afterSearch else Rest(afterSearch)
  {
    r := element.session.FindElements(Some(element), locator, waitTimeout);
  }
}

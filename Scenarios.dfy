/** Client-side compositions of the session engine's operations: what a
    sequence of calls sends and leaves behind, end to end. */
module Scenarios {
  import opened Wire
  import opened Requests
  import opened Http
  import opened Polling
  import opened Sessions

  /** A session attached by id is not owned: neither an explicit delete nor
      the teardown sends anything. */
  method AttachedSessionNeverDeletes(driver: WebDriver, existingId: string) returns (r: Result<(), Failure>)
    modifies driver.server
    ensures r == Ok(())
    ensures unchanged(driver.server)
  {
    var session := new Session(driver, existingId);
    r := session.Delete();
    session.Teardown();
  }

  /** Once a delete has been accepted, a second delete and the teardown send
      nothing: the remote session is deleted at most once. A refused delete
      leaves the session owned, so the next attempt, and the teardown after
      a second refusal, send it again. */
  method DeleteTwice(session: Session) returns (first: Result<(), Failure>, second: Result<(), Failure>)
    requires session.shouldDelete
    modifies session`shouldDelete, session.driver.server
    ensures first == Discarded(Classify(NoContent, Next(old(session.driver.server.script)).reply))
    ensures first.Ok? ==>
              && second == Ok(())
              && !session.shouldDelete
              && session.driver.server.log == old(session.driver.server.log) + [session.OnWire(SessionDelete(session.id))]
    ensures first.Err? ==>
              session.driver.server.log == old(session.driver.server.log)
                + [session.OnWire(SessionDelete(session.id)), session.OnWire(SessionDelete(session.id))]
                + (if second.Err? then [session.OnWire(SessionDelete(session.id))] else [])
  {
    first := session.Delete();
    second := session.Delete();
    session.Teardown();
  }

  /** Under the default driver no status is inconclusive, so an interaction
      is sent exactly once and its outcome is that of the one reply. */
  method InteractOnce(session: Session, request: Request) returns (r: Result<(), Failure>)
    requires session.driver.inconclusiveStatuses == iset{}
    requires request.response == NoContent
    modifies session.driver.server
    ensures session.driver.server.log == old(session.driver.server.log) + [session.OnWire(request)]
    ensures session.driver.server.script == Rest(old(session.driver.server.script))
    ensures r == Discarded(Classify(NoContent, Next(old(session.driver.server.script)).reply))
  {
    ghost var script := session.driver.server.script;
    r := session.SendInteraction(request, None);
    PollRunStep(script, NoContent, iset{}, session.implicitInteractionRetryTimeout, 0.0);
    assert Repeat(session.OnWire(request), 1) == [session.OnWire(request)];
  }

  /** While the server enforces the implicit wait, a lookup from the session
      root is a single request whose reply decides the outcome. */
  method FindOnce(session: Session, locator: Locator) returns (r: Result<Element, Failure>)
    requires !session.emulateImplicitWait
    modifies session`implicitWaitTimeout, session`emulateImplicitWait, session.driver.server
    ensures session.driver.server.log == old(session.driver.server.log) + [session.OnWire(SessionElement(session.id, None, locator))]
    ensures r == FoundElement(session, locator, Classify(ElementShape, Next(old(session.driver.server.script)).reply))
    ensures session.implicitWaitTimeout == old(session.implicitWaitTimeout)
    ensures !session.emulateImplicitWait
  {
    ghost var script := session.driver.server.script;
    r := session.FindElement(None, locator, None);
    PollRunStep(script, ElementShape, NotFound, 0.0, 0.0);
    assert Repeat(session.OnWire(SessionElement(session.id, None, locator)), 1) == [session.OnWire(SessionElement(session.id, None, locator))];
  }

  /** Overriding the wait on a server that refuses implicit waits switches
      the session to emulation for good, and the lookup then polls under
      the override. */
  method FindWithRefusedOverride(session: Session, locator: Locator, waitTimeout: real) returns (r: Result<Element, Failure>)
    requires !session.emulateImplicitWait
    requires waitTimeout != session.implicitWaitTimeout
    requires Classify(NoContent, Next(session.driver.server.script).reply).Err?
    modifies session`implicitWaitTimeout, session`emulateImplicitWait, session.driver.server
    ensures session.emulateImplicitWait
    ensures session.implicitWaitTimeout == old(session.implicitWaitTimeout)
    ensures var o := PollRun(Rest(old(session.driver.server.script)), ElementShape, NotFound, waitTimeout, 0.0);
            && r == FoundElement(session, locator, o.result)
            && session.driver.server.log == old(session.driver.server.log)
                 + [session.OnWire(SessionTimeouts(session.id, None, None, Some(waitTimeout * 1000.0)))]
                 + Repeat(session.OnWire(SessionElement(session.id, None, locator)), o.attempts)
  {
    r := session.FindElement(None, locator, Some(waitTimeout));
  }
}

/** The requests whose shape is specific to the W3C WebDriver Recommendation
    (New Session, section 8.1; Status, section 8.3): the New Session body
    nests the capabilities under `capabilities`, and both responses are
    enveloped in `{value: …}`. */
module W3C {
  import opened Wire
  import opened Requests

  /** POST `session` with `{capabilities: {alwaysMatch, firstMatch}}`;
      `firstMatch` defaults to the empty list and is always sent. */
  function Session(alwaysMatch: Capabilities, firstMatch: seq<Capabilities> := []): Request {
    Request(["session"], Post, Some(W3CSessionBody(MatchCapabilities(alwaysMatch, Some(firstMatch)))), W3CSessionShape)
  }

  /** GET `status`, the same request as the legacy one; the response is `{value: status}`. */
  function Status(): Request {
    Request(["status"], Get, None, W3CStatusShape)
  }

  /** The session id and negotiated capabilities of a New Session response
      `{value: {sessionId, capabilities}}`. */
  function Established(response: Value): (established: (string, Capabilities))
    requires Conforms(response, W3CSessionShape)
    ensures response == Envelope(NewSession(established.0, established.1))
  {
    (response.value.sessionId, response.value.capabilities)
  }

  /** The status record inside the envelope of a Status response. */
  function StatusOf(response: Value): (status: WebDriverStatus)
    requires Conforms(response, W3CStatusShape)
    ensures response == Envelope(Value.Status(status))
  {
    response.value.status
  }
}

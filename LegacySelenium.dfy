/** The requests whose shape is specific to the legacy Selenium JSON wire
    protocol: New Session with desired/required capabilities and a response
    carrying `sessionId` at top level, and Status answered with the bare
    status record. */
module LegacySelenium {
  import opened Wire
  import opened Requests

  /** POST `session` with `{desiredCapabilities, requiredCapabilities}`;
      `requiredCapabilities` is absent unless given. */
  function Session(desiredCapabilities: Capabilities, requiredCapabilities: Option<Capabilities> := None): Request {
    Request(["session"], Post, Some(LegacySessionBody(desiredCapabilities, requiredCapabilities)), LegacySessionShape)
  }

  /** GET `status`; the response is the status record without an envelope. */
  function Status(): Request {
    Request(["status"], Get, None, LegacyStatusShape)
  }

  /** The session id and negotiated capabilities of a New Session response
      `{sessionId, value: capabilities}`. */
  function Established(response: Value): (established: (string, Capabilities))
    requires Conforms(response, LegacySessionShape)
    ensures response == LegacySessionReply(established.0, established.1)
  {
    (response.sessionId, response.caps)
  }

  /** The status record of a Status response. */
  function StatusOf(response: Value): (status: WebDriverStatus)
    requires Conforms(response, LegacyStatusShape)
    ensures response == Value.Status(status)
  {
    response.status
  }
}

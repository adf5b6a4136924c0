/** How the two wire dialects relate: the requests they share on the wire,
    the New Session requests each sends, and the agreement between protocol
    detection and the `status()` call of the dialect it picks. */
module Dialects {
  import opened Wire
  import opened Requests
  import opened Http
  import LegacySelenium
  import W3C

  /** Both dialects probe `GET {server}/status` with no body, so the legacy
      probe that detection sends is also the W3C Status request. */
  lemma StatusProbeOnWire(serverUrl: Url)
    ensures UrlRequestFor(serverUrl, LegacySelenium.Status()) == UrlRequestFor(serverUrl, W3C.Status())
    ensures var probe := UrlRequestFor(serverUrl, LegacySelenium.Status());
            && probe.url == Url(serverUrl.origin, serverUrl.path + [Segment("status", false)])
            && probe.httpMethod == "GET"
            && probe.contentType.None? && probe.httpBody.None?
  {
  }

  /** Legacy New Session: `POST {server}/session` carrying the desired
      capabilities and, unless given, no required ones, as JSON. */
  lemma LegacySessionOnWire(serverUrl: Url, desiredCapabilities: Capabilities)
    ensures var request := UrlRequestFor(serverUrl, LegacySelenium.Session(desiredCapabilities));
            && request.url == Url(serverUrl.origin, serverUrl.path + [Segment("session", false)])
            && request.httpMethod == "POST"
            && request.contentType == Some(JsonContentType)
            && request.httpBody == Some(LegacySessionBody(desiredCapabilities, None))
  {
  }

  /** W3C New Session: `POST {server}/session` carrying
      `{capabilities: {alwaysMatch, firstMatch: []}}` unless `firstMatch` is given. */
  lemma W3CSessionOnWire(serverUrl: Url, alwaysMatch: Capabilities)
    ensures var request := UrlRequestFor(serverUrl, W3C.Session(alwaysMatch));
            && request.url == Url(serverUrl.origin, serverUrl.path + [Segment("session", false)])
            && request.httpMethod == "POST"
            && request.contentType == Some(JsonContentType)
            && request.httpBody == Some(W3CSessionBody(MatchCapabilities(alwaysMatch, Some([]))))
  {
  }

  /** The dialect detection picks is one whose `status()` accepts the very
      reply that decided it; a W3C server's reply is one the legacy
      `status()` could not decode. */
  lemma DetectedDialectAnswersStatus(reply: Reply)
    ensures Detect(reply).Ok? ==> StatusResult(Detect(reply).value, reply).Ok?
    ensures Detect(reply) == Ok(W3C) ==> StatusResult(LegacySelenium, reply) == Err(DecodingFailure)
    ensures Detect(reply).Err? ==> StatusResult(LegacySelenium, reply).Err?
  {
  }
}

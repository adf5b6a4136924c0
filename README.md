# swift-webdriver core in Dafny

This project models the client core of swift-webdriver, a Swift library that drives
browsers and desktop apps through a WebDriver server over HTTP. The server may speak
either of two dialects: the legacy Selenium JSON wire protocol, or the W3C WebDriver
protocol.

It models five parts:

- **Dialect detection.** One `GET status` probe decides the dialect. The legacy
  response shape is tried first, then the W3C one.
- **The HTTP driver.** A request value (path components, method, optional JSON body,
  expected response shape) becomes a URL request. A reply with status 200 decodes to
  the expected shape. Any other status throws the decoded error response.
- **The `status()` call,** which unwraps the W3C `{value: …}` envelope.
- **The session engine,** which keeps:
  - the session's implicit wait;
  - whether that wait is emulated by polling, once the server has refused it (the
    switch is sticky);
  - an ownership flag, so that only a session this client created is deleted, at most
    once;
  - the retry policies of element lookup (only `noSuchElement` is retried) and of
    interactions (only statuses the driver calls inconclusive are retried).
- **The element handle,** an immutable (session, id) pair.

The server is an oracle. A `Server` object holds a script of replies, each with a
latency. It keeps a clock (the sum of the latencies consumed) and a ghost log of every
HTTP request sent. Every operation of the core is specified by:

- what it appends to that log;
- how much of the script it consumes;
- a function of the replies it consumed.

Layout, one module per file:

| file | module | models |
|---|---|---|
| `Wire.dfy` | `Wire` | dialects, HTTP methods, error statuses, capabilities, decoded values and decoding |
| `Requests.dfy` | `Requests` | request values and the session/element requests the core sends |
| `LegacySelenium.dfy` | `LegacySelenium` | the legacy Session and Status requests and their responses |
| `W3C.dfy` | `W3C` | the W3C Session and Status requests and their enveloped responses |
| `HttpWebDriver.dfy` | `Http` | URL building, reply classification, detection, `status()`, the `WebDriver` class |
| `Polling.dfy` | `Polling` | the bounded retry primitive `poll` |
| `Session.dfy` | `Sessions` | the `Session` class and the `Element` value |
| `Element.dfy` | `Elements` | the element handle's operations |
| `Dialects.dfy` | `Dialects` | how the two dialects relate on the wire |
| `Scenarios.dfy` | `Scenarios` | end-to-end call sequences against a session |

Durations are real seconds. A Swift `throws` function returns a `Result` whose `Err`
carries the thrown error.

## Model

| member | source | states |
|---|---|---|
| `Wire.Decode` | Sources/WebDriver/HTTPWebDriver.swift:55 | decoding succeeds exactly when the payload has a value of the expected shape, and yields that value; otherwise it fails with a decoding error |
| `LegacySelenium.Established` | Sources/WebDriver/Requests+LegacySelenium.swift:23-26 | a legacy New Session response is exactly `{sessionId, value}`, and the session's id and capabilities are those two fields |
| `LegacySelenium.StatusOf` | Sources/WebDriver/Requests+LegacySelenium.swift:34 | the legacy status response is the bare status record |
| `W3C.Established` | Sources/WebDriver/Requests+W3C.swift:26-31 | a W3C New Session response is exactly `{value: {sessionId, capabilities}}` |
| `W3C.StatusOf` | Sources/WebDriver/Requests+W3C.swift:38 | the W3C status response is the status record inside a `{value: …}` envelope |
| `Dialects.LegacySessionOnWire` | Sources/WebDriver/Requests+LegacySelenium.swift:9-16 | legacy New Session is `POST {server}/session` with a JSON body of the desired capabilities and, by default, no required ones |
| `Dialects.W3CSessionOnWire` | Sources/WebDriver/Requests+W3C.swift:8-15 | W3C New Session is `POST {server}/session` with a JSON body `{capabilities: {alwaysMatch, firstMatch}}`, where `firstMatch` defaults to empty |
| `Dialects.StatusProbeOnWire` | Sources/WebDriver/HTTPWebDriver.swift:26-28 | the legacy and W3C Status requests are the same HTTP request, `GET {server}/status` with no body |
| `Dialects.DetectedDialectAnswersStatus` | Sources/WebDriver/HTTPWebDriver.swift:36-42 | the dialect that detection picks accepts, in `status()`, the very reply that decided it; a reply detected as W3C is one the legacy status could not decode; a failed detection is a failed legacy status |
| `Http.Server.Perform` | Sources/WebDriver/URLRequestExtensions.swift:8-16 | sending consumes the next scripted reply, advances the clock by its latency and appends the request to the log |
| `Http.Appended` | Sources/WebDriver/HTTPWebDriver.swift:59-63 | the URL is the server URL followed by every path component in order; only the last appended component is not a directory; the origin and the server path are kept |
| `Http.BuildUrlRequest` | Sources/WebDriver/HTTPWebDriver.swift:58-77 | the loop builds exactly that URL; the method is the raw value; a JSON content type and the body are attached if and only if the request has a body |
| `Http.Classify` | Sources/WebDriver/HTTPWebDriver.swift:50-55 | a 200 reply whose body decodes to the expected shape returns exactly that decoded value, and a 200 reply whose body does not decode throws a decoding error; a value is returned only for status 200; a non-200 status throws the decoded error response (or a decoding error); an unreachable server is a transport failure and nothing else is |
| `Http.Detect` | Sources/WebDriver/HTTPWebDriver.swift:31-42 | an unreachable server's transport failure is thrown unchanged, and nothing else is a transport failure; a non-200 probe throws its error response; with 200, legacy if the legacy shape decodes, W3C only if it does not and the W3C shape does, and a detection error exactly when neither decodes |
| `Http.StatusResult` | Sources/WebDriver/WebDriver.swift:17-22 | status succeeds exactly when the dialect's Status reply classifies as a value; legacy returns the bare record and W3C the record inside the envelope; failures are passed through |
| `Http.WebDriver.constructor` | Sources/WebDriver/WebDriver.swift:24 | an HTTP driver keeps its endpoint and dialect, and by default no error status is an inconclusive interaction |
| `Http.WebDriver.WithInconclusiveStatuses` | Sources/WebDriver/WebDriver.swift:10-11 | a driver may name the statuses it treats as inconclusive interactions: any set of statuses, finite or not (such as every `OtherStatus`), as the source's predicate allows |
| `Http.WebDriver.DetectProtocol` | Sources/WebDriver/HTTPWebDriver.swift:25-43 | detection sends exactly one request, the legacy Status probe, and its outcome is `Detect` of that one reply |
| `Http.WebDriver.CreateWithDetectedProtocol` | Sources/WebDriver/HTTPWebDriver.swift:21-23 | a driver is created exactly when detection succeeds, with the detected dialect; otherwise the detection error is thrown |
| `Http.WebDriver.Send` | Sources/WebDriver/HTTPWebDriver.swift:45-56 | `send` sends exactly the built request once, and its outcome is the classification of the reply |
| `Http.WebDriver.Status` | Sources/WebDriver/WebDriver.swift:17-22 | `status()` sends its dialect's one Status request and returns `StatusResult` of the reply |
| `Polling.PollRun` | Sources/WebDriver/Session.swift:478-489 | a poll makes at least one attempt; with no budget or nothing retryable it makes exactly one; a value it returns has the expected shape |
| `Polling.PollRunLastAttempt` | Sources/WebDriver/Session.swift:279-281 | the outcome of a poll is the outcome of its last attempt, so on exhaustion it is the last retryable failure; it never makes more attempts than there are replies, plus one |
| `Polling.PollRunRetriesOnlyRetryable` | Sources/WebDriver/Session.swift:480-488 | every attempt but the last failed with a retryable status and ended before the timeout |
| `Polling.PollRunExhausted` | Sources/WebDriver/Session.swift:266-268 | a retryable failure is the outcome only once the time spent has reached the timeout |
| `Polling.PollRunSucceedsAfterRetries` | Sources/WebDriver/Session.swift:270-277 | k retryable failures within the budget followed by a success: the poll returns that success after exactly k + 1 requests |
| `Polling.Poll` | Sources/WebDriver/Session.swift:266-278 | the poll loop sends the request once per attempt of `PollRun`, consumes that many replies, and returns `PollRun`'s outcome |
| `Sessions.InitialImplicitWait` | Sources/WebDriver/Session.swift:20-22 | the initial implicit wait is the capabilities' implicit timeout in milliseconds divided by 1000, and zero when absent |
| `Sessions.FoundElement` | Sources/WebDriver/Session.swift:270-281 | a single lookup yields an element of this session with the id from the response; every escaping error is wrapped with the locator |
| `Sessions.FoundElements` | Sources/WebDriver/Session.swift:298-312 | a plural lookup yields one element of this session per returned id, in order; a terminal `noSuchElement` gives the empty list; any other error propagates unwrapped |
| `Sessions.ActiveElementResult` | Sources/WebDriver/Session.swift:140-145 | the active element is the returned id in this session; none exactly on `noSuchElement`; any other error propagates |
| `Sessions.Session.constructor` | Sources/WebDriver/Session.swift:13-24 | attaching stores the driver, id and capabilities unchanged; the implicit wait starts from the capabilities; emulation is off; ownership is exactly `owned` |
| `Sessions.Session.CreateLegacy` | Sources/WebDriver/Session.swift:27-40 | legacy creation sends one legacy Session request; on success the new session is owned, with the id and capabilities from the response; failures are thrown unchanged |
| `Sessions.Session.CreateW3C` | Sources/WebDriver/Session.swift:43-54 | W3C creation sends one W3C Session request; on success the new session is owned, with the id and capabilities from the enveloped response |
| `Sessions.Session.Create` | Sources/WebDriver/Session.swift:56-65 | creation in the driver's dialect: legacy sends the capabilities as both desired and required, W3C as `alwaysMatch` with no `firstMatch`; in either dialect the new session is owned, with the id and capabilities from that dialect's response, and a failure is thrown unchanged |
| `Sessions.Session.SetTimeout` | Sources/WebDriver/Session.swift:164-180 | one Timeouts request carries every given duration times 1000; the implicit wait is recorded only when given and accepted |
| `Sessions.Session.SetImplicitWaitTimeout` | Sources/WebDriver/Session.swift:91-101 | never fails; the value is always recorded; the current value is a no-op; while emulating nothing is sent; otherwise one request is sent and a refusal turns emulation on; emulation is never turned off |
| `Sessions.Session.RunSearch` | Sources/WebDriver/Session.swift:261-278 | a lookup polls its request retrying only `noSuchElement`, with no budget unless emulating and then the per-call wait or else the implicit wait |
| `Sessions.Session.WithImplicitWaitTimeout` | Sources/WebDriver/Session.swift:236-253 | the implicit wait is restored on every exit; with no effective override the lookup runs as is; otherwise the override is sent, the lookup runs under it and the previous value is sent back unless emulation was switched on |
| `Sessions.Session.FindElement` | Sources/WebDriver/Session.swift:256-283 | a found element belongs to this session; every error is a not-found error carrying the locator; the implicit wait is unchanged afterwards and emulation is never turned off; with no effective override, one poll retrying only `noSuchElement`; with an override, the override request, the poll under it and the restore unless refused, with the exact log, outcome and emulation flag |
| `Sessions.Session.FindElements` | Sources/WebDriver/Session.swift:286-314 | every found element belongs to this session; no error is a `noSuchElement` response or a wrapped one; the implicit wait is unchanged afterwards and emulation is never turned off; the exact log, outcome and emulation flag with and without an effective override, as for the single lookup |
| `Sessions.Session.SendInteraction` | Sources/WebDriver/Session.swift:475-490 | an interaction polls its request with the retry timeout (or the session's default), retrying exactly the statuses the driver calls inconclusive |
| `Sessions.Session.Flick` | Sources/WebDriver/Session.swift:320-323 | a session flick is an interaction with the default retry timeout |
| `Sessions.Session.ActiveElement` | Sources/WebDriver/Session.swift:138-147 | one request to `session/{id}/element/active`, with the outcome given by `ActiveElementResult` |
| `Sessions.Session.Delete` | Sources/WebDriver/Session.swift:467-472 | a session not owned, or already deleted, sends nothing; otherwise one delete is sent, and the flag is cleared only if the server accepts it |
| `Sessions.Session.Teardown` | Sources/WebDriver/Session.swift:492-499 | teardown sends one delete if the session is still owned and nothing otherwise; its errors are dropped |
| `Elements.TextOf` | Sources/WebDriver/Element.swift:17-20 | the text is the string inside the response envelope |
| `Elements.FlagOf` | Sources/WebDriver/Element.swift:49-52 | the flag is the boolean inside the response envelope |
| `Elements.PointOf` | Sources/WebDriver/Element.swift:27-31 | the location is the response's `x` and `y`, unchanged |
| `Elements.ExtentOf` | Sources/WebDriver/Element.swift:38-42 | the size is the response's `width` and `height`, unchanged |
| `Elements.Text` | Sources/WebDriver/Element.swift:15-22 | one request to `session/{session}/element/{id}/text`; the result is its text |
| `Elements.Location` | Sources/WebDriver/Element.swift:25-33 | one request to `…/element/{id}/location`; the result is its point |
| `Elements.Size` | Sources/WebDriver/Element.swift:36-44 | one request to `…/element/{id}/size`; the result is its extent |
| `Elements.Displayed` | Sources/WebDriver/Element.swift:47-54 | one request to `…/element/{id}/displayed`; the result is its flag |
| `Elements.Enabled` | Sources/WebDriver/Element.swift:57-64 | one request to `…/element/{id}/enabled`; the result is its flag |
| `Elements.Selected` | Sources/WebDriver/Element.swift:67-74 | one request to `…/element/{id}/selected`; the result is its flag |
| `Elements.GetAttribute` | Sources/WebDriver/Element.swift:134-139 | one request to `…/element/{id}/attribute/{name}`; the result is its text |
| `Elements.SendKeys` | Sources/WebDriver/Element.swift:143-147 | one request to `…/element/{id}/value` whose body is the key sequence's raw text as the only entry |
| `Elements.Clear` | Sources/WebDriver/Element.swift:150-154 | one request to `…/element/{id}/clear` |
| `Elements.Click` | Sources/WebDriver/Element.swift:77-80 | click is an interaction on `…/element/{id}/click` under the given retry timeout |
| `Elements.TouchClick` | Sources/WebDriver/Element.swift:83-88 | touch click is an interaction through the session's interaction retry, on the endpoint its kind selects (`touch/click`, `touch/doubleclick` or `touch/longclick`), carrying the element id, under the caller's retry timeout or the session default |
| `Requests.TouchDoubleClickIsDoubleClick` | Sources/WebDriver/Element.swift:83-94 | a touch click of the double kind sends the very request a touch double click sends |
| `Elements.DoubleClick` | Sources/WebDriver/Element.swift:91-94 | double click is an interaction on `session/{session}/touch/doubleclick` carrying the element id |
| `Elements.Flick` | Sources/WebDriver/Element.swift:102-108 | an element flick is an interaction on `session/{session}/touch/flick` carrying the element id, offsets and speed |
| `Elements.FindElement` | Sources/WebDriver/Element.swift:115-119 | the session's single lookup started at this element, with its full contract: the outcome, the request log, the consumed replies and the emulation flag, with and without an effective override |
| `Elements.FindElements` | Sources/WebDriver/Element.swift:125-129 | the session's plural lookup started at this element, with its full contract: the outcome, the request log, the consumed replies and the emulation flag, with and without an effective override |
| `Scenarios.AttachedSessionNeverDeletes` | Sources/WebDriver/Session.swift:13-24 | a session attached by id is not owned: neither delete nor teardown sends anything |
| `Scenarios.DeleteTwice` | Sources/WebDriver/Session.swift:468-471 | after an accepted delete, a second delete and the teardown send nothing; a refused delete is sent again |
| `Scenarios.InteractOnce` | Sources/WebDriver/WebDriver.swift:24 | under the default driver an interaction is sent exactly once, and its outcome is that of the one reply |
| `Scenarios.FindOnce` | Sources/WebDriver/Session.swift:266-268 | while the server enforces the implicit wait, a lookup is exactly one request and leaves emulation off |
| `Scenarios.FindWithRefusedOverride` | Sources/WebDriver/Session.swift:239-283 | a `findElement` with a wait override, on a server that refuses it, switches emulation on for good, and the lookup polls under the override |

## Left out

- Requests.swift (the shared request catalogue), ErrorResponse.swift and Poll.swift are not part of this model. The session-scoped requests in `Requests.dfy` (their paths, methods and bodies) are taken from the JSON wire protocol as the core uses it, not from Requests.swift. Only some of them also appear in the repository's request mapping tests: `element`, `element/active`, and the element's `text`, `attribute`, `click`, `location`, `size`, `enabled`, `selected`, `value`, `touch/doubleclick`, `touch/flick` (session and element forms) and `timeouts`. The following follow the JSON wire protocol alone:
  - `element/{id}/displayed` and `element/{id}/clear`;
  - `elements`, and the element-scoped `element/{id}/element` and `element/{id}/elements`;
  - `touch/click` and `touch/longclick`. `Requests.SessionTouchClick` assumes that the touch-click kind selects the endpoint (`click`, `doubleclick` or `longclick`) and that the body is `{element}`, as for `touch/doubleclick`; Requests.swift, which fixes this mapping, is not part of this model.
- `Polling.PollRun` states the retry primitive as its call sites use it:
  - each attempt is one send;
  - a success or a non-retryable error ends the loop;
  - a retryable failure is retried while the time spent is below the timeout, so a zero timeout means exactly one attempt.
- Polling.Poll: the time spent is the sum of the scripted reply latencies. Poll's own sleeping or backoff between attempts is not modelled.
- JSON encoding and decoding are abstract. A reply carries, for each response shape, the value it decodes to (if any), and the error response it decodes to (if any). The byte format is not modelled.
- The transport (`URLRequest.send`, `URLSession`) is the scripted `Server` oracle. An exhausted script behaves as an unreachable server, which is a transport failure that no caller retries.
- Swift concurrency (`async`, and the detached `Task` in `deinit`) is not modelled. Teardown sends the delete synchronously.
- Floating point is not modelled: durations are exact reals, and `* 1000` and `/ 1000.0` are exact.
- Capability schemas (browser-specific options and the full capability record) are reduced to the platform name and the timeouts. Only the implicit wait is read by the core.
- The one-line session wrappers (`title`, `url`, `screenshot`, `moveTo`, windows, mouse buttons, touch points, `execute`, navigation, geolocation, orientation, `sendKeys` at session level) each send one request through `send`. They are not modelled; `Http.WebDriver.Send` states what each of them does.
- The root-level `findElement(locator:)` / `findElements(locator:)` overloads are `Sessions.Session.FindElement` / `FindElements` with no starting element.
- The per-call and session-level contracts do not restate the transport clock. Only `Http.WebDriver.Send`, `Http.WebDriver.DetectProtocol` and `Http.Server.Perform` state how it advances.
- The `precondition` of the single lookup (the starting element belongs to this session) is a `requires` clause. The plural lookup has none, as in the source.

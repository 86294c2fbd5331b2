# PartAPI request and authentication coordination, in Dafny

This project models the coordination core of the `PartAPI` JavaScript client
(`src/index.js`) and proves properties of it. The core is:

- the **gateway** (`PartAPI.fetch`), the one place where a transport response
  is classified. An ok response resolves with its parsed envelope. A failing
  response rejects with its top-level `message` when that is truthy, and with
  the body's `message` otherwise. Status 401 also starts a re-validation;
- the **rate gate** of `checkAuthentification`. A check made less than
  1000 ms after the last recorded one does nothing. Otherwise the time is
  recorded and then one "who am I" request (`/authenticated`) is issued;
- the **session**: the flag `authenticated` (`null`, `true` or `false`) and
  the `authenticationToken`, which `authenticate` and the re-validation
  continuations always set together, before notifying listeners;
- the **listener registry** (`addListener`, `removeListener`, `notify`): a
  map from event name to an ordered list of listeners;
- the `onload` handlers of the two **upload** operations (`getDataTypes`,
  `uploadDataFile`), for which a network error is also modelled. They use
  their own policy: anything but status 200 rejects, and status 401 also
  starts a re-validation.

Modules, leaf first:

- `Wrappers` (`wrappers.dfy`): `Option`, standing for `null`/`undefined`.
- `Transport` (`transport.dfy`): responses (`ok`, status, optional top-level
  message, a body that is an envelope `{ data?, message? }` or text that is
  not JSON), the settled `fetch` or upload with or without a response, and
  the requests the client issues.
- `Decimal` (`decimal.dfy`): decimal rendering of the status inside the
  upload rejection text, and its parse.
- `Gateway` (`gateway.dfy`): the pure classification functions of the
  gateway and of the upload handlers.
- `Registry` (`registry.dfy`): the listener map as functions, with lemmas
  about subscribing, unsubscribing and publishing.
- `RateGate` (`rate_gate.dfy`): the 1000 ms debounce. `LastCheckAfter` folds
  it over a sequence of call times, and lemmas give spacing and liveness.
- `PartApi` (`part_api.dfy`): the class `PartAPI`, with the source's fields.
  Each method changes only the fields it names.

Asynchronous continuations become methods that run when a request settles:
`OnFetchSettled`, `OnAuthenticateSettled`, `OnCheckSettled` and
`OnUploadEvent`. Each takes what the transport reported (a response, or a
network failure) and the clock reading `now` in integer milliseconds. A
request the client issues is returned as a value, and its response later
enters the matching continuation. The listeners'
observable effect is the field `delivered`, the ordered log of
`(listener, value)` invocations.

Facts about the code that the model makes explicit:

- Failures are not sorted into kinds. A non-ok response whose message can
  be read rejects with a generic `Error(message)`. A body that is not JSON
  rejects with JSON's own `SyntaxError` (`ParseError`). A `fetch` that gets
  no response, such as on a network failure, rejects with its own
  `TypeError` (`TransportError`). An upload rejects with a bare string.
- After a successful login or check, the token is whatever `data` the
  envelope had, which may be absent. So the flag can be `true` with no token.
  The invariant that holds is one-directional: when the flag is not `true`,
  there is no token.
- A `fetch` without a response skips every check on the response, so it
  never starts a re-validation. After a login it is re-raised once `false`
  has been published. After a check it is swallowed once `false` has been
  published, so a network failure announces the session as lost.
- When an upload has status 200 and its response text is not JSON, `JSON.parse`
  throws inside `onload`, and the upload's promise never settles
  (`UploadUnsettled`). The uploads have no `error` handler, so on a network
  error their promise never settles either.
- The check's own response passes through the gateway like any other. So a
  401 on `/authenticated` asks for one more check, which the rate gate
  usually suppresses.

## Model

| member | source | states |
|---|---|---|
| `Gateway.Classify` | src/index.js:13-26 | resolves exactly when the response is ok and its body parses, with the envelope unchanged; a non-ok response always rejects; the message is the truthy top-level `message`, else the body's `message` (empty when absent); a parse failure surfaces exactly when the body had to be read and is not JSON |
| `Gateway.TriggersRevalidation` | src/index.js:14-17 | re-validation is requested only on a response that rejects, and on a well-formed response exactly when the status is 401 |
| `Gateway.BodyIgnoredWithTopLevelMessage` | src/index.js:18-20 | a failing response with a truthy top-level message rejects the same way whatever its body is |
| `Gateway.GatewayOutcome` | src/index.js:13-27 | a `fetch` without a response rejects with its own transport error, and only then; with a response the gateway settles as `Classify` says |
| `Gateway.GatewayRevalidates` | src/index.js:13-17 | re-validation is requested only when there is a response and the gateway rejects it, and on a well-formed response exactly when the status is 401 |
| `Gateway.RejectionReasonRoundTrip` | src/index.js:228 | the text `Error <status>: <statusText>` built by `RejectionReason` parses back to exactly that status and status text |
| `Gateway.RejectionReasonExact` | src/index.js:228 | conversely, a text the parse accepts is exactly `RejectionReason` of what it parsed to, so a numeral with a leading zero is refused |
| `Gateway.ClassifyUpload` | src/index.js:223-231 | an upload rejects exactly when the status is not 200, with a reason that identifies the status and its text; it resolves exactly when the status is 200 and the text parses, with the parsed body |
| `Gateway.UploadPolicyStricter` | src/index.js:250-258 | an upload resolves only where the gateway would; an ok status other than 200 resolves in the gateway but rejects an upload; on a well-formed response both ask for re-validation exactly on 401 |
| `Decimal.DecimalString` | src/index.js:228 | the rendering of the status is a non-empty string of decimal digits, one digit exactly below 10, with no leading zero |
| `Decimal.ParseDecimalString` | src/index.js:228 | parsing the decimal rendering of a number gives the number back |
| `Decimal.DecimalStringOfParse` | src/index.js:228 | every numeral without a leading zero is the rendering of its own value |
| `Decimal.ParseAtLeastOne` | src/index.js:228 | a numeral that does not start with `0` has a positive value |
| `Registry.Subscribe` | src/index.js:124-129 | the event's list is created if absent and ends with the new listener after the old ones (duplicates kept); every other event's list is unchanged |
| `Registry.Without` | src/index.js:133 | the filtered list holds exactly the elements of the list other than the removed listener |
| `Registry.Unsubscribe` | src/index.js:131-135 | a known event's list loses every occurrence of the listener; no event is added; other events are unchanged |
| `Registry.Deliveries` | src/index.js:137-141 | publishing invokes each listener of the list once, in list order, with the published value |
| `Registry.WithoutAppend` | src/index.js:133 | filtering distributes over concatenation, so the remaining listeners keep their order |
| `Registry.WithoutAbsent` | src/index.js:133 | filtering out a listener that is not in the list leaves the list unchanged |
| `Registry.WithoutKeepsOthers` | src/index.js:133 | every other listener keeps its number of occurrences |
| `Registry.UnsubscribeIdempotent` | src/index.js:131-135 | removing the same listener twice is the same as removing it once |
| `Registry.UnsubscribeUnknown` | src/index.js:131-135 | removal for an unknown event, or of a listener never added, leaves the map unchanged |
| `Registry.PublishAfterSubscribe` | src/index.js:124-141 | after adding a listener, publishing reaches the earlier listeners in order and then the new one |
| `Registry.PublishOnceAfterSubscribe` | src/index.js:124-141 | a listener added once is invoked exactly once per publish, with the published value |
| `Registry.PublishAfterUnsubscribe` | src/index.js:131-141 | after removing a listener, publishing never invokes it |
| `Registry.PublishInRegistrationOrder` | src/index.js:124-141 | two listeners added one after the other are invoked in registration order |
| `RateGate.AfterCheck` | src/index.js:105-109 | the recorded check time never decreases; when it changes it becomes `now`, at least 1000 ms later than before |
| `RateGate.LastCheckAfter` | src/index.js:102-109 | over any sequence of checks the recorded time never falls below its starting value |
| `RateGate.LastCheckAfterMonotone` | src/index.js:105-109 | along a sequence of checks the recorded time is non-decreasing |
| `RateGate.ChecksSpaced` | src/index.js:105-111 | any two checks in a sequence that both issue a request are at least 1000 ms apart |
| `RateGate.AtMostOnePerInterval` | src/index.js:105-111 | of two checks less than 1000 ms apart, at most one issues a request |
| `RateGate.LastCheckBounded` | src/index.js:105-109 | on a clock that does not go back, the recorded time is never later than the latest check |
| `RateGate.CheckAfterQuietSends` | src/index.js:105-111 | on such a clock, a check at least 1000 ms after the previous check always issues a request |
| `PartApi.Settle` | src/index.js:89-99 | a settled login or check leaves the flag `true` with the returned `data` as token on success, and the flag `false` on failure; in both cases the flag and token are paired |
| `PartApi.PartAPI.constructor` | src/index.js:4-10 | the endpoint is the argument when truthy and `""` otherwise; the flag and token are null, there are no listeners, and the last check is at epoch 0 (so a first check at `now >= 1000` proceeds); the pairing holds |
| `PartApi.PartAPI.CheckAuthentification` | src/index.js:102-111 | within 1000 ms of the recorded check nothing changes and no request is issued; otherwise the time becomes `now` and exactly one request is issued, the GET of `<endpoint>/authenticated` built by `CheckRequest` |
| `PartApi.PartAPI.OnFetchSettled` | src/index.js:12-28 | the gateway settles as `GatewayOutcome` says, and only a received non-ok 401 runs the rate-gated check |
| `PartApi.PartAPI.Authenticate` | src/index.js:82-88 | the login request is a POST of the credentials to `<endpoint>/authenticate`, and nothing in the session changes |
| `PartApi.PartAPI.OnAuthenticateSettled` | src/index.js:88-99 | the session becomes `Settle` of the gateway outcome, a network failure included; `authenticated` is published once, with the new flag; success resolves, and a failure re-raises the gateway's own error after the notification; the pairing holds |
| `PartApi.PartAPI.OnCheckSettled` | src/index.js:111-121 | as for login, the session is settled and the new flag is published once, but no failure propagates, so a network failure publishes `false` |
| `PartApi.PartAPI.AddListener` | src/index.js:124-129 | the registry becomes `Subscribe` of the old one |
| `PartApi.PartAPI.RemoveListener` | src/index.js:131-135 | the registry becomes `Unsubscribe` of the old one |
| `PartApi.PartAPI.Notify` | src/index.js:137-141 | the log of invocations grows by exactly `Deliveries` of the event's list |
| `PartApi.PartAPI.OnUploadEvent` | src/index.js:222-233 | on `load` the upload settles as `ClassifyUpload` says, with the reason built by `RejectionReason`, and status 401, and no other, runs the rate-gated check; on a network error it never settles and runs no check (the handler at lines 249-260 is the same code) |
| `PartApi.TwoUnauthorizedResponses` | src/index.js:15-16 | two 401 responses handled less than 1000 ms apart issue at most one check; handled 1000 ms or more apart, with the recorded check time not later than the first, the second always issues one |

## Left out

- Endpoint bindings (`getQuestions` … `getResponseById` apart from login) are
  not modelled. Each is a fixed path, method and JSON body handed to the
  gateway, sometimes projecting `.data`. `getSurveyById` skips the gateway, so
  it never starts a re-validation and never fails on status.
- Transport: `fetch`, `XMLHttpRequest`, `FormData`, progress callbacks, the
  `Content-Type` header, and the 10 KB `file.slice` of `getDataTypes` are
  platform calls. Their outcome is a received response or the absence of one;
  the message of a transport error is not modelled. JSON parsing and
  serialization are not modelled either: a body is an envelope or `Malformed`,
  and login credentials are a datatype rather than a JSON string.
- Time: `new Date()` is the integer parameter `now`.
- Promise scheduling: every continuation is one sequential step. Interleaved
  in-flight requests are modelled only as the order in which their
  continuations are called.
- Listener exceptions: listeners are total, so the case where one throwing
  listener aborts the rest, or sends `authenticate`'s `.then` into its
  `.catch`, is not modelled. Published values are booleans, the only kind the
  client publishes.
- Event names are map keys. An event name that is a property of
  `Object.prototype` (such as `"toString"`) behaves differently in JavaScript
  and is not modelled.
- `null` and `undefined` are both `None`. Messages are strings; a non-string
  `message` coerced by `Error` is not modelled. In particular, a body
  `{"message": null}` rejects in JavaScript with `Error(null)`, whose message
  is `"null"`, while `ErrorMessage` gives `""` as for an absent message. The
  status of an upload is any natural number, without the 16-bit range of
  `xhr.status`.
- `console.log`, the unused `import { throws }`, and `src/errors.js` are not
  modelled. The error classes in `src/errors.js` are never used by the client.

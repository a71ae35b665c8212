# Palisade identity SDK: a Dafny model of its core

This project models `PalisadeIdentitySDK` (`src/index.js`). It is the
browser-side client that a host page uses to connect to the Palisade
identity service. The SDK opens the service's UI in a popup window. It keeps
the session's JWT in the `PAL.auth` cookie and reads the wallet from the
wallet API. It sends raw transactions to be signed or submitted. It listens
for the popup's `postMessage` reports. Everything that happens is
republished to the host through an allow-list event bus (`connected`,
`disconnected`, `error`, `transaction-approved`, `transaction-rejected`,
`transaction-failed`).

Modules:

- `EventBus` (`event_bus.dfy`): the `EventEmitter` class, a name →
  callback-list dictionary updated in place. `emit` returns the list of
  listener calls it performs.
- `ErrorClassifier` (`error_classifier.dfy`): `#utils.onError`'s choice
  between a service-supplied message, the SDK's own table of
  `PAL.ERROR.101`–`109`, and `UNKNOWN`.
- `Utils` (`utils.dfy`): JavaScript truthiness and `substring` (over UTF-16
  code units, as JavaScript strings count them),
  `getDomainForEnvironment`, `truncateWithCenterEllipsis` and
  `#validateClientConfig`.
- `Cookies` (`cookies.dfy`): `getCookieValue`, the scan of
  `document.cookie`, as a method with loops. It is proved equal to a
  specification function, and a round-trip lemma says it reads back a
  serialized cookie jar.
- `Controller` (`controller.dfy`): the session as a pure state machine over
  the following state:
  - connectivity, the cached wallet and the transaction id;
  - the cookie jar and the one process-wide popup slot;
  - logs of the events emitted and the requests sent.

  Every public operation, every popup report and the constructor is a
  function on this state.
- `Sdk` (`sdk.dfy`): the `Session` class, whose fields the methods update in
  place. Each method is proved to have exactly the effect of the matching
  `Controller` function.
- `ControllerLemmas` (`controller_lemmas.dfy`): what each operation and
  each report does, and two invariants over any sequence of operations
  (the first also established by the constructor):
  - every emitted name is allow-listed;
  - the logs only grow, and only sign/submit change the transaction id.

Asynchronous operations are modelled as atomic steps. The outcome of each
network call (`Reply`: a rejection, or a status with an optional parsed JSON
body) is an input.

The model follows the code in these places:

- `signTransaction`/`submitTransaction` have no 401 branch. A 401 is
  reported as `PAL.ERROR.104`/`105`, the popup is closed, and the session
  stays connected.
- The wallet fetch after a `connected` report ignores `response.ok`. Any
  parsed body becomes the wallet. On failure, `isConnected` becomes false
  but the new cookie stays.
- `transactionId` is never cleared.
- An approval report needs three fields (`encodedTransaction`, `signature`,
  `transactionId`), not four.
- The missing environment defaults to `'DEV'` in the merged client
  configuration.
- The configuration error `PAL.ERROR.003` is not in the SDK table, so it is
  reported at level `UNKNOWN`. Its payload field is named `errorCode`.
- An `ERROR` message without `messages` throws in the listener, so it
  changes nothing.

## Model

| member | source | states |
|---|---|---|
| EventBus.EventEmitter.constructor | src/index.js:4-7 | the bus starts with the given allow-list and no listeners |
| EventBus.EventEmitter.On | src/index.js:14-36 | a name off the allow-list fails with InvalidEventName and a non-function callback with InvalidCallback, both leaving the table unchanged; otherwise the callback is appended to that name's list and no other entry changes |
| EventBus.EventEmitter.Off | src/index.js:39-47 | a name off the allow-list fails; otherwise that name's listeners (and only that name's) are removed |
| EventBus.EventEmitter.Emit | src/index.js:50-64 | a name off the allow-list fails; otherwise exactly the registered listeners are called, in registration order, each with the data |
| EventBus.EventEmitter.Destroy | src/index.js:67-69 | the listener table becomes empty |
| ErrorClassifier.FindByCode | src/index.js:369-373 | the index of the FIRST entry carrying the code; None exactly when no entry carries it |
| ErrorClassifier.Classify | src/index.js:368-391 | SERVICE payload iff the service list has the code (the first such entry, its own `level` overriding 'SERVICE'); else SDK payload iff the code is in the SDK table, with the table's description; else UNKNOWN carrying the raw code |
| ErrorClassifier.SdkCodesClassifyAsSdk | src/index.js:134-158 | each of the nine SDK codes, without a service list, is classified at level SDK with its canned description |
| ErrorClassifier.ServiceEntryShadowsSdk | src/index.js:369-378 | for an SDK code and any service list holding an entry with that code, the payload is SERVICE and carries the first such entry, not the SDK's own description |
| Utils.DomainForEnvironment | src/index.js:88-108 | a truthy `domain` URL parameter wins; otherwise DEVELOPMENT and PRODUCTION pick their domains and everything else (SANDBOX, unknown, absent) gives sandbox, each as an if-and-only-if |
| Utils.Clamp | src/index.js:539-543 | a `substring` index is kept when in [0, length], a negative one becomes 0 and one past the end becomes the length |
| Utils.Substring | src/index.js:539-543 | in-range indices give the slice and reversed ones are swapped; an index below 0 acts as 0 and one past the end as the end (each case of one index out of range, either order); both indices at or below 0, or both at or past the end, give ""; one at or below 0 with the other at or past the end gives the whole string; the result is never longer than the string |
| Utils.TruncateWithCenterEllipsis | src/index.js:531-546 | strings up to twice the length are returned unchanged; longer ones become the first k code units, "...", and the last k code units (length 2k+3); a negative length gives "..." |
| Utils.TruncationCanLengthen | src/index.js:535 | with the default length an 11-unit string is "truncated" to 13 units |
| Utils.TruncationSplitsSurrogatePairs | src/index.js:533-545 | six astral characters (twelve code units) are cut inside a surrogate pair on each side of the "..." |
| Utils.ValidateClientConfig | src/index.js:567-578 | valid iff clientId is a string; the error code is PAL.ERROR.003 |
| Cookies.Split | src/index.js:344 | `split(';')` always yields at least one piece |
| Cookies.TrimLeadingSpaces | src/index.js:348-350 | the result is a suffix of the piece that does not start with a space, and everything removed was a space |
| Cookies.GetCookieValue | src/index.js:341-356 | the two loops compute CookieValue: the value after `name=` in the first space-trimmed piece that starts with it, else "" |
| Cookies.LookupIsMapLookup | src/index.js:346-353 | the first-match lookup in a listed jar equals a lookup in the jar's dictionary, and the dictionary has a name exactly when some cookie carries it |
| Cookies.CookieRoundTrip | src/index.js:341-356 | reading a name back from a serialized jar of well-formed cookies gives the value of the first cookie with that name, and "" when there is none |
| Sdk.Session.constructor | src/index.js:75-199 | fresh bus with no listeners, context from getDomainForEnvironment and the merged client configuration, and the state Controller.Init describes (connectivity from the cookie, then the configuration error or the wallet load) |
| Sdk.Session.Emit | src/index.js:613-615 | a name off the allow-list fails and changes nothing; otherwise the listeners are called in order and the event is logged |
| Sdk.Session.On | src/index.js:630-632 | registration succeeds iff the name is allow-listed and the callback is a function, appends it, and leaves the session state unchanged |
| Sdk.Session.Off | src/index.js:621-623 | succeeds iff the name is allow-listed, empties that name only, and leaves the session state unchanged |
| Sdk.Session.OnError | src/index.js:368-391 | one `error` event carrying Classify's payload |
| Sdk.Session.Disconnect | src/index.js:602-606 | the new state is Controller.Disconnect of the old one (see DisconnectEffect) |
| Sdk.Session.CloseModal | src/index.js:321-328 | the popup slot is emptied; nothing else changes |
| Sdk.Session.OpenModal | src/index.js:491-510 | a live popup is navigated to the identity service; a missing or closed one is replaced by a new window |
| Sdk.Session.OpenModalPlaceholder | src/index.js:513-522 | a new blank window always takes the slot |
| Sdk.Session.UserClosesPopup | src/index.js:496-499 | the popup's `closed` flag becomes true, so the next openModal opens a new window |
| Sdk.Session.CookieExpires | src/index.js:122 | the auth cookie, written with a 7-day expiry, leaves the jar while `isConnected` keeps its value |
| Sdk.Session.CallApi | src/index.js:230-284 | without a token: PAL.ERROR.102, disconnect, popup closed, nothing sent (false); with one: exactly one request carrying the token and the client id (true) |
| Sdk.Session.LoadWallet | src/index.js:202-228 | the new state is Controller.LoadWallet of the old one (see LoadWalletOutcomes) |
| Sdk.Session.Connect | src/index.js:585-590 | the popup shows the identity service with the merged client configuration |
| Sdk.Session.SignTransaction | src/index.js:639-683 | the new state is Controller.RequestTransaction with signOnly (see the Request* lemmas) |
| Sdk.Session.SubmitTransaction | src/index.js:690-732 | the new state is Controller.RequestTransaction without signOnly |
| Sdk.Session.OnEvent | src/index.js:393-480 | the new state is Controller.OnEvent of the old one (see the Connected*/Approved/Rejected lemmas) |
| Sdk.Session.ReceiveMessage | src/index.js:294-318 | the new state is Controller.ReceiveMessage of the old one |
| ControllerLemmas.DisconnectEffect | src/index.js:602-606 | no token is left, `isConnected` is false, exactly one `disconnected` event, every cookie other than PAL.auth is kept, and wallet, transaction id, popup and requests are untouched |
| ControllerLemmas.JarReadsLikeDocumentCookie | src/index.js:286-288 | the session's cookie dictionary gives, for every name, what getCookieValue reads from the serialized `document.cookie` of a well-formed jar |
| ControllerLemmas.DisconnectTwice | src/index.js:335-339 | a second disconnect changes nothing but emitting another `disconnected` |
| ControllerLemmas.ForeignOriginIgnored | src/index.js:296-298 | a message from another origin changes nothing |
| ControllerLemmas.UnknownMessagesIgnored | src/index.js:300-316 | LOG and unknown message types, and event codes other than 001/002/003/008, change nothing |
| ControllerLemmas.ErrorMessageReported | src/index.js:301-307 | an ERROR message from the identity service that carries `messages` emits exactly one `error` event classified against that list, and changes nothing else |
| ControllerLemmas.MessagesKeepTransactionAndPopup | src/index.js:294-318 | no popup report changes the transaction id or the popup slot |
| ControllerLemmas.ConnectedWithoutToken | src/index.js:407-413 | `connected` without a token reports PAL.ERROR.108 and sets no cookie |
| ControllerLemmas.ConnectedWithWallet | src/index.js:415-428 | `connected` with a token stores it, fetches the wallet once with it, and, whatever the status, announces the parsed body as the wallet and marks the session connected |
| ControllerLemmas.ConnectedFetchFailureKeepsCookie | src/index.js:429-434 | a failed fetch marks the session disconnected and reports PAL.ERROR.103, but the new cookie stays |
| ControllerLemmas.ApprovedReport | src/index.js:439-462 | an incomplete report raises PAL.ERROR.109 and is still announced; a complete one is announced alone, with the five copied fields |
| ControllerLemmas.RejectedAndFailedReports | src/index.js:464-478 | rejected is announced without data; failed with transactionId, transactionStatus and reasons |
| ControllerLemmas.RequestWhenNotConnected | src/index.js:640-643 | only PAL.ERROR.101, no popup and no request |
| ControllerLemmas.RequestWithEmptyHash | src/index.js:645-651 | PAL.ERROR.107 and no request; signing then disconnects, submitting leaves the session exactly as it was |
| ControllerLemmas.RequestWithoutToken | src/index.js:246-264 | PAL.ERROR.102, disconnect, popup closed, no request |
| ControllerLemmas.RequestAccepted | src/index.js:669-682 | one request sent, `transactionId` is `data.ID`, and the placeholder just opened shows the identity service with the id and the approve action; nothing is emitted |
| ControllerLemmas.RequestRefused | src/index.js:661-667 | any non-OK status (401 included) reports PAL.ERROR.104/105 and closes the popup; connectivity, cookie and transaction id are unchanged |
| ControllerLemmas.RequestAbandoned | src/index.js:655-659 | a rejected fetch or unparsable body ends silently with the blank placeholder open |
| ControllerLemmas.LoadWalletOutcomes | src/index.js:202-228 | 401 → PAL.ERROR.106 then disconnect; other non-OK → PAL.ERROR.103 with connectivity unchanged; OK → `connected` with the wallet, cached, session connected |
| ControllerLemmas.InitWithoutToken | src/index.js:171-199 | without the auth cookie the SDK starts disconnected and sends nothing |
| ControllerLemmas.InitWithToken | src/index.js:171-199 | with the cookie and a valid configuration exactly one wallet fetch is sent; 401 ends disconnected with the cookie gone; OK ends connected announcing the wallet |
| ControllerLemmas.InvalidConfigReportedAsUnknown | src/index.js:189-193 | a configuration without a string clientId emits one UNKNOWN error carrying PAL.ERROR.003 and fetches nothing |
| ControllerLemmas.PopupSlot | src/index.js:491-522 | openModal reuses a live window (same id, new location) and otherwise opens a new one; the placeholder always opens a new one; closeModal empties the slot |
| ControllerLemmas.InitEstablishesInv | src/index.js:171-199 | when the page's popup handle (if any) has an id below the window counter, the constructor's state, including the configuration error and the wallet load it runs, satisfies the invariant: every emitted name is allow-listed |
| ControllerLemmas.SessionKeepsInv | src/index.js:171-199 | from the constructor's state, every sequence of operations and reports ends in a state satisfying the invariant |
| ControllerLemmas.RunKeepsInv | src/index.js:50-56 | from any state satisfying the invariant, after any sequence of operations and reports every emitted name is on the allow-list (so no internal emit throws), and the popup handle's id stays below the window counter, so every window opened later is a different one |
| ControllerLemmas.RunExtendsLogs | src/index.js:639-732 | over any sequence the event and request logs only grow, and a changed transaction id implies some sign or submit step |

## Left out

- HTTP is not modelled: fetch, the URLs, JSON encoding and `response.json()`. Each network outcome is an input (`Reply`). The request log records the token, the client id and the call.
- The base64 encoding of the configuration (`convertJsonToBase64String`) is not modelled. The popup location carries the configuration itself.
- Popup geometry, title, features and `focus()` are left out. So is `window.open` returning null: a popup blocker is outside the model.
- closeModal's 500 ms delay is taken as zero. The race in which a deferred close shuts a newer popup is not captured.
- Asynchronous interleaving is not modelled: each operation runs to completion on its reply. The race where a request in flight resolves after `disconnect()` is not captured.
- Listener side effects and listeners that throw are not modelled. A listener is an opaque handle.
- `decodeURIComponent`, cookie expiry dates and the writing of `document.cookie` (`setCookie`) are not modelled. The jar is a map, and expiry is the separate host step CookieExpires.
- `onLog` and `console`, `getElement`, the `URLSearchParams` proxy (its `domain` value is a parameter) and `window.addEventListener` are browser plumbing with no state the SDK reads. The process-wide singleton `instance` is not modelled: one session is modelled.
- The SDK's `destroy()` sets a `length` property on the emitter object. That leaves the listeners as they were, so it is not modelled. The emitter's own `destroy()` is modelled.
- The `typeof eventName !== 'string'` check in `on` cannot fail once the allow-list check passed, so it has no branch.
- Lookups of `Object.prototype` keys in the SDK error table are not modelled. The table is a map with exactly the nine codes.
- A message without `data` is not modelled. `messages` and `messages.error` are one optional list.
- types/index.d.ts is not part of this model.
- Utils.TruncateWithCenterEllipsis: `truncateLength` is an integer. A fractional length, which the comparison uses as is and `substring` truncates, is not modelled, and neither are non-numeric lengths.

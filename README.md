# Language-server client: feature registration and document sync

This project models the client-side feature layer of a language-server
protocol client: the features that advertise capabilities to the server,
accept dynamic registrations (an id plus a document selector) and keep the
server informed about which document is open.

- **Registration bookkeeping** (`registration.dfy`): every feature keeps a map
  from registration id to what the registration holds. `register` refuses an id
  that is already present and `unregister` refuses an unknown id; both leave
  the map unchanged when they refuse.
- **Document selectors** (`selectors.dfy`): a selector is a list of clauses,
  each a language id or the wildcard `"*"`. A document matches when some clause
  is `"*"` or equals its language id.
- **Lifecycle features** (`text_document.dfy`): `TextDocumentNotificationFeature`
  is one class with two variants, `DidOpen` and `DidClose`. It holds its
  selectors and the document of the last environment snapshot. `OnSnapshot`
  receives the next snapshot's document (or none). The didOpen variant sends
  `textDocument/didOpen` with the whole document when a new document (new uri)
  becomes active and matches a registered selector. The didClose variant sends
  `textDocument/didClose` with only the uri when the previously active document
  stops being active and matches a registered selector. Both advertise
  `textDocument.synchronization.dynamicRegistration`.
- **Stream properties** (`document_sync.dfy`): the notifications a feature sends
  over a whole stream of snapshots. The server's view of the open document is
  replayed from what it receives. A didClose and a didOpen feature that share a
  client and have the same registrations keep that view equal to the active
  document whenever it matches, provided the didClose feature sees each snapshot
  before the didOpen feature (`NotifyPair`, `ObserveStream`).
- **Hover feature** (`hover.dfy`): advertises hover support (dynamic
  registration, content formats Markdown then plain text). For each
  registration it hands the provider registry a provider that forwards the
  position params to the server as a `textDocument/hover` request and relays
  the answer.
- **Client channel and capabilities** (`client.dfy`, `capabilities.dfy`,
  `protocol.dfy`): the client records every notification and request in order;
  the server's answer is a fixed function of the request. The capabilities
  descriptor is an object whose nested records are optional values.
- **Test scenarios** (`feature_scenarios.dfy`): the feature tests, stated
  against the classes on fresh objects; each postcondition is the exact outcome
  the test asserts.

The implementation of the lifecycle features (`src/client/features/textDocument.ts`),
the `Feature` base class and `ensure` (`src/client/features/common.ts`) and the
environment (`src/client/environment.ts`) are not part of this model. Their
behaviour is taken from what `src/client/features/textDocument.test.ts` asserts
and from `src/client/features/hover.ts`.

Design decisions where the tests do not decide:

- A close is sent only when the previous document matches one of the feature's
  selectors at the moment it stops being active. A document that never matched
  gets no close.
- Registering on the didOpen feature while a document is active sends an open
  for it at once, when the new selector matches it and no earlier selector did.
  The didClose feature sends nothing on registration.
- Unregistering never sends anything, even when the active document matched the
  removed selector.
- On each snapshot the didClose feature is notified before the didOpen feature,
  so a switch from one document to another reaches the server as the close of
  the old document followed by the open of the new one. The two features are
  independent objects; with the opposite order the server would receive an open
  while the old document is still open.
- Document identity is the uri: a snapshot with the same uri but other text or
  another language id is the same document and sends nothing.

## Model

| member | source | states |
|---|---|---|
| `DocumentSelectors.Matches` | src/client/features/textDocument.test.ts:103-106 | a document matches a selector exactly when some clause is `"*"` or equals its language id |
| `DocumentSelectors.WildcardMatchesEveryDocument` | src/client/features/textDocument.test.ts:46 | a selector containing `"*"` matches every document |
| `DocumentSelectors.LanguageSelectorRejectsOtherLanguages` | src/client/features/textDocument.test.ts:105 | the selector `['l']` does not match a document of another language |
| `Capabilities.ClientCapabilities.constructor` | src/client/features/textDocument.test.ts:93 | the empty descriptor `{}` has no entry |
| `Capabilities.WithSynchronizationDynamicRegistration` | src/client/features/textDocument.test.ts:92-98 | sets `synchronization.dynamicRegistration` to true, keeps the other synchronization flags and the hover entry |
| `Capabilities.WithHoverCapabilities` | src/client/features/hover.ts:27-31 | sets `hover.dynamicRegistration` to true and `hover.contentFormat` to exactly `[Markdown, PlainText]`, keeps synchronization |
| `Capabilities.SynchronizationFillOnEmpty` | src/client/features/textDocument.test.ts:143-149 | on `{}` the result is exactly `{synchronization: {dynamicRegistration: true}}` |
| `Capabilities.SynchronizationFillIdempotent` | src/client/features/textDocument.test.ts:92-98 | filling synchronization twice equals filling it once |
| `Capabilities.HoverFillIdempotent` | src/client/features/hover.ts:28-30 | filling hover twice equals filling it once |
| `ClientChannel.Client.SendNotification` | src/client/features/textDocument.test.ts:114-119 | each notification is appended to the client's log, in order |
| `ClientChannel.Client.SendRequest` | src/client/features/hover.ts:37 | the request is logged and the server's answer to it is returned |
| `Registration.Register` | src/client/features/textDocument.test.ts:63-69 | fails with a duplicate error exactly when the id is present; otherwise adds the id with its value and keeps every other entry |
| `Registration.Unregister` | src/client/features/textDocument.test.ts:71-74 | fails with an unknown-id error exactly when the id is absent; otherwise removes that id only |
| `Registration.RegisterAllFresh` | src/client/features/textDocument.test.ts:55-58 | registering distinct fresh ids succeeds and adds exactly those ids |
| `Registration.UnregisterAllPresent` | src/client/features/textDocument.test.ts:59-60 | unregistering distinct registered ids succeeds and removes exactly those ids |
| `Registration.RegisterThenUnregisterAnyOrder` | src/client/features/textDocument.test.ts:49-61 | registering distinct ids and unregistering them in any order gives back the original map |
| `Registration.DuplicateRegistrationRefused` | src/client/features/textDocument.test.ts:63-69 | registering an id a second time fails with a duplicate error |
| `Registration.UnregisterOnEmptyFails` | src/client/features/textDocument.test.ts:71-74 | with nothing registered, unregistering any id fails |
| `TextDocument.OpenNotifications` | src/client/features/textDocument.test.ts:100-125 | one open with the full document exactly when a new uri becomes active and matches a selector; nothing otherwise |
| `TextDocument.CloseNotifications` | src/client/features/textDocument.test.ts:180-209 | one close with the old uri exactly when the active document goes away or changes uri and the old one matches a selector |
| `TextDocument.RegistrationNotifications` | src/client/features/textDocument.test.ts:103-106 | registering on didOpen opens the active document at once when only the new selector makes it match |
| `TextDocument.TextDocumentNotificationFeature.constructor` | src/client/features/textDocument.test.ts:84-88 | a new feature has no registration and starts from the environment's current document |
| `TextDocument.TextDocumentNotificationFeature.FillClientCapabilities` | src/client/features/textDocument.test.ts:92-98 | the descriptor's text-document entry becomes `WithSynchronizationDynamicRegistration` of the old one; workspace unchanged |
| `TextDocument.TextDocumentNotificationFeature.Register` | src/client/features/textDocument.test.ts:63-69 | the selector map changes as `Registration.Register` says; a refused id changes and sends nothing |
| `TextDocument.TextDocumentNotificationFeature.Unregister` | src/client/features/textDocument.test.ts:71-74 | the selector map changes as `Registration.Unregister` says; nothing is sent |
| `TextDocument.TextDocumentNotificationFeature.OnSnapshot` | src/client/features/textDocument.test.ts:172-209 | appends the transition's notifications to the client's log and remembers the new document |
| `DocumentSync.PairTransitionKeepsServerInSync` | src/client/features/textDocument.test.ts:200-209 | per snapshot, close-then-open moves the server's view from the old document to the new one, every message valid |
| `DocumentSync.PairTraceKeepsServerInSync` | src/client/features/textDocument.test.ts:172-209 | over any stream, no open while something is open, no close of a document not open, and the view ends on the last matching document |
| `DocumentSync.RegistrationKeepsServerInSync` | src/client/features/textDocument.test.ts:103-106 | registering the same selector on both features keeps the server's view in step |
| `DocumentSync.SameDocumentIsSilent` | src/client/features/textDocument.test.ts:172-177 | while the same uri stays active a feature sends nothing |
| `DocumentSync.NoRegistrationIsSilent` | src/client/features/textDocument.test.ts:103-106 | with no registration a feature never sends anything |
| `DocumentSync.AtMostOnePerSnapshot` | src/client/features/textDocument.test.ts:185-189 | a feature sends at most one notification per snapshot |
| `DocumentSync.OpensAreForMatchingDocuments` | src/client/features/textDocument.test.ts:114-121 | every open carries a document of the stream that matches a registered selector |
| `DocumentSync.NotifyPair` | src/client/features/textDocument.test.ts:200-209 | a snapshot delivered to the didClose then the didOpen feature on one client appends exactly the pair's close-then-open transition |
| `DocumentSync.ObserveStream` | src/client/features/textDocument.test.ts:172-209 | a stream delivered to the pair appends exactly the pair's trace, and the server's view replayed from it ends on the last matching document |
| `DocumentSync.SwitchClosesThenOpens` | src/client/features/textDocument.test.ts:200-209 | switching from `file:///f` to `file:///f2` sends the close of f, then the open of f2 |
| `FeatureScenarios.DynamicRegistrationScenario` | src/client/features/textDocument.test.ts:49-61 | register/unregister of `a`, and of `a`, `b` unregistered as `b`, `a`, raise no error |
| `FeatureScenarios.RegistrationErrorScenario` | src/client/features/textDocument.test.ts:63-74 | a second `a` is a duplicate error; unregistering `a` on a fresh feature is an unknown-id error |
| `FeatureScenarios.LifecycleCapabilitiesScenario` | src/client/features/textDocument.test.ts:143-149 | both features turn `{}` into exactly `{textDocument: {synchronization: {dynamicRegistration: true}}}` |
| `FeatureScenarios.DidOpenScenario` | src/client/features/textDocument.test.ts:100-125 | with `['l']` registered, opening a document of language `l` sends exactly one didOpen with `{textDocument: item}` |
| `FeatureScenarios.DidCloseScenario` | src/client/features/textDocument.test.ts:151-213 | open, close, reopen, switch: nothing, close of f, nothing, close of f |
| `FeatureScenarios.HoverScenario` | src/client/features/hover.ts:25-39 | the hover feature fills `{}` exactly (workspace still absent, text-document entry only the hover record), and its registered provider sends the params unchanged and returns the server's answer |
| `HoverFeature.Provide` | src/client/features/hover.ts:36-37 | the provider sends one `textDocument/hover` request with the params unchanged and returns the server's answer |
| `HoverFeature.FeatureProviderRegistry.RegisterProvider` | src/client/features/hover.ts:34-35 | the registry records the call and returns a disposer naming it |
| `HoverFeature.FeatureProviderRegistry.Unsubscribe` | src/client/features/hover.ts:33 | disposing marks that provider as removed |
| `HoverFeature.TextDocumentHoverFeature.constructor` | src/client/features/hover.ts:18-25 | the feature's `messages` is the hover request type; no registration yet |
| `HoverFeature.TextDocumentHoverFeature.FillClientCapabilities` | src/client/features/hover.ts:27-31 | the descriptor's text-document entry becomes `WithHoverCapabilities` of the old one; workspace unchanged |
| `HoverFeature.TextDocumentHoverFeature.RegisterProvider` | src/client/features/hover.ts:33-39 | calls the registry exactly once with the options unchanged and a forwarding provider, and returns the registry's disposer |
| `HoverFeature.TextDocumentHoverFeature.Register` | src/client/features/hover.ts:17-23 | a fresh id registers one provider and stores its disposer; a duplicate id is refused before the registry is touched |
| `HoverFeature.TextDocumentHoverFeature.Unregister` | src/client/features/hover.ts:17-23 | a known id disposes its provider and is removed; an unknown id is refused with nothing changed |

## Left out

- The reactive streams (the environment subject, observables, `from(promise)`) are replaced by calls: one `OnSnapshot` per environment snapshot, and a synchronous answer from the server.
- Asynchrony and cancellation of hover requests are not modelled; a hover request answers at once.
- The transport of the client is not modelled; the client only logs what is sent.
- Thrown registration errors are returned as error values.
- Selector clauses by scheme or glob pattern, and a `null` selector, are not modelled; the tests use only language ids and `"*"`.
- `initialize` (registration from the server's static capabilities) is not modelled: it belongs to the lifecycle feature implementation, which this model does not cover, and the tests stub it out (src/client/features/textDocument.test.ts:41-43).
- The message-kind argument of `register` is not modelled: nothing in hover.ts or in the tests depends on it.
- The provider registry keeps only a log of its calls and the disposed handles; how it dispatches providers by selector is not modelled.
- Nested capability records are values: aliasing of a sub-record returned by `ensure` is not modelled.
- DocumentSync.PairTraceKeepsServerInSync: holds for fixed registrations and a language id that does not change while a uri stays active. Unregistering a selector that matches the open document leaves the server's view stale, because unregistering sends no close.

# Identity service: message protocol and access gate

A Dafny model of `IdentityService`, the signing mediator of the DeSo identity
window. The mediator runs inside an iframe or a native webview. It brokers
signing, encryption, decryption and token requests for untrusted host pages
without revealing the seed to them. The model covers five parts:

- **Transaction classifier** (`Classifier`): maps a parsed transaction's
  metadata kind to the access tier it needs. Social kinds get `ApproveLarge`;
  everything else, unnamed kinds included, gets `Full`.
- **Access gate** (`Gate`): the claimed level has to reach the required
  tier's code, the level proof (HMAC) has to verify, and an encryption key has
  to exist for the host. For signing there is also a spend-safety check, and
  it keys on the *claimed* level being `ApproveLarge`.
- **Request handlers and dispatcher** (`Dispatch`, `Service`): a namespace
  filter, then a split into requests and responses on `method`, then a switch
  on the method name. Each gated handler runs gate, then spend check (for
  `sign` only), then delegate, then exactly one reply carrying the request's
  id.
- **Correlation table** (`Service.IdentityService.outbound`): `send`
  registers a one-shot cell (`Slot`) under a fresh id. A response completes
  that cell once and removes the entry.
- **Transport selector** (`Transport`): an ordered chain over the bridge
  objects that exist. It picks the channel and decides whether the message
  goes as a JSON string or as a structured object.

The crypto and signing services are records of function values (`Gate.Crypto`,
`Gate.Signer`). Every property holds for every choice of them that returns
normally; a collaborator that throws is outside the model (see "## Left out"). The same goes
for the integer codes of the access-level enumeration (`LevelCodes`): no order
between them is assumed, and they are not even assumed distinct except where a
lemma says it needs that. The class keeps three logs: `outbox` (every message
handed to `postMessage`), `calls` (every signing-service call) and
`browserSupported`. This makes "no delegation on denial" and "exactly one
reply" statements about state.

Two behaviours of the code worth knowing:

- In webview mode with no bridge present, `postMessage` sends nothing
  (`src/app/identity.service.ts:414-430`). It does not fall back to
  window messaging. `Transport.SelectChannel` returns `None` there.
- `handleResponse` does not log an unknown id. It dereferences `undefined` at
  :372 and throws before the `delete`. It also throws earlier, at :364, when
  `new URL(origin)` cannot parse the origin (the opaque origin `"null"` of a
  sandboxed or `data:` frame), even for a registered id, so that entry stays
  pending. In both cases the model returns `fault == true` and changes
  nothing.

The model also keeps JavaScript truthiness where it changes routing. A message
whose `method` is the empty string is handled as a response. The decryption
mode depends only on whether `encryptedHexes` is present.

## Model

| member | source | states |
|---|---|---|
| `Classifier.RequiredAccessLevel` | src/app/identity.service.ts:248-279 | `ApproveLarge` exactly for Follow, PrivateMessage, SubmitPost and Like; `Full` for the sixteen funds/authorisation kinds and for every unnamed kind (fail-closed); never `ApproveAll` |
| `Classifier.FirstForeignOutput` | src/app/identity.service.ts:300-305 | the index of the first output whose key differs from the sender's, with all earlier outputs paying the sender; `None` exactly when every output pays the sender |
| `Protocol.ParseMethod` | src/app/identity.service.ts:342-359 | a method name is recognised exactly when it is the wire name of one of the seven operations, and then it denotes that operation |
| `Protocol.IsRequest` | src/app/identity.service.ts:330-335 | an absent or empty `method` is not a request (the truthiness test), and every known method name is one |
| `Protocol.ParseMethodName` | src/app/identity.service.ts:342-355 | parsing an operation's wire name gives back that operation |
| `Gate.HasAccessLevel` | src/app/identity.service.ts:281-289 | false whenever the claimed level is below the required tier's code, whatever the proof; otherwise exactly the proof-validity predicate on the claimed level, the seed decrypted for this host and the HMAC |
| `Gate.Approved` | src/app/identity.service.ts:310-320 | the base gate passes exactly when the claim reaches the tier, the proof verifies and an encryption key exists for the host |
| `Gate.SpendingApproved` | src/app/identity.service.ts:292-308 | a claim other than `ApproveLarge` passes; an `ApproveLarge` claim passes exactly when every output pays the sender |
| `Gate.RequiredLevel` | src/app/identity.service.ts:104-202 | the tier each handler asks `approve` for: `Full` for `burn` and `signETH` (:105, :119), `ApproveAll` for `encrypt`, `decrypt` and `jwt` (:165, :178, :202), and for `sign` the classifier's tier, `ApproveLarge` exactly for social kinds (:137-142) |
| `Gate.Permitted` | src/app/identity.service.ts:137-153 | a permitted request passed the tier, proof and key tests, and a permitted signing under an `ApproveLarge` claim pays only its sender; for operations other than `sign` it is exactly the base gate |
| `Gate.CallOf` | src/app/identity.service.ts:186-194 | decryption calls the legacy decryptor exactly when `encryptedHexes` is present and the shared-secret decryptor exactly when it is absent; no other operation calls either |
| `Gate.Delegate` | src/app/identity.service.ts:109-211 | each operation's result carries its own field (`signedHashes`, `signatures`, `signedTransactionHex`, `encryptedMessage`, `decryptedHexes`, `jwt`) |
| `Gate.GatedReply` | src/app/identity.service.ts:104-213 | a gated request's one reply is `approvalRequired` exactly when a check fails, and otherwise the delegated operation's result |
| `Gate.ThirdPartySpendNeedsApproval` | src/app/identity.service.ts:292-308 | an `ApproveLarge` claim on a transaction with an output paying a third party gets `approvalRequired` and causes no signing call, even if the base gate passes |
| `Gate.FullGrantSignsStrictKinds` | src/app/identity.service.ts:132-161 | a verified `Full` claim (with a key for the host) gets any `Full`-tier transaction signed, whoever its outputs pay |
| `Gate.ApproveAllClaimSkipsSpendCheck` | src/app/identity.service.ts:292-297 | the spend check keys on the claim: if the enumeration does not put `ApproveAll` below `ApproveLarge`, a verified `ApproveAll` claim gets a social transaction signed whatever its outputs pay |
| `Transport.FirstPresent` | src/app/identity.service.ts:414-430 | the first present channel of a priority list, with none before it present; `None` exactly when none is present |
| `Transport.SelectChannel` | src/app/identity.service.ts:413-434 | outside a webview: the window, structured; otherwise a present bridge, stringified exactly for the Android, React Native and legacy Android bridges; nothing exactly when in a webview with no bridge |
| `Transport.SelectionIsFirstMatch` | src/app/identity.service.ts:414-430 | in a webview the chain picks the first present bridge in the order iOS, Android, React Native, legacy iOS, legacy Android |
| `Transport.DeliveredAll` | src/app/identity.service.ts:413-434 | every post is one delivery attempt: all posted messages go out in order through the selected channel, or none does when there is no channel |
| `Dispatch.BrowserSupported` | src/app/identity.service.ts:235 | the browser counts as supported when the cookie reads back or local storage is reachable, and not when neither holds |
| `Dispatch.InfoReply` | src/app/identity.service.ts:217-242 | the capability report: cookie and local-storage flags as probed, storage access granted unless the platform mandates asking and then as answered, `browserSupported` the disjunction of cookie and local storage |
| `Dispatch.RequestReplies` | src/app/identity.service.ts:338-360 | a request posts exactly one reply, carrying its id, for a known method and none for an unknown one; the capability reply has no gate; a gated reply is `approvalRequired` exactly when not permitted |
| `Dispatch.RequestCalls` | src/app/identity.service.ts:338-360 | a request causes at most one signing call: one exactly when a gated request is permitted, none for `info` or an unknown method |
| `Service.Slot.Resolve` | src/app/identity.service.ts:372-373 | completes an open cell with the response; a completed cell cannot be completed again |
| `Service.IdentityService.constructor` | src/app/identity.service.ts:41-47 | the table, outbox and call log start empty and `browserSupported` starts true |
| `Service.IdentityService.PostMessage` | src/app/identity.service.ts:413-434 | appends the message to the outbox and delivers it through the selected channel, if there is one |
| `Service.IdentityService.Send` | src/app/identity.service.ts:378-391 | adds exactly one open cell under the fresh id, leaves the other entries unchanged, and posts one request carrying that id and the method |
| `Service.IdentityService.Respond` | src/app/identity.service.ts:394-400 | posts one response carrying the id and payload, with no method |
| `Service.IdentityService.Cast` | src/app/identity.service.ts:403-410 | posts one notification with a null id and the method |
| `Service.IdentityService.Initialize` | src/app/identity.service.ts:62-64 | the handshake is a `send` of `initialize` |
| `Service.IdentityService.StorageGranted` | src/app/identity.service.ts:66-68 | posts the `storageGranted` notification without a payload |
| `Service.IdentityService.Login` | src/app/identity.service.ts:70-79 | posts the `login` notification with its payload |
| `Service.IdentityService.Approve` | src/app/identity.service.ts:310-320 | returns the base gate's verdict; on a denial it posts exactly one `approvalRequired` reply with the request's id, and on a pass it posts nothing |
| `Service.IdentityService.ApproveSpending` | src/app/identity.service.ts:292-308 | returns the spend check's verdict; at the first foreign output it posts exactly one `approvalRequired` reply and stops; otherwise it posts nothing |
| `Service.IdentityService.HandleBurn` | src/app/identity.service.ts:104-116 | exactly one reply with the request's id: `approvalRequired` unless gated at `Full`, else `signedHashes`; one `signHashes` call exactly when permitted |
| `Service.IdentityService.HandleSignETH` | src/app/identity.service.ts:118-130 | as `burn`, with `signatures` from `signHashesETH` |
| `Service.IdentityService.HandleSign` | src/app/identity.service.ts:132-161 | classify, gate at the required tier, spend check, sign: exactly one reply with the id, `signedTransactionHex` exactly when both checks pass |
| `Service.IdentityService.HandleEncrypt` | src/app/identity.service.ts:164-175 | gated at `ApproveAll`; exactly one reply, `encryptedMessage` when permitted |
| `Service.IdentityService.HandleDecrypt` | src/app/identity.service.ts:177-199 | gated at `ApproveAll`; legacy decryption exactly when `encryptedHexes` is present, shared-secret decryption otherwise; exactly one reply carrying `decryptedHexes` when permitted |
| `Service.IdentityService.HandleJwt` | src/app/identity.service.ts:201-213 | gated at `ApproveAll`; exactly one reply, `jwt` when permitted |
| `Service.IdentityService.HandleInfo` | src/app/identity.service.ts:215-243 | no access check and no signing call; `browserSupported` becomes cookie-or-local-storage, and the one reply reports the four capability flags |
| `Service.IdentityService.HandleRequest` | src/app/identity.service.ts:338-360 | the outbox, call log and browser flag change exactly as the request's values say; an unknown method changes nothing |
| `Service.IdentityService.HandleResponse` | src/app/identity.service.ts:362-375 | for a registered id and a parsable origin, the response `{id, payload, hostname}` goes to that cell, the entry is removed and the others stay unchanged; an unparsable origin (:364) or an unregistered id (:371-372) is a fault and leaves the table unchanged |
| `Service.IdentityService.HandleMessage` | src/app/identity.service.ts:324-375 | a foreign namespace changes nothing; a truthy `method` routes to the request path, anything else to the response path; a fault happens exactly on a response with an unparsable origin or an unregistered id; the table keeps its invariant |
| `Service.OneShotRoundTrip` | src/app/identity.service.ts:362-391 | after `initialize` and its response, the caller's cell holds the host's payload and the entry is gone; a duplicate response is a fault and leaves the completed cell as it was |

## Left out

- Cryptography and signing (`decryptSeedHex`, `validAccessLevelHmac`, `hasSeedHexEncryptionKey`, every signing-service call): these are collaborators outside this core. They appear as function-valued parameters in `Gate.Crypto` and `Gate.Signer`.
- Collaborators are assumed to return normally. In the source an exception from any of them escapes the handler and no reply is posted: `decryptSeedHex` at :287 (it runs before the key-presence test at :312), `validAccessLevelHmac` at :288, and the signing calls at :111, :125, :156, :171, :189, :193 and :208. So "exactly one reply per gated request" holds only when no collaborator throws.
- Transaction parsing (`Transaction.fromBytes`, hex decoding; `src/app/identity.service.ts:249-250`, :298-299): `lib/deso/transaction` is not part of this model. The payload carries the parsed transaction beside `transactionHex`, so a parse that throws is not modelled.
- `uuid()`: the fresh id is a parameter of `Send` and `Initialize`, and the precondition `id !in outbound` stands for its uniqueness.
- rxjs `Subject`/`Observable`: a subject is the one-shot `Slot`. Subscribers, `complete()` and teardown are not modelled.
- `handleInfo`'s asynchronous storage-access query, the `localStorage` try/catch and the cookie write and read: they are browser I/O. Their outcomes are the `Dispatch.Probes` inputs. The suspension of `handleInfo` is not modelled, which means the order of its reply relative to later messages is not captured.
- `derive` (:81-100): a backend HTTP call followed by a redirect or a `cast`. Both are network and navigation effects.
- `window.addEventListener`, `opener || parent`, URL parsing in `new URL(origin).hostname` (the event carries the parsed host name, or `None` when parsing would throw) and the text produced by `JSON.stringify` (serialising is the boolean tag in `Transport.Delivery`).
- Bridge presence and `globalVars.webview` are fixed when the service is built (`bridges`), whereas the source probes the window on each post.
- Dynamically typed payload fields: the model gives the claimed level an integer type and each field a fixed type. Claims such as `undefined` or a string, and an `encryptedHexes` that is present but falsy, are not representable. One consequence matters for security: a string claim equal in value to a code passes the `<` at :283, because JavaScript coerces it to a number, but fails the `===` at :297. Such a claim of `ApproveLarge` therefore skips the spend check. Whether its HMAC verifies depends on `validAccessLevelHmac`, which is not part of this model.
- `console.error` on an unknown method (:357-358): logging only. The model posts nothing and changes nothing.

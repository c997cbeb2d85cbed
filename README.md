# WalletConnect-Bridge relay protocol in Dafny

This project models the request/reply relay of WalletConnect-Bridge. A wallet
extension injects an iframe. The iframe relay (`src/scripts/iframeScript.js`)
opens or reuses a signing tab, holds the extension's commands until the tab
says it is ready, relabels them from `WC-IFRAME` to `WC-TAB` and forwards
them on the `walletconnect` broadcast channel. The tab controller
(`src/App.tsx`) dispatches each command by its `action`, drives the signing
client and posts back a reply tagged `<action>-reply`. It posts that reply
only while it is connected and holds a channel.

Files:

- `messages.dfy` (module `Messages`): the envelope. Every message is one
  record with optional fields, where `None` is an absent property. The file
  also holds the tags, the action names, the error strings, the reply tag,
  the relabelling and the `Status`, `Reply` and `Ping` shapes.
- `tab_controller.dfy` (module `TabController`): pure specification
  functions on a snapshot `TabState`, one per handler. They are followed by
  lemmas about them and by the class `App`. `App` keeps the component's
  fields and a channel outbox, and each of its methods is proved against
  its specification function.
- `browser.dfy` (module `Browser`): the signing tab's window, which both
  components touch. Its `onbeforeunload` is a single slot, and the last
  handler assigned to it is the one that runs.
- `protocol.dfy` (module `Protocol`): the two components together. What one
  posts on the channel is what the other receives, and both assign the
  tab's one `onbeforeunload` slot.
- `iframe_relay.dfy` (module `IframeRelay`): the same structure for the
  relay. The specification functions work on `RelayState`. The class
  `Relay` keeps the named tab as a `BrowserWindow` handle and has outboxes
  for the channel and for the parent window.

How the model treats the environment:

- The broadcast channel and the parent window are outboxes, which are
  sequences of posted messages. Incoming messages are method parameters.
- The signing client appears in two places. Whether a connector exists is
  part of the tab's state. What a signing call settles to is an `Outcome`
  (`Signed(sig)` or `Failed(message)`), passed to `OnSignResult`.
- A signing command is therefore two steps. The command starts the call:
  `pendingRequest` goes up and the call is kept in `inFlight`. Later the
  answer finishes it and posts the gated reply. This split makes it possible
  to state that a reply is dropped when the session ends in between.
- The relay's `while (!tabReady)` poll is an explicit `Tick(i)` event,
  carried out by `Relay.WaitPass(i)`. It is one pass of the loop of the
  `i`-th waiting command: it pings the tab, then forwards the command if
  the tab is ready.
- `Run` in each module folds any sequence of events. The lemmas about whole
  runs are stated on it.

Three points of the code that are easy to misread:

- The tab creates its broadcast channel in `connect` only when
  `window.parent === window`, that is when it is a top-level tab
  (`src/App.tsx:168-174`).
- The `ready: false` broadcast on unload comes from the tab's
  `window.onbeforeunload` (`src/App.tsx:239-242`). The relay's own hook on
  the tab only clears `tabReady` (`src/scripts/iframeScript.js:31-34`).
  Both assign the same attribute of the tab's window, so only the handler
  assigned last runs.
- A connection check sends `ready: true` only when the tab is connected and
  also holds a channel.

## Model

| member | source | states |
|---|---|---|
| Messages.ReplyAction | src/App.tsx:249 | the reply tag is the action's text followed by `-reply`; an absent action reads as `undefined` |
| Messages.ReplyActionInjective | src/App.tsx:248-249 | two different action names never share a reply tag, so the tag identifies the command it answers |
| Messages.UndefinedActionCollides | src/App.tsx:249 | a command without an action and one whose action is the text `undefined` get the same reply tag |
| Messages.Relabel | src/scripts/iframeScript.js:43-44 | a forwarded command carries target `WC-TAB` and is otherwise the incoming message unchanged |
| Messages.ReplyIsNotRouted | src/App.tsx:396-402 | a reply `{action, success, payload}` has no target, so it is neither a command nor a readiness signal |
| TabController.Route | src/App.tsx:251-272 | each of the five known actions selects its own handler; every other action, absent ones included, is unsupported |
| TabController.Gate | src/App.tsx:396-402 | a reply is emitted, exactly once, if and only if the tab is connected and holds a channel |
| TabController.SignReply | src/App.tsx:413-471 | a signature gives `(true, {sig})`, a failure gives `(false, {error: message})`, no connector gives `(false, {error: "unknown error"})` |
| TabController.UnlockReply | src/App.tsx:306-316 | `unlock` succeeds if and only if connected, with exactly the current accounts; otherwise it fails with "not connected!" |
| TabController.OnlyTabCommandsDispatched | src/App.tsx:244-246 | a message that is absent or not tagged `WC-TAB` changes nothing and gets no answer |
| TabController.RepliesCorrelate | src/App.tsx:246-273 | a command gets at most one message back: either the `ready: true` signal of a connection check, or a reply tagged with the command's own `<action>-reply` |
| TabController.DisconnectedIsSilent | src/App.tsx:396-402 | while disconnected, no command makes the tab broadcast anything |
| TabController.DisconnectedUnlockOrUnsupportedIsInert | src/App.tsx:306-316 | `unlock` or an unsupported action on a disconnected tab posts nothing and changes no state, so "not connected!" never reaches the relay |
| TabController.UnlockAnswersAccounts | src/App.tsx:306-311 | `unlock` while connected answers `(walletconnect-unlock-reply, true, {accounts})` with exactly the current accounts and changes nothing |
| TabController.UnsupportedIsRefused | src/App.tsx:270-271 | an unknown action is answered `(<action>-reply, false, {error: "Not supported"})` |
| TabController.CheckAnnouncesReadiness | src/App.tsx:291-300 | a connection check changes nothing and posts `{target: tab-status, ready: true}` exactly when connected with a channel, and never a reply |
| TabController.SignRaisesPending | src/App.tsx:417-427 | a sign command that reaches the connector raises `pendingRequest`, records exactly one outstanding call under its reply tag, and posts nothing yet |
| TabController.SignWithoutConnector | src/App.tsx:411-415 | with no connector, `pendingRequest` and the outstanding calls are untouched and the gated reply is "unknown error" |
| TabController.SignRecordsAddress | src/App.tsx:324-375 | the transaction and typed-data commands store the requested address; the personal-message command does not |
| TabController.SignResultLowersPending | src/App.tsx:441-471 | whatever the outcome, the answer lowers `pendingRequest`, puts back the call's connector, removes the call and posts the gated reply under the call's tag |
| TabController.SignRoundTrip | src/App.tsx:324-346 | on a connected tab, a sign command answered before anything else happens yields exactly one reply under its tag, `{sig}` or `{error}`, and the outstanding calls return to what they were |
| TabController.ReplyDroppedAfterReset | src/App.tsx:642-650 | a signature that arrives after `resetApp` is posted nowhere, and it brings back the connector `resetApp` cleared while the tab stays disconnected |
| TabController.ResetRestoresInitial | src/App.tsx:642-650 | `resetApp` posts one `ready: false` exactly when it holds a channel and restores `INITIAL_STATE`; a second reset posts nothing |
| TabController.ConnectSetsSession | src/App.tsx:652-665 | `onConnect` sets `connected`, the chain, the accounts and `address = accounts[0]` (absent when there are no accounts), and keeps the channel |
| TabController.ConnectOutcome | src/App.tsx:148-174 | `connect` always leaves a connector; it connects exactly when a session is restored, opens the channel exactly in a top-level tab whose session exists or was created, and after a rejected `createSession` changes nothing else |
| TabController.SessionUpdateKeepsConnection | src/App.tsx:674-678 | a session update replaces the chain, the accounts and the address (`accounts[0]`) and leaves `connected` and the channel alone |
| TabController.RunKeepsPending | src/App.tsx:422-471 | over any run of events, `pendingRequest` is up only while some signing call is outstanding |
| TabController.NeverConnectedNeverAnswers | src/App.tsx:291-402 | a tab that is never connected broadcasts only `ready: false` signals, never a reply or a readiness signal |
| TabController.App.constructor | src/App.tsx:144-146 | the component starts in `INITIAL_STATE` in its window, with nothing posted |
| TabController.App.SendMessageToIframe | src/App.tsx:396-402 | appends the reply to the channel outbox exactly when `Gate` lets it through |
| TabController.App.CheckReadyForCommand | src/App.tsx:291-300 | posts what `CheckReadyStep` says and changes no state |
| TabController.App.Unlock | src/App.tsx:302-322 | posts what `UnlockStep` says and changes no state |
| TabController.App.WcSign | src/App.tsx:406-427 | brings the state and the outbox to `SignStep` with the address unchanged |
| TabController.App.BcSignTransaction | src/App.tsx:324-346 | brings the state and the outbox to `SignStep` for a transaction |
| TabController.App.BcSignPersonalMessage | src/App.tsx:348-368 | brings the state and the outbox to `SignStep` for a personal message |
| TabController.App.BcSignTypedData | src/App.tsx:370-390 | brings the state and the outbox to `SignStep` for typed data |
| TabController.App.OnSignResult | src/App.tsx:427-471 | brings the state and the outbox to `SignResultStep`, connector put back included |
| TabController.App.OnChannelMessage | src/App.tsx:244-275 | brings the state and the outbox to `DispatchStep` |
| TabController.App.OnConnect | src/App.tsx:652-667 | the state becomes `ConnectedState` and nothing is posted |
| TabController.App.OnSessionUpdate | src/App.tsx:674-678 | the state becomes `SessionUpdatedState` and nothing is posted |
| TabController.App.ResetApp | src/App.tsx:642-650 | brings the state and the outbox to `ResetStep` |
| TabController.App.OnDisconnect | src/App.tsx:669-672 | the same as `resetApp` |
| TabController.App.KillSession | src/App.tsx:633-640 | the same as `resetApp`; ending the remote session belongs to the signing client |
| TabController.App.Connect | src/App.tsx:148-242 | stores the connector; when `createSession` rejects, stops there; otherwise adopts an existing session and, only in a top-level tab, opens the channel and puts its own handler in the window's `onbeforeunload` slot |
| TabController.App.OnBeforeUnload | src/App.tsx:239-242 | the tab's handler posts `ready: false` when the tab holds a channel |
| IframeRelay.InactiveRelayIsInert | src/scripts/iframeScript.js:7-12 | a relay that is not embedded reacts to no message and no tick |
| IframeRelay.UntrustedWindowMessageIgnored | src/scripts/iframeScript.js:25 | a window message that is not a `WC-IFRAME` command from the parent window changes nothing and posts nothing |
| IframeRelay.CommandGatedByReadiness | src/scripts/iframeScript.js:37-44 | an accepted command is forwarded at once, relabelled and with no ping, when the tab is ready; otherwise nothing is posted and the command waits |
| IframeRelay.TickPingsOnce | src/scripts/iframeScript.js:37-41 | each pass of the wait loop posts exactly one ping first; the relabelled command follows only if the tab is ready |
| IframeRelay.ChannelRouting | src/scripts/iframeScript.js:53-57 | a `tab-status` message sets `tabReady` from `ready` and is not forwarded; any other message goes to the parent unchanged |
| IframeRelay.UnloadClosesGate | src/scripts/iframeScript.js:31-34 | the relay's unload hook sets `tabReady` to false and keeps the waiting commands |
| IframeRelay.OpenOnceNavigatesOnce | src/scripts/iframeScript.js:72-81 | once a tab has been resolved it is no longer blank, so resolving it again navigates nothing |
| IframeRelay.RunRoutes | src/scripts/iframeScript.js:22-58 | over any run, only `WC-TAB` messages go on the channel and no `tab-status` message reaches the parent |
| IframeRelay.NoCommandBeforeReady | src/scripts/iframeScript.js:37-44 | until a `ready: true` signal arrives, the relay posts nothing on the channel but pings |
| IframeRelay.WaitingPingsEveryTick | src/scripts/iframeScript.js:37-41 | while the tab is not ready, n passes of a command's wait loop post exactly n pings and leave the command waiting |
| IframeRelay.HandshakeForwardsCommand | src/scripts/iframeScript.js:22-58 | a command, then `ready: true`, then one pass of the loop yields exactly a ping and then the relabelled command |
| Protocol.PingOpensGate | src/scripts/iframeScript.js:37-44 | a ping from a waiting command reaches a connected tab, which answers only `ready: true`; that opens the relay's gate, and the next pass of the loop forwards the command |
| Protocol.TabUnloads | src/App.tsx:239-242 | an unload runs only the handler in the tab's `onbeforeunload` slot: the tab's posts `ready: false`, the relay's clears `tabReady`; the slot is then empty |
| Protocol.CommandThenUnload | src/scripts/iframeScript.js:29-34 | after the relay handles a command for the tab, its hook replaces the tab's: an unload posts no `ready: false` and closes the relay's gate |
| Protocol.ConnectThenUnload | src/App.tsx:231-242 | after a top-level tab's `connect` completes, its handler replaces the relay's: an unload posts `ready: false` and leaves `tabReady` alone |
| Protocol.ForwardedCommandAnsweredUnderItsTag | src/App.tsx:246-249 | whatever the tab posts in answer to a forwarded command is either a readiness signal the relay keeps, or a reply under the command's own `<action>-reply` tag that the relay hands to the extension unchanged |
| IframeRelay.Relay.constructor | src/scripts/iframeScript.js:4-14 | the relay is active exactly when embedded, and it starts with `tabReady = false` and nothing waiting |
| IframeRelay.Relay.OpenOnce | src/scripts/iframeScript.js:72-81 | returns the existing named window or a fresh one with an empty `onbeforeunload`, navigates it only if it is at `about:blank`, and always focuses it |
| IframeRelay.Relay.PingTab | src/scripts/iframeScript.js:61-64 | appends one connection-check ping tagged `WC-TAB` to the channel |
| IframeRelay.Relay.SendMessageToExtension | src/scripts/iframeScript.js:66-70 | appends the message unchanged to the parent outbox |
| IframeRelay.Relay.OnWindowMessage | src/scripts/iframeScript.js:22-47 | brings the state and the channel to `WindowStep`; an accepted command also resolves the tab and puts the relay's hook in its `onbeforeunload` slot, replacing any other handler |
| IframeRelay.Relay.WaitPass | src/scripts/iframeScript.js:37-44 | brings the state and the channel to `TickStep` |
| IframeRelay.Relay.OnChannelMessage | src/scripts/iframeScript.js:49-58 | brings the state and the parent outbox to `ChannelStep` |
| IframeRelay.Relay.OnTabUnload | src/scripts/iframeScript.js:31-34 | the relay's hook clears `tabReady` and keeps the waiting commands |
| IframeRelay.Relay.OnTabClosed | src/scripts/iframeScript.js:72-73 | once the tab is closed, the relay holds no window, so the next `openOnce` creates one |

## Left out

- `service-worker.js`: only precaching and routing configuration of a library.
- Rendering, styled components, `toggleModal`/`showModal`, the displayed
  `result` records (such as the `${tx.value} ETH` string), and the `fetching`,
  `uri` and `assets` fields. They are display only.
- The signing client's internals: `createSession`, the QR modal,
  `signTransaction`, `signPersonalMessage`, `signTypedData`, the connector's
  own `killSession`, and event subscription. Connector events that arrive
  with an error (`if (error) throw error`) are not modelled.
- `hashTypedDataMessage` and the `JSON.stringify` calls of `wcSignTypedData`.
  Their results never reach a reply, but they can throw, and those paths
  are not modelled:
  - `hashTypedDataMessage` (`src/App.tsx:581`) runs inside
    `wcSignTypedData`'s own `try`, after the signature has arrived. Its body
    is not part of this model. If it rejects its argument, the reply is
    `{error: error.message}` (`src/App.tsx:607-627`) and the signature is
    dropped; the model answers a signature with `{sig}`. The
    `JSON.stringify(typedData)` just before it (`src/App.tsx:580`) cannot
    throw there: it stringifies part of the payload that line 563 has
    already stringified.
  - `JSON.stringify(payload)` (`src/App.tsx:563`) runs before that `try`.
    It throws when the payload (its typed data, say) holds a cycle or a
    BigInt. The failure reaches `bcSignTypedData`'s `catch`, which replies
    `{error: err.toString()}` with no signing call started.
- A transaction command without `params.tx`. After the signing client
  answers, `wcSignTransaction` reads `tx.to` and `tx.value`
  (`src/App.tsx:435-436`), and it reads them again in its `catch`
  (`src/App.tsx:459-460`). So the `catch` itself throws, `bcSignTransaction`
  replies `{error: err.toString()}` (`src/App.tsx:339-342`), and
  `pendingRequest` stays up because `src/App.tsx:465-469` never runs. The
  model treats every transaction command as carrying `tx`.
- RunKeepsPending: its invariant does not cover the missing-`tx` path above,
  which leaves `pendingRequest` up with no signing call outstanding.
- The `catch` branches of `bcSign*` that reply `err.toString()` are reached
  only through the paths above, so the model has none. The `catch` of
  `unlock` is unreachable: nothing in its `try` throws.
- `waitForConnection` and `cleanUp`: their bodies do nothing. `cleanUp` runs
  in every `finally`, and that changes no state.
- Timers and `sleep`: a pass of the wait loop is the explicit `Tick`. The
  order in which concurrent waits and signing calls resume is chosen by the
  caller of `WaitPass` and `OnSignResult`.
- Browser behaviour of `window.open`, `focus` and `location`, beyond the
  navigate-if-blank rule. Navigation of the tab by the user is not modelled.
- Cross-origin delivery of `postMessage` and its `'*'` target origin.
  `console.log` calls.
- React's asynchronous `setState`: each update is applied at once.
- A second `connect` would open a second channel with its own handler. The
  model keeps a single channel flag.
- Command parameters other than `address`, non-string `action` values, and
  `ready` values other than booleans or absence.

/**
 * The tab controller (the `App` component of src/App.tsx): it owns the
 * signing session, answers commands that arrive on the broadcast channel and
 * tells the relay whether it is ready.
 *
 * The signing client is not modelled: whether a connector exists is part of
 * the state, and what a signing call returns is the `Outcome` handed to
 * `OnSignResult`, the continuation of the call's `await`. A signing call is
 * therefore two steps: the command starts it (`pendingRequest` goes up and
 * the call is remembered in `inFlight`), and the answer finishes it.
 *
 * The pure part below gives each handler a specification on a snapshot
 * `TabState`; the class `App` at the end implements the handlers on fields
 * and is proved against those functions.
 */
module TabController {
  import opened Messages
  import opened Browser

  datatype SignKind = Transaction | PersonalMessage | TypedData

  /** What the signing client's promise settles to. */
  datatype Outcome = Signed(sig: string) | Failed(message: string)

  /** A signing call whose answer has not arrived yet. */
  datatype SignCall = SignCall(replyAction: string)

  /** `payload.params[0]` of a session event: the chain and the accounts. */
  datatype Session = Session(chainId: int, accounts: seq<string>)

  /** The arms of the dispatcher's `switch (action)`. */
  datatype Handler = CheckHandler | UnlockHandler | SignHandler(kind: SignKind) | UnsupportedHandler

  /**
   * The component state that the relay protocol depends on. `hasConnector`
   * is `connector != null`, `channelOpen` is `bc != null`. `inFlight` is not
   * React state: it lists the signing calls still awaiting their answer.
   */
  datatype TabState = TabState(
    connected: bool,
    chainId: int,
    accounts: seq<string>,
    address: Option<string>,
    pendingRequest: bool,
    hasConnector: bool,
    channelOpen: bool,
    inFlight: seq<SignCall>)

  /** The state after a handler and the messages it posted on the channel. */
  datatype TabStep = TabStep(next: TabState, posted: seq<Message>)

  /** `INITIAL_STATE`, with no signing call outstanding. */
  const Initial: TabState := TabState(false, 1, [], Some(""), false, false, false, [])

  /** `accounts[0]`, which is `undefined` for an empty list. */
  function First(accounts: seq<string>): Option<string> {
    if |accounts| > 0 then Some(accounts[0]) else None
  }

  predicate IsKnownAction(action: Option<string>) {
    action == Some(CheckAction) || action == Some(UnlockAction) ||
    action == Some(SignTransactionAction) || action == Some(SignPersonalMessageAction) ||
    action == Some(SignTypedDataAction)
  }

  /** The dispatch table: each known action selects its handler, anything else is unsupported. */
  function Route(action: Option<string>): (h: Handler)
    ensures h == UnsupportedHandler <==> !IsKnownAction(action)
    ensures h == CheckHandler <==> action == Some(CheckAction)
    ensures h == UnlockHandler <==> action == Some(UnlockAction)
    ensures h == SignHandler(Transaction) <==> action == Some(SignTransactionAction)
    ensures h == SignHandler(PersonalMessage) <==> action == Some(SignPersonalMessageAction)
    ensures h == SignHandler(TypedData) <==> action == Some(SignTypedDataAction)
  {
    if action == Some(CheckAction) then CheckHandler
    else if action == Some(UnlockAction) then UnlockHandler
    else if action == Some(SignTransactionAction) then SignHandler(Transaction)
    else if action == Some(SignPersonalMessageAction) then SignHandler(PersonalMessage)
    else if action == Some(SignTypedDataAction) then SignHandler(TypedData)
    else UnsupportedHandler
  }

  /** `sendMessageToIframe`: a message goes out only while connected and holding a channel. */
  function Gate(s: TabState, m: Message): (out: seq<Message>)
    ensures out == [] || out == [m]
    ensures out != [] <==> s.connected && s.channelOpen
  {
    if s.connected && s.channelOpen then [m] else []
  }

  /**
   * How a signing call's result becomes `(success, payload)`: `None` is the
   * `undefined` that `wcSign*` returns when there is no connector.
   */
  function SignReply(outcome: Option<Outcome>): (r: (bool, Payload))
    ensures r.0 <==> outcome.Some? && outcome.value.Signed?
    ensures r.0 ==> r.1 == SigPayload(outcome.value.sig)
    ensures outcome.Some? && outcome.value.Failed? ==> r.1 == ErrorPayload(outcome.value.message)
    ensures outcome.None? ==> r.1 == ErrorPayload(UnknownError)
  {
    match outcome
    case Some(Signed(sig)) => (true, SigPayload(sig))
    case Some(Failed(message)) => (false, ErrorPayload(message))
    case None => (false, ErrorPayload(UnknownError))
  }

  /** `unlock`'s answer: the current accounts when connected, an error otherwise. */
  function UnlockReply(s: TabState): (r: (bool, Payload))
    ensures r.0 <==> s.connected
    ensures r.0 ==> r.1 == AccountsPayload(s.accounts)
    ensures !r.0 ==> r.1 == ErrorPayload(NotConnectedError)
  {
    if s.connected then (true, AccountsPayload(s.accounts))
    else (false, ErrorPayload(NotConnectedError))
  }

  /** `checkReadyForCommand` */
  function CheckReadyStep(s: TabState): TabStep {
    TabStep(s, if s.connected && s.channelOpen then [Status(true)] else [])
  }

  /** `unlock` */
  function UnlockStep(s: TabState, replyAction: string): TabStep {
    var r := UnlockReply(s);
    TabStep(s, Gate(s, Reply(replyAction, r.0, r.1)))
  }

  /**
   * `bcSign*` up to the signing client's `await`: the transaction and
   * typed-data commands record the requested address first; without a
   * connector the reply is "unknown error" at once, with one the call starts.
   */
  function SignStep(s: TabState, replyAction: string, kind: SignKind, address: Option<string>): TabStep {
    var s1 := if kind == PersonalMessage then s else s.(address := address);
    if !s1.hasConnector then
      var r := SignReply(None);
      TabStep(s1, Gate(s1, Reply(replyAction, r.0, r.1)))
    else
      TabStep(s1.(pendingRequest := true, inFlight := s1.inFlight + [SignCall(replyAction)]), [])
  }

  /**
   * The rest of `bcSign*` once the `i`-th outstanding call settles: either
   * way `wcSign*` puts back the connector it captured when the call started
   * and lowers `pendingRequest`, and the reply goes through the gate.
   */
  function SignResultStep(s: TabState, i: nat, outcome: Outcome): TabStep
    requires i < |s.inFlight|
  {
    var call := s.inFlight[i];
    var s1 := s.(hasConnector := true, pendingRequest := false, inFlight := RemoveAt(s.inFlight, i));
    var r := SignReply(Some(outcome));
    TabStep(s1, Gate(s1, Reply(call.replyAction, r.0, r.1)))
  }

  /**
   * `bc.onmessage`. Only a message tagged `WC-TAB` is dispatched, and only
   * while the channel is open. The commands that read `params` throw, and so
   * do nothing, when it is absent.
   */
  function DispatchStep(s: TabState, data: Option<Message>): TabStep {
    if !s.channelOpen || data.None? || data.value.target != Some(TabTarget) then TabStep(s, [])
    else
      var m := data.value;
      var replyAction := ReplyAction(m.action);
      match Route(m.action)
      case CheckHandler => CheckReadyStep(s)
      case UnlockHandler =>
        if m.params.None? then TabStep(s, []) else UnlockStep(s, replyAction)
      case SignHandler(kind) =>
        if m.params.None? then TabStep(s, [])
        else SignStep(s, replyAction, kind, m.params.value.address)
      case UnsupportedHandler =>
        TabStep(s, Gate(s, Reply(replyAction, false, ErrorPayload(NotSupportedError))))
  }

  /** `onConnect` */
  function ConnectedState(s: TabState, session: Session): TabState {
    s.(connected := true, chainId := session.chainId, accounts := session.accounts,
       address := First(session.accounts))
  }

  /** `onSessionUpdate` */
  function SessionUpdatedState(s: TabState, session: Session): TabState {
    s.(chainId := session.chainId, accounts := session.accounts, address := First(session.accounts))
  }

  /** `resetApp`: announce unreadiness on an open channel, close it, restore `INITIAL_STATE`. */
  function ResetStep(s: TabState): TabStep {
    TabStep(Initial.(inFlight := s.inFlight), if s.channelOpen then [Status(false)] else [])
  }

  /**
   * `connect`: a connector is created and stored. Without a session to
   * restore it awaits `createSession`; `created` says whether that promise
   * resolves, and when it rejects `connect` stops there. Otherwise a
   * session already held is adopted as `subscribeToEvents` does, and a
   * top-level tab opens the channel.
   */
  function ConnectState(s: TabState, topLevel: bool, restored: Option<Session>, created: bool): TabState {
    var s1 := s.(hasConnector := true);
    if restored.None? && !created then s1 else
    var s2 := if restored.Some? then SessionUpdatedState(ConnectedState(s1, restored.value), restored.value) else s1;
    if topLevel then s2.(channelOpen := true) else s2
  }

  /** The tab controller's own `window.onbeforeunload` handler. */
  function UnloadStep(s: TabState): TabStep {
    TabStep(s, if s.channelOpen then [Status(false)] else [])
  }

  /** Everything that can happen to the tab controller. */
  datatype TabEvent =
    | ChannelMessage(data: Option<Message>)
    | SignAnswered(index: nat, outcome: Outcome)
    | ConnectClicked(topLevel: bool, restored: Option<Session>, created: bool)
    | SessionConnected(session: Session)
    | SessionUpdated(session: Session)
    | SessionDisconnected
    | KillClicked
    | TabUnloading(ownHandler: bool)

  function Apply(s: TabState, e: TabEvent): TabStep {
    match e
    case ChannelMessage(data) => DispatchStep(s, data)
    case SignAnswered(i, outcome) =>
      if i < |s.inFlight| then SignResultStep(s, i, outcome) else TabStep(s, [])
    case ConnectClicked(topLevel, restored, created) => TabStep(ConnectState(s, topLevel, restored, created), [])
    case SessionConnected(session) => TabStep(ConnectedState(s, session), [])
    case SessionUpdated(session) => TabStep(SessionUpdatedState(s, session), [])
    case SessionDisconnected => ResetStep(s)
    case KillClicked => ResetStep(s)
    case TabUnloading(ownHandler) => if ownHandler then UnloadStep(s) else TabStep(s, [])
  }

  /** The state after a sequence of events and everything posted on the way. */
  function Run(s: TabState, events: seq<TabEvent>): TabStep
    decreases |events|
  {
    if events == [] then TabStep(s, [])
    else
      var first := Apply(s, events[0]);
      var rest := Run(first.next, events[1..]);
      TabStep(rest.next, first.posted + rest.posted)
  }

  // ---------------------------------------------------------------------
  // Properties of the dispatcher
  // ---------------------------------------------------------------------

  /** A message without the `WC-TAB` tag changes nothing and is not answered. */
  lemma OnlyTabCommandsDispatched(s: TabState, data: Option<Message>)
    requires data.None? || data.value.target != Some(TabTarget)
    ensures DispatchStep(s, data) == TabStep(s, [])
  {
  }

  /**
   * Reply correlation: a command is answered by at most one message, and
   * that message is either the readiness signal of a connection check or a
   * reply tagged `<action>-reply`.
   */
  lemma RepliesCorrelate(s: TabState, m: Message)
    ensures |DispatchStep(s, Some(m)).posted| <= 1
    ensures forall p :: p in DispatchStep(s, Some(m)).posted ==>
      (p == Status(true) && m.action == Some(CheckAction)) ||
      (p.target == None && p.action == Some(ReplyAction(m.action)))
  {
  }

  /**
   * While disconnected the controller broadcasts nothing in answer to a
   * command: the error replies of `unlock` and of an unsupported action are
   * dropped by the gate, and a connection check is silent.
   */
  lemma DisconnectedIsSilent(s: TabState, data: Option<Message>)
    requires !s.connected
    ensures DispatchStep(s, data).posted == []
  {
  }

  /**
   * `unlock` or an unsupported action on a disconnected controller: no
   * broadcast and no change of state.
   */
  lemma DisconnectedUnlockOrUnsupportedIsInert(s: TabState, m: Message)
    requires !s.connected
    requires Route(m.action) == UnlockHandler || Route(m.action) == UnsupportedHandler
    ensures DispatchStep(s, Some(m)) == TabStep(s, [])
  {
  }

  /** `unlock` while connected answers with exactly the current accounts. */
  lemma UnlockAnswersAccounts(s: TabState, m: Message)
    requires s.connected && s.channelOpen
    requires m.target == Some(TabTarget) && m.action == Some(UnlockAction) && m.params.Some?
    ensures DispatchStep(s, Some(m)) ==
      TabStep(s, [Reply(UnlockAction + ReplySuffix, true, AccountsPayload(s.accounts))])
  {
  }

  /** An unknown action is refused with "Not supported" under its own reply tag. */
  lemma UnsupportedIsRefused(s: TabState, m: Message)
    requires s.connected && s.channelOpen
    requires m.target == Some(TabTarget) && !IsKnownAction(m.action)
    ensures DispatchStep(s, Some(m)) ==
      TabStep(s, [Reply(ActionText(m.action) + ReplySuffix, false, ErrorPayload(NotSupportedError))])
  {
  }

  /**
   * A connection check never produces a reply; it announces readiness
   * exactly when connected with a channel, and changes nothing.
   */
  lemma CheckAnnouncesReadiness(s: TabState, m: Message)
    requires m.target == Some(TabTarget) && m.action == Some(CheckAction)
    ensures DispatchStep(s, Some(m)).next == s
    ensures DispatchStep(s, Some(m)).posted ==
      if s.connected && s.channelOpen then [Status(true)] else []
  {
  }

  // ---------------------------------------------------------------------
  // Properties of signing
  // ---------------------------------------------------------------------

  /** A signing command that reaches the connector raises `pendingRequest` and posts nothing yet. */
  lemma SignRaisesPending(s: TabState, replyAction: string, kind: SignKind, address: Option<string>)
    requires s.hasConnector
    ensures SignStep(s, replyAction, kind, address).next.pendingRequest
    ensures SignStep(s, replyAction, kind, address).next.inFlight == s.inFlight + [SignCall(replyAction)]
    ensures SignStep(s, replyAction, kind, address).posted == []
  {
  }

  /** Without a connector `pendingRequest` is untouched and the reply is "unknown error". */
  lemma SignWithoutConnector(s: TabState, replyAction: string, kind: SignKind, address: Option<string>)
    requires !s.hasConnector
    ensures SignStep(s, replyAction, kind, address).next.pendingRequest == s.pendingRequest
    ensures SignStep(s, replyAction, kind, address).next.inFlight == s.inFlight
    ensures SignStep(s, replyAction, kind, address).posted ==
      Gate(s, Reply(replyAction, false, ErrorPayload(UnknownError)))
  {
  }

  /** Only the transaction and typed-data commands record the requested address. */
  lemma SignRecordsAddress(s: TabState, replyAction: string, kind: SignKind, address: Option<string>)
    ensures SignStep(s, replyAction, kind, address).next.address ==
      if kind == PersonalMessage then s.address else address
  {
  }

  /**
   * Whatever the outcome, the answer lowers `pendingRequest`, forgets the
   * call and holds the call's connector again.
   */
  lemma SignResultLowersPending(s: TabState, i: nat, outcome: Outcome)
    requires i < |s.inFlight|
    ensures !SignResultStep(s, i, outcome).next.pendingRequest
    ensures SignResultStep(s, i, outcome).next.hasConnector
    ensures SignResultStep(s, i, outcome).next.inFlight == RemoveAt(s.inFlight, i)
    ensures SignResultStep(s, i, outcome).posted ==
      Gate(s, Reply(s.inFlight[i].replyAction, outcome.Signed?,
                    if outcome.Signed? then SigPayload(outcome.sig) else ErrorPayload(outcome.message)))
  {
  }

  /**
   * A sign command on a connected controller, answered before anything else
   * happens, yields exactly one reply under the command's tag: `{sig}` on a
   * signature, `{error: message}` on a failure.
   */
  lemma SignRoundTrip(s: TabState, m: Message, kind: SignKind, outcome: Outcome)
    requires s.connected && s.channelOpen && s.hasConnector
    requires m.target == Some(TabTarget) && m.params.Some? && Route(m.action) == SignHandler(kind)
    ensures var started := DispatchStep(s, Some(m));
      |started.next.inFlight| > 0 &&
      var i := |started.next.inFlight| - 1;
      var done := SignResultStep(started.next, i, outcome);
      started.posted == [] &&
      done.posted == [Reply(ReplyAction(m.action), outcome.Signed?,
                            if outcome.Signed? then SigPayload(outcome.sig) else ErrorPayload(outcome.message))] &&
      !done.next.pendingRequest &&
      done.next.inFlight == s.inFlight
  {
  }

  /**
   * A disconnect while a signature is awaited drops its reply: after
   * `resetApp` the answer is posted nowhere, yet it brings back the
   * connector that `resetApp` had cleared, while the tab stays disconnected.
   */
  lemma ReplyDroppedAfterReset(s: TabState, i: nat, outcome: Outcome)
    requires i < |s.inFlight|
    ensures var r := ResetStep(s).next;
      !r.hasConnector && i < |r.inFlight| &&
      SignResultStep(r, i, outcome).posted == [] &&
      SignResultStep(r, i, outcome).next.hasConnector &&
      !SignResultStep(r, i, outcome).next.connected
  {
  }

  // ---------------------------------------------------------------------
  // Properties of the session events
  // ---------------------------------------------------------------------

  /**
   * `resetApp` posts one unreadiness signal exactly when it holds a channel
   * and restores every field of `INITIAL_STATE`; a second reset (the
   * `disconnect` event that follows `killSession`) posts nothing more.
   */
  lemma ResetRestoresInitial(s: TabState)
    ensures ResetStep(s).next == Initial.(inFlight := s.inFlight)
    ensures ResetStep(s).posted == if s.channelOpen then [Status(false)] else []
    ensures !ResetStep(s).next.connected && ResetStep(s).next.accounts == [] && !ResetStep(s).next.channelOpen
    ensures ResetStep(ResetStep(s).next) == TabStep(ResetStep(s).next, [])
  {
  }

  /** `onConnect` connects and takes the first account as the address. */
  lemma ConnectSetsSession(s: TabState, session: Session)
    ensures ConnectedState(s, session).connected
    ensures ConnectedState(s, session).chainId == session.chainId
    ensures ConnectedState(s, session).accounts == session.accounts
    ensures ConnectedState(s, session).address == First(session.accounts)
    ensures |session.accounts| > 0 ==> ConnectedState(s, session).address == Some(session.accounts[0])
    ensures |session.accounts| == 0 ==> ConnectedState(s, session).address.None?
    ensures ConnectedState(s, session).channelOpen == s.channelOpen
  {
  }

  /**
   * `connect` always leaves a connector behind. It connects exactly when it
   * restores a session, and it opens the channel exactly in a top-level tab
   * whose session exists or was created; a rejected `createSession` changes
   * nothing else.
   */
  lemma ConnectOutcome(s: TabState, topLevel: bool, restored: Option<Session>, created: bool)
    ensures ConnectState(s, topLevel, restored, created).hasConnector
    ensures ConnectState(s, topLevel, restored, created).connected <==> s.connected || restored.Some?
    ensures ConnectState(s, topLevel, restored, created).channelOpen <==>
      s.channelOpen || (topLevel && (restored.Some? || created))
    ensures restored.Some? ==>
      ConnectState(s, topLevel, restored, created).chainId == restored.value.chainId &&
      ConnectState(s, topLevel, restored, created).accounts == restored.value.accounts &&
      ConnectState(s, topLevel, restored, created).address == First(restored.value.accounts)
    ensures restored.None? && !created ==> ConnectState(s, topLevel, restored, created) == s.(hasConnector := true)
    ensures ConnectState(s, topLevel, restored, created).pendingRequest == s.pendingRequest
    ensures ConnectState(s, topLevel, restored, created).inFlight == s.inFlight
  {
  }

  /** A session update replaces chain, accounts and address but never the connection flag. */
  lemma SessionUpdateKeepsConnection(s: TabState, session: Session)
    ensures SessionUpdatedState(s, session).connected == s.connected
    ensures SessionUpdatedState(s, session).channelOpen == s.channelOpen
    ensures SessionUpdatedState(s, session).chainId == session.chainId
    ensures SessionUpdatedState(s, session).accounts == session.accounts
    ensures SessionUpdatedState(s, session).address == First(session.accounts)
  {
  }

  // ---------------------------------------------------------------------
  // Properties of whole runs
  // ---------------------------------------------------------------------

  /** `pendingRequest` is only ever up while some signing call is outstanding. */
  ghost predicate PendingOnlyWhileInFlight(s: TabState) {
    s.pendingRequest ==> |s.inFlight| > 0
  }

  lemma ApplyKeepsPending(s: TabState, e: TabEvent)
    requires PendingOnlyWhileInFlight(s)
    ensures PendingOnlyWhileInFlight(Apply(s, e).next)
  {
  }

  lemma {:induction false} RunKeepsPending(s: TabState, events: seq<TabEvent>)
    requires PendingOnlyWhileInFlight(s)
    ensures PendingOnlyWhileInFlight(Run(s, events).next)
    decreases |events|
  {
    if events != [] {
      ApplyKeepsPending(s, events[0]);
      RunKeepsPending(Apply(s, events[0]).next, events[1..]);
    }
  }

  /** Events that can make the controller connected. */
  predicate Connects(e: TabEvent) {
    e.SessionConnected? || (e.ConnectClicked? && e.restored.Some?)
  }

  predicate AllUnready(posted: seq<Message>) {
    forall k :: 0 <= k < |posted| ==> posted[k] == Status(false)
  }

  lemma ApplyWhileDisconnected(s: TabState, e: TabEvent)
    requires !s.connected && !Connects(e)
    ensures !Apply(s, e).next.connected
    ensures AllUnready(Apply(s, e).posted)
  {
  }

  /**
   * A controller that is never connected broadcasts nothing but
   * `ready: false` signals: no reply and no readiness ever reach the relay.
   */
  lemma {:induction false} NeverConnectedNeverAnswers(s: TabState, events: seq<TabEvent>)
    requires !s.connected
    requires forall k :: 0 <= k < |events| ==> !Connects(events[k])
    ensures !Run(s, events).next.connected
    ensures AllUnready(Run(s, events).posted)
    decreases |events|
  {
    if events != [] {
      var first := Apply(s, events[0]);
      ApplyWhileDisconnected(s, events[0]);
      NeverConnectedNeverAnswers(first.next, events[1..]);
      var rest := Run(first.next, events[1..]);
      assert Run(s, events).posted == first.posted + rest.posted;
    }
  }

  // ---------------------------------------------------------------------
  // The component
  // ---------------------------------------------------------------------

  class App {
    var connected: bool
    var chainId: int
    var accounts: seq<string>
    var address: Option<string>
    var pendingRequest: bool
    var hasConnector: bool
    var channelOpen: bool
    var inFlight: seq<SignCall>
    /** Everything posted on the broadcast channel so far. */
    var outbox: seq<Message>
    /** The window the component runs in. */
    const window: BrowserWindow

    function State(): TabState
      reads this
    {
      TabState(connected, chainId, accounts, address, pendingRequest, hasConnector, channelOpen, inFlight)
    }

    constructor (window: BrowserWindow)
      ensures State() == Initial && outbox == [] && this.window == window
    {
      this.window := window;
      connected, chainId, accounts, address := false, 1, [], Some("");
      pendingRequest, hasConnector, channelOpen := false, false, false;
      inFlight, outbox := [], [];
    }

    /** `sendMessageToIframe` */
    method SendMessageToIframe(action: string, success: bool, payload: Payload)
      modifies this`outbox
      ensures outbox == old(outbox) + Gate(State(), Reply(action, success, payload))
    {
      if connected && channelOpen {
        outbox := outbox + [Reply(action, success, payload)];
      }
    }

    /** `checkReadyForCommand` */
    method CheckReadyForCommand()
      modifies this`outbox
      ensures outbox == old(outbox) + CheckReadyStep(State()).posted
    {
      if connected {
        if channelOpen {
          outbox := outbox + [Status(true)];
        }
      }
    }

    /** `unlock` */
    method Unlock(replyAction: string)
      modifies this`outbox
      ensures outbox == old(outbox) + UnlockStep(State(), replyAction).posted
    {
      if connected {
        SendMessageToIframe(replyAction, true, AccountsPayload(accounts));
      } else {
        SendMessageToIframe(replyAction, false, ErrorPayload(NotConnectedError));
      }
    }

    /** The part of `wcSign*` before the signing client's `await`. */
    method WcSign(replyAction: string, kind: SignKind)
      modifies this
      ensures State() == SignStep(old(State()), replyAction, kind, old(address)).next
      ensures outbox == old(outbox) + SignStep(old(State()), replyAction, kind, old(address)).posted
    {
      if !hasConnector {
        SendMessageToIframe(replyAction, false, ErrorPayload(UnknownError));
        return;
      }
      pendingRequest := true;
      inFlight := inFlight + [SignCall(replyAction)];
    }

    /** `bcSignTransaction` */
    method BcSignTransaction(replyAction: string, requested: Option<string>)
      modifies this
      ensures State() == SignStep(old(State()), replyAction, Transaction, requested).next
      ensures outbox == old(outbox) + SignStep(old(State()), replyAction, Transaction, requested).posted
    {
      address := requested;
      WcSign(replyAction, Transaction);
    }

    /** `bcSignPersonalMessage`: the requested address goes to the signing client only. */
    method BcSignPersonalMessage(replyAction: string, requested: Option<string>)
      modifies this
      ensures State() == SignStep(old(State()), replyAction, PersonalMessage, requested).next
      ensures outbox == old(outbox) + SignStep(old(State()), replyAction, PersonalMessage, requested).posted
    {
      WcSign(replyAction, PersonalMessage);
    }

    /** `bcSignTypedData` */
    method BcSignTypedData(replyAction: string, requested: Option<string>)
      modifies this
      ensures State() == SignStep(old(State()), replyAction, TypedData, requested).next
      ensures outbox == old(outbox) + SignStep(old(State()), replyAction, TypedData, requested).posted
    {
      address := requested;
      WcSign(replyAction, TypedData);
    }

    /** The signing client settles the `i`-th outstanding call. */
    method OnSignResult(i: nat, outcome: Outcome)
      requires i < |inFlight|
      modifies this
      ensures State() == SignResultStep(old(State()), i, outcome).next
      ensures outbox == old(outbox) + SignResultStep(old(State()), i, outcome).posted
    {
      var call := inFlight[i];
      hasConnector, pendingRequest := true, false;
      inFlight := RemoveAt(inFlight, i);
      match outcome
      case Signed(sig) => SendMessageToIframe(call.replyAction, true, SigPayload(sig));
      case Failed(message) => SendMessageToIframe(call.replyAction, false, ErrorPayload(message));
    }

    /** `bc.onmessage` */
    method OnChannelMessage(data: Option<Message>)
      modifies this
      ensures State() == DispatchStep(old(State()), data).next
      ensures outbox == old(outbox) + DispatchStep(old(State()), data).posted
    {
      if !channelOpen || data.None? || data.value.target != Some(TabTarget) {
        return;
      }
      var m := data.value;
      var replyAction := ReplyAction(m.action);
      match Route(m.action)
      case CheckHandler =>
        CheckReadyForCommand();
      case UnlockHandler =>
        if m.params.Some? {
          Unlock(replyAction);
        }
      case SignHandler(Transaction) =>
        if m.params.Some? {
          BcSignTransaction(replyAction, m.params.value.address);
        }
      case SignHandler(PersonalMessage) =>
        if m.params.Some? {
          BcSignPersonalMessage(replyAction, m.params.value.address);
        }
      case SignHandler(TypedData) =>
        if m.params.Some? {
          BcSignTypedData(replyAction, m.params.value.address);
        }
      case UnsupportedHandler =>
        SendMessageToIframe(replyAction, false, ErrorPayload(NotSupportedError));
    }

    /** `onConnect` */
    method OnConnect(session: Session)
      modifies this
      ensures State() == ConnectedState(old(State()), session) && outbox == old(outbox)
    {
      connected, chainId, accounts := true, session.chainId, session.accounts;
      address := First(session.accounts);
    }

    /** `onSessionUpdate` */
    method OnSessionUpdate(session: Session)
      modifies this
      ensures State() == SessionUpdatedState(old(State()), session) && outbox == old(outbox)
    {
      chainId, accounts := session.chainId, session.accounts;
      address := First(session.accounts);
    }

    /** `resetApp` */
    method ResetApp()
      modifies this
      ensures State() == ResetStep(old(State())).next
      ensures outbox == old(outbox) + ResetStep(old(State())).posted
    {
      if channelOpen {
        outbox := outbox + [Status(false)];
      }
      connected, chainId, accounts, address := false, 1, [], Some("");
      pendingRequest, hasConnector, channelOpen := false, false, false;
    }

    /** `onDisconnect` */
    method OnDisconnect()
      modifies this
      ensures State() == ResetStep(old(State())).next
      ensures outbox == old(outbox) + ResetStep(old(State())).posted
    {
      ResetApp();
    }

    /** `killSession`: the connector's own `killSession` is the signing client's business. */
    method KillSession()
      modifies this
      ensures State() == ResetStep(old(State())).next
      ensures outbox == old(outbox) + ResetStep(old(State())).posted
    {
      ResetApp();
    }

    /**
     * `connect` together with the part of `subscribeToEvents` that adopts an
     * existing session. When `createSession` rejects nothing follows the
     * stored connector; otherwise a top-level tab also assigns its own
     * `onbeforeunload`, replacing whatever handler the window held.
     */
    method Connect(topLevel: bool, restored: Option<Session>, created: bool)
      modifies this, window`onBeforeUnload
      ensures State() == ConnectState(old(State()), topLevel, restored, created) && outbox == old(outbox)
      ensures window.onBeforeUnload ==
        if topLevel && (restored.Some? || created) then TabHandler else old(window.onBeforeUnload)
    {
      hasConnector := true;
      if restored.None? && !created {
        return;
      }
      if restored.Some? {
        OnConnect(restored.value);
        OnSessionUpdate(restored.value);
      }
      if topLevel {
        channelOpen := true;
        window.onBeforeUnload := TabHandler;
      }
    }

    /** The body of the handler `connect` installs in `window.onbeforeunload`. */
    method OnBeforeUnload()
      modifies this`outbox
      ensures outbox == old(outbox) + UnloadStep(State()).posted
    {
      if channelOpen {
        outbox := outbox + [Status(false)];
      }
    }
  }
}

/**
 * The message contract shared by the iframe relay and the tab controller.
 *
 * Everything that crosses the `walletconnect` broadcast channel or the
 * iframe/parent window boundary is a plain JavaScript object. It is modelled
 * as one record whose fields are optional: `None` stands for a property that
 * is absent (`undefined`). A command from the extension fills `target`,
 * `action` and `params`; a readiness signal fills `target` and `ready`; a
 * reply fills `action`, `success` and `payload` and carries no `target`.
 */
module Messages {

  datatype Option<+T> = None | Some(value: T)

  // Routing tags carried in `target`
  const IframeTarget: string := "WC-IFRAME"
  const TabTarget: string := "WC-TAB"
  const StatusTarget: string := "tab-status"

  // Command names carried in `action`
  const CheckAction: string := "walletconnect-connection-check"
  const UnlockAction: string := "walletconnect-unlock"
  const SignTransactionAction: string := "walletconnect-sign-transaction"
  const SignPersonalMessageAction: string := "walletconnect-sign-personal-message"
  const SignTypedDataAction: string := "walletconnect-sign-typed-data"

  const ReplySuffix: string := "-reply"

  // Error strings the tab controller puts in a failure payload
  const NotConnectedError: string := "not connected!"
  const NotSupportedError: string := "Not supported"
  const UnknownError: string := "unknown error"

  /** Reply payloads: `{sig}`, `{accounts}` or `{error}`. */
  datatype Payload =
    | SigPayload(sig: string)
    | AccountsPayload(accounts: seq<string>)
    | ErrorPayload(error: string)

  /**
   * Command parameters. Only `address` is read by the tab controller itself;
   * the transaction, message and typed-data fields go to the signing client,
   * whose answer is a parameter of the model.
   */
  datatype Params = Params(address: Option<string>)

  datatype Message = Message(
    target: Option<string>,
    action: Option<string>,
    params: Option<Params>,
    ready: Option<bool>,
    success: Option<bool>,
    payload: Option<Payload>)

  /** `{target: 'tab-status', ready}` */
  function Status(ready: bool): Message {
    Message(Some(StatusTarget), None, None, Some(ready), None, None)
  }

  /** `{action, success, payload}`, the reply shape posted by the tab controller */
  function Reply(action: string, success: bool, payload: Payload): Message {
    Message(None, Some(action), None, None, Some(success), Some(payload))
  }

  /** `{target: 'WC-TAB', action: 'walletconnect-connection-check'}`, the relay's ping */
  function Ping(): Message {
    Message(Some(TabTarget), Some(CheckAction), None, None, None, None)
  }

  /** How a JavaScript template literal renders the `action` property. */
  function ActionText(action: Option<string>): string {
    match action
    case Some(a) => a
    case None => "undefined"
  }

  /** The reply tag `${action}-reply` that correlates a reply with its command. */
  function ReplyAction(action: Option<string>): (r: string)
    ensures |r| == |ActionText(action)| + |ReplySuffix|
    ensures r[..|ActionText(action)|] == ActionText(action)
    ensures r[|ActionText(action)|..] == ReplySuffix
  {
    ActionText(action) + ReplySuffix
  }

  /** `data.target = 'WC-TAB'`: the relay's relabelling before it forwards a command. */
  function Relabel(m: Message): (r: Message)
    ensures r.target == Some(TabTarget)
    ensures r.(target := m.target) == m
  {
    m.(target := Some(TabTarget))
  }

  /** `s` without its `i`-th element. */
  function RemoveAt<T>(s: seq<T>, i: nat): (r: seq<T>)
    requires i < |s|
    ensures |r| == |s| - 1
    ensures forall k :: 0 <= k < i ==> r[k] == s[k]
    ensures forall k :: i <= k < |r| ==> r[k] == s[k + 1]
  {
    s[..i] + s[i + 1..]
  }

  /** JavaScript truthiness of the `ready` property (absent is falsy). */
  predicate Truthy(ready: Option<bool>) {
    ready == Some(true)
  }

  /**
   * Two commands with different (present) action names never share a reply
   * tag, so the tag identifies the command it answers.
   */
  lemma ReplyActionInjective(a: string, b: string)
    requires ReplyAction(Some(a)) == ReplyAction(Some(b))
    ensures a == b
  {
  }

  /**
   * The tag is not injective over absent actions: a command without an
   * action and one whose action is the text "undefined" are answered under
   * the same tag.
   */
  lemma UndefinedActionCollides()
    ensures ReplyAction(None) == ReplyAction(Some("undefined"))
  {
  }

  /**
   * A reply never looks like a command or a readiness signal: it has no
   * target, so the relay forwards it and the tab controller ignores it.
   */
  lemma ReplyIsNotRouted(action: string, success: bool, payload: Payload)
    ensures Reply(action, success, payload).target != Some(TabTarget)
    ensures Reply(action, success, payload).target != Some(StatusTarget)
    ensures Reply(action, success, payload).target != Some(IframeTarget)
  {
  }
}

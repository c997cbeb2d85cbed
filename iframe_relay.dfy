/**
 * The iframe relay (src/scripts/iframeScript.js): it lives in the iframe the
 * extension injects, opens or reuses the signing tab, holds the extension's
 * commands until the tab has said it is ready, relabels and forwards them on
 * the broadcast channel, and passes everything else that arrives on the
 * channel back to the parent window.
 *
 * The `while (!this.tabReady)` poll is an explicit `Tick`: one iteration of
 * the loop of one waiting command (its `sleep` has elapsed, it pings the tab
 * and checks `tabReady` again). Every command that is waiting has its own
 * loop, so the waiting commands form a list and `Tick` names one of them;
 * the method `Relay.WaitPass` carries such a pass out.
 */
module IframeRelay {
  import opened Messages
  import opened Browser

  /** `tabDomain`, where a freshly opened tab is sent */
  const BridgeUrl: string := "http://localhost:3000"
  /** The `window.open` target name of the signing tab */
  const TabName: string := "walletconnect-tab"
  /** The location of a window `window.open` has just created */
  const Blank: string := "about:blank"

  /**
   * `active` holds when the relay was constructed inside a frame and so set
   * up its listeners; `waiting` lists the commands whose handler is stuck in
   * the readiness loop, oldest first.
   */
  datatype RelayState = RelayState(active: bool, tabReady: bool, waiting: seq<Message>)

  /** The state after a handler, what it posted on the channel and what it posted to the parent. */
  datatype RelayStep = RelayStep(next: RelayState, toChannel: seq<Message>, toParent: seq<Message>)

  /** The window-message filter: a command for the iframe that really comes from the parent. */
  predicate Accepted(data: Option<Message>, fromParent: bool) {
    data.Some? && data.value.target == Some(IframeTarget) && fromParent
  }

  /** The `openOnce` navigation rule: only a window still at `about:blank` is sent to `url`. */
  function NavigateIfBlank(location: string, url: string): string {
    if location == Blank then url else location
  }

  /** `onmessage`, up to the readiness loop. */
  function WindowStep(s: RelayState, data: Option<Message>, fromParent: bool): RelayStep {
    if !s.active || !Accepted(data, fromParent) then RelayStep(s, [], [])
    else if s.tabReady then RelayStep(s, [Relabel(data.value)], [])
    else RelayStep(s.(waiting := s.waiting + [data.value]), [], [])
  }

  /**
   * One pass of the readiness loop of the `i`-th waiting command: after the
   * sleep it pings, then leaves the loop and forwards if the tab is ready.
   */
  function TickStep(s: RelayState, i: nat): RelayStep
    requires i < |s.waiting|
  {
    if s.tabReady then RelayStep(s.(waiting := RemoveAt(s.waiting, i)), [Ping(), Relabel(s.waiting[i])], [])
    else RelayStep(s, [Ping()], [])
  }

  /** `bc.onmessage`: readiness signals set the gate, everything else goes to the parent. */
  function ChannelStep(s: RelayState, data: Option<Message>): RelayStep {
    if !s.active || data.None? then RelayStep(s, [], [])
    else if data.value.target == Some(StatusTarget) then RelayStep(s.(tabReady := Truthy(data.value.ready)), [], [])
    else RelayStep(s, [], [data.value])
  }

  /** The tab unloads; `hooked` says whether its `onbeforeunload` still holds the relay's hook. */
  function UnloadState(s: RelayState, hooked: bool): RelayState {
    if hooked then s.(tabReady := false) else s
  }

  /** Everything that can happen to the relay. */
  datatype RelayEvent =
    | WindowMessage(data: Option<Message>, fromParent: bool)
    | Tick(index: nat)
    | ChannelMessage(data: Option<Message>)
    | TabUnload(hooked: bool)

  function Apply(s: RelayState, e: RelayEvent): RelayStep {
    match e
    case WindowMessage(data, fromParent) => WindowStep(s, data, fromParent)
    case Tick(i) => if i < |s.waiting| then TickStep(s, i) else RelayStep(s, [], [])
    case ChannelMessage(data) => ChannelStep(s, data)
    case TabUnload(hooked) => RelayStep(UnloadState(s, hooked), [], [])
  }

  /** The state after a sequence of events and everything posted on the way. */
  function Run(s: RelayState, events: seq<RelayEvent>): RelayStep
    decreases |events|
  {
    if events == [] then RelayStep(s, [], [])
    else
      var first := Apply(s, events[0]);
      var rest := Run(first.next, events[1..]);
      RelayStep(rest.next, first.toChannel + rest.toChannel, first.toParent + rest.toParent)
  }

  /** Only an active relay holds commands, and it holds only accepted ones. */
  ghost predicate Wellformed(s: RelayState) {
    (|s.waiting| > 0 ==> s.active) &&
    forall k :: 0 <= k < |s.waiting| ==> s.waiting[k].target == Some(IframeTarget)
  }

  // ---------------------------------------------------------------------
  // Properties of single steps
  // ---------------------------------------------------------------------

  /** A relay that is not embedded never set up its listeners: nothing reaches it. */
  lemma InactiveRelayIsInert(s: RelayState, e: RelayEvent)
    requires Wellformed(s) && !s.active && !e.TabUnload?
    ensures Apply(s, e) == RelayStep(s, [], [])
  {
  }

  /** A window message that is not a `WC-IFRAME` command from the parent is ignored. */
  lemma UntrustedWindowMessageIgnored(s: RelayState, data: Option<Message>, fromParent: bool)
    requires !Accepted(data, fromParent)
    ensures WindowStep(s, data, fromParent) == RelayStep(s, [], [])
  {
  }

  /**
   * An accepted command is forwarded at once, relabelled and without a
   * ping, when the tab is ready; otherwise nothing is posted and the command
   * waits.
   */
  lemma CommandGatedByReadiness(s: RelayState, m: Message)
    requires s.active && m.target == Some(IframeTarget)
    ensures s.tabReady ==> WindowStep(s, Some(m), true) == RelayStep(s, [Relabel(m)], [])
    ensures !s.tabReady ==> WindowStep(s, Some(m), true) == RelayStep(s.(waiting := s.waiting + [m]), [], [])
  {
  }

  /**
   * Each pass of the readiness loop posts exactly one ping first; the
   * command follows it, relabelled, only when the tab is ready.
   */
  lemma TickPingsOnce(s: RelayState, i: nat)
    requires i < |s.waiting|
    ensures var t := TickStep(s, i);
      t.toChannel[0] == Ping() &&
      |t.toChannel| == (if s.tabReady then 2 else 1) &&
      (s.tabReady ==> t.toChannel[1] == Relabel(s.waiting[i]) && t.next.waiting == RemoveAt(s.waiting, i)) &&
      (!s.tabReady ==> t.next == s) &&
      t.toParent == []
  {
  }

  /**
   * A readiness signal sets the gate and is not forwarded; any other channel
   * message reaches the parent unchanged and leaves the gate alone.
   */
  lemma ChannelRouting(s: RelayState, m: Message)
    requires s.active
    ensures m.target == Some(StatusTarget) ==>
      ChannelStep(s, Some(m)) == RelayStep(s.(tabReady := Truthy(m.ready)), [], [])
    ensures m.target != Some(StatusTarget) ==>
      ChannelStep(s, Some(m)) == RelayStep(s, [], [m])
  {
  }

  /** The unload hook closes the gate. */
  lemma UnloadClosesGate(s: RelayState)
    ensures !UnloadState(s, true).tabReady
    ensures UnloadState(s, true).waiting == s.waiting
  {
  }

  /** A second `openOnce` finds the tab away from `about:blank` and does not navigate it again. */
  lemma OpenOnceNavigatesOnce(location: string)
    ensures NavigateIfBlank(NavigateIfBlank(location, BridgeUrl), BridgeUrl) == NavigateIfBlank(location, BridgeUrl)
    ensures NavigateIfBlank(location, BridgeUrl) != Blank
  {
  }

  lemma ApplyKeepsWellformed(s: RelayState, e: RelayEvent)
    requires Wellformed(s)
    ensures Wellformed(Apply(s, e).next)
    ensures forall k :: 0 <= k < |Apply(s, e).toChannel| ==> Apply(s, e).toChannel[k].target == Some(TabTarget)
    ensures forall k :: 0 <= k < |Apply(s, e).toParent| ==> Apply(s, e).toParent[k].target != Some(StatusTarget)
  {
  }

  // ---------------------------------------------------------------------
  // Properties of whole runs
  // ---------------------------------------------------------------------

  /**
   * Whatever happens, the relay posts nothing on the channel but `WC-TAB`
   * messages, passes no readiness signal up to the parent, and keeps
   * holding only accepted commands.
   */
  lemma {:induction false} RunRoutes(s: RelayState, events: seq<RelayEvent>)
    requires Wellformed(s)
    ensures Wellformed(Run(s, events).next)
    ensures forall k :: 0 <= k < |Run(s, events).toChannel| ==> Run(s, events).toChannel[k].target == Some(TabTarget)
    ensures forall k :: 0 <= k < |Run(s, events).toParent| ==> Run(s, events).toParent[k].target != Some(StatusTarget)
    decreases |events|
  {
    if events != [] {
      var first := Apply(s, events[0]);
      ApplyKeepsWellformed(s, events[0]);
      RunRoutes(first.next, events[1..]);
      var rest := Run(first.next, events[1..]);
      assert Run(s, events).toChannel == first.toChannel + rest.toChannel;
      assert Run(s, events).toParent == first.toParent + rest.toParent;
    }
  }

  /** A channel message that opens the gate. */
  predicate AnnouncesReady(e: RelayEvent) {
    e.ChannelMessage? && e.data.Some? && e.data.value.target == Some(StatusTarget) && Truthy(e.data.value.ready)
  }

  predicate AllPings(out: seq<Message>) {
    forall k :: 0 <= k < |out| ==> out[k] == Ping()
  }

  lemma ApplyWhileUnready(s: RelayState, e: RelayEvent)
    requires !s.tabReady && !AnnouncesReady(e)
    ensures !Apply(s, e).next.tabReady
    ensures AllPings(Apply(s, e).toChannel)
  {
  }

  /**
   * Readiness gating: until a `ready: true` signal arrives, the relay posts
   * nothing on the channel but pings, however many commands, ticks and
   * other messages come by.
   */
  lemma {:induction false} NoCommandBeforeReady(s: RelayState, events: seq<RelayEvent>)
    requires !s.tabReady
    requires forall k :: 0 <= k < |events| ==> !AnnouncesReady(events[k])
    ensures !Run(s, events).next.tabReady
    ensures AllPings(Run(s, events).toChannel)
    decreases |events|
  {
    if events != [] {
      var first := Apply(s, events[0]);
      ApplyWhileUnready(s, events[0]);
      NoCommandBeforeReady(first.next, events[1..]);
      var rest := Run(first.next, events[1..]);
      assert Run(s, events).toChannel == first.toChannel + rest.toChannel;
    }
  }

  /** `n` copies of `x` */
  function Repeat<T>(x: T, n: nat): (r: seq<T>)
    ensures |r| == n
    ensures forall k :: 0 <= k < n ==> r[k] == x
  {
    if n == 0 then [] else [x] + Repeat(x, n - 1)
  }

  /**
   * While the tab is not ready, a waiting command's loop posts exactly one
   * ping per pass and the command stays where it is.
   */
  lemma {:induction false} WaitingPingsEveryTick(s: RelayState, i: nat, n: nat)
    requires !s.tabReady && i < |s.waiting|
    ensures Run(s, Repeat(Tick(i), n)) == RelayStep(s, Repeat(Ping(), n), [])
    decreases n
  {
    if n > 0 {
      var events := Repeat(Tick(i), n);
      assert events[0] == Tick(i);
      assert events[1..] == Repeat(Tick(i), n - 1);
      WaitingPingsEveryTick(s, i, n - 1);
      assert Repeat(Ping(), n) == [Ping()] + Repeat(Ping(), n - 1);
    }
  }

  /**
   * The whole handshake: a command that arrives before the tab is ready
   * waits; once `ready: true` arrives, the next pass of its loop pings and
   * forwards it relabelled, and nothing reaches the parent.
   */
  lemma {:induction false} HandshakeForwardsCommand(s: RelayState, m: Message)
    requires s.active && !s.tabReady && m.target == Some(IframeTarget)
    ensures var events := [WindowMessage(Some(m), true), ChannelMessage(Some(Status(true))), Tick(|s.waiting|)];
      Run(s, events) == RelayStep(s.(tabReady := true), [Ping(), Relabel(m)], [])
  {
    var s1 := s.(waiting := s.waiting + [m]);
    var s2 := s1.(tabReady := true);
    assert Apply(s, WindowMessage(Some(m), true)) == RelayStep(s1, [], []);
    assert Apply(s1, ChannelMessage(Some(Status(true)))) == RelayStep(s2, [], []);
    assert RemoveAt(s2.waiting, |s.waiting|) == s.waiting;
    assert Apply(s2, Tick(|s.waiting|)) == RelayStep(s.(tabReady := true), [Ping(), Relabel(m)], []);
    var events := [WindowMessage(Some(m), true), ChannelMessage(Some(Status(true))), Tick(|s.waiting|)];
    assert events[1..][1..] == [Tick(|s.waiting|)];
    assert Run(s2, [Tick(|s.waiting|)]) == RelayStep(s.(tabReady := true), [Ping(), Relabel(m)], []);
    assert events[1..] == [ChannelMessage(Some(Status(true))), Tick(|s.waiting|)];
    assert Run(s1, events[1..]) == RelayStep(s.(tabReady := true), [Ping(), Relabel(m)], []);
  }

  // ---------------------------------------------------------------------
  // The component
  // ---------------------------------------------------------------------

  class Relay {
    var active: bool
    var tabReady: bool
    var waiting: seq<Message>
    /** Everything posted on the broadcast channel so far. */
    var channelOut: seq<Message>
    /** Everything posted to `window.parent` so far. */
    var parentOut: seq<Message>
    /** The window `window.open('', 'walletconnect-tab')` would return, if one exists. */
    var tab: BrowserWindow?

    function State(): RelayState
      reads this
    {
      RelayState(active, tabReady, waiting)
    }

    ghost predicate Valid()
      reads this
    {
      Wellformed(State())
    }

    /** The constructor: the listeners are set up only inside a frame. */
    constructor (embedded: bool, existing: BrowserWindow?)
      ensures Valid()
      ensures State() == RelayState(embedded, false, [])
      ensures channelOut == [] && parentOut == [] && tab == existing
    {
      active, tabReady, waiting := embedded, false, [];
      channelOut, parentOut := [], [];
      tab := existing;
    }

    /**
     * `openOnce`: reuse the named window or create a blank one, send it to
     * `url` only while it is blank, focus it, and return it.
     */
    method OpenOnce(url: string) returns (w: BrowserWindow)
      modifies this`tab, tab
      ensures w == tab
      ensures old(tab) != null ==> w == old(tab)
      ensures old(tab) == null ==> fresh(w)
      ensures w.location == NavigateIfBlank(if old(tab) == null then Blank else old(tab.location), url)
      ensures w.focused
      ensures w.onBeforeUnload == if old(tab) == null then NoHandler else old(tab.onBeforeUnload)
    {
      if tab == null {
        tab := new BrowserWindow(Blank);
      }
      w := tab;
      if w.location == Blank {
        w.location := url;
      }
      w.focused := true;
    }

    /** `pingTab` */
    method PingTab()
      modifies this`channelOut
      ensures channelOut == old(channelOut) + [Ping()]
    {
      channelOut := channelOut + [Ping()];
    }

    /** `sendMessageToExtension` */
    method SendMessageToExtension(m: Message)
      modifies this`parentOut
      ensures parentOut == old(parentOut) + [m]
    {
      parentOut := parentOut + [m];
    }

    /**
     * `onmessage` up to the readiness loop: an accepted command opens or
     * reuses the tab, hooks its unload, and is forwarded or left waiting.
     */
    method OnWindowMessage(data: Option<Message>, fromParent: bool)
      requires Valid()
      modifies this, tab
      ensures Valid()
      ensures State() == WindowStep(old(State()), data, fromParent).next
      ensures channelOut == old(channelOut) + WindowStep(old(State()), data, fromParent).toChannel
      ensures parentOut == old(parentOut)
      ensures old(active) && Accepted(data, fromParent) ==>
        tab != null && (old(tab) != null ==> tab == old(tab)) &&
        tab.location == NavigateIfBlank(if old(tab) == null then Blank else old(tab.location), BridgeUrl) &&
        tab.focused && tab.onBeforeUnload == RelayHandler
      ensures !(old(active) && Accepted(data, fromParent)) ==>
        tab == old(tab) && (tab != null ==> unchanged(tab))
    {
      if !active || !Accepted(data, fromParent) {
        return;
      }
      var m := data.value;
      var w := OpenOnce(BridgeUrl);
      w.onBeforeUnload := RelayHandler;
      if tabReady {
        channelOut := channelOut + [Relabel(m)];
      } else {
        waiting := waiting + [m];
      }
      ApplyKeepsWellformed(old(State()), WindowMessage(data, fromParent));
    }

    /** One pass of the readiness loop of the `i`-th waiting command. */
    method WaitPass(i: nat)
      requires Valid() && i < |waiting|
      modifies this
      ensures Valid()
      ensures State() == TickStep(old(State()), i).next
      ensures channelOut == old(channelOut) + TickStep(old(State()), i).toChannel
      ensures parentOut == old(parentOut) && tab == old(tab)
    {
      PingTab();
      if tabReady {
        var m := waiting[i];
        waiting := RemoveAt(waiting, i);
        channelOut := channelOut + [Relabel(m)];
      }
      ApplyKeepsWellformed(old(State()), Tick(i));
    }

    /** `bc.onmessage` */
    method OnChannelMessage(data: Option<Message>)
      requires Valid()
      modifies this
      ensures Valid()
      ensures State() == ChannelStep(old(State()), data).next
      ensures channelOut == old(channelOut)
      ensures parentOut == old(parentOut) + ChannelStep(old(State()), data).toParent
      ensures tab == old(tab)
    {
      if !active || data.None? {
        return;
      }
      var m := data.value;
      if m.target == Some(StatusTarget) {
        tabReady := Truthy(m.ready);
      } else {
        SendMessageToExtension(m);
      }
      ApplyKeepsWellformed(old(State()), ChannelMessage(data));
    }

    /**
     * The relay's hook, run when the tab unloads while its `onbeforeunload`
     * still holds it: the gate closes.
     */
    method OnTabUnload()
      requires Valid()
      modifies this`tabReady
      ensures Valid()
      ensures State() == UnloadState(old(State()), true)
    {
      tabReady := false;
    }

    /** The tab was closed: the next `openOnce` creates a fresh window. */
    method OnTabClosed()
      modifies this`tab
      ensures tab == null
    {
      tab := null;
    }
  }
}

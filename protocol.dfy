/**
 * The two components together: what the tab controller posts is what the
 * relay receives on the channel, and the other way round.
 */
module Protocol {
  import opened Messages
  import opened Browser
  import TabController
  import IframeRelay

  /**
   * The readiness handshake: while the tab is not ready, a pass of a
   * waiting command's loop sends one ping; a connected tab answers it with
   * `ready: true` and nothing else; that opens the relay's gate, and the
   * next pass forwards the command.
   */
  lemma PingOpensGate(t: TabController.TabState, r: IframeRelay.RelayState, i: nat)
    requires t.connected && t.channelOpen
    requires r.active && !r.tabReady && i < |r.waiting|
    ensures var ping := IframeRelay.TickStep(r, i);
      ping.toChannel == [Ping()] &&
      TabController.DispatchStep(t, Some(Ping())) == TabController.TabStep(t, [Status(true)]) &&
      (var gate := IframeRelay.ChannelStep(ping.next, Some(Status(true)));
       gate.next.tabReady && i < |gate.next.waiting| &&
       IframeRelay.TickStep(gate.next, i).toChannel == [Ping(), Relabel(r.waiting[i])])
  {
  }

  /**
   * Correlation from end to end: whatever the tab posts in answer to a
   * forwarded command, the relay either keeps it (a readiness signal) or
   * hands it to the extension unchanged, and then it is a reply tagged with
   * the command's own `<action>-reply`.
   */
  lemma ForwardedCommandAnsweredUnderItsTag(t: TabController.TabState, r: IframeRelay.RelayState, m: Message)
    requires r.active
    ensures forall p :: p in TabController.DispatchStep(t, Some(Relabel(m))).posted ==>
      (p.target == Some(StatusTarget) && IframeRelay.ChannelStep(r, Some(p)).toParent == []) ||
      (IframeRelay.ChannelStep(r, Some(p)).toParent == [p] && p.action == Some(ReplyAction(m.action)))
  {
    TabController.RepliesCorrelate(t, Relabel(m));
  }

  /**
   * The tab's page unloads. Only the handler its `onbeforeunload` holds
   * runs, the tab controller's or the relay's, and the attribute goes away
   * with the page; a closed tab is also forgotten by the relay.
   */
  method TabUnloads(app: TabController.App, relay: IframeRelay.Relay, closed: bool)
    requires relay.Valid()
    modifies app.window`onBeforeUnload, app`outbox, relay`tabReady, relay`tab
    ensures relay.Valid()
    ensures app.window.onBeforeUnload == NoHandler
    ensures app.outbox == old(app.outbox) +
      if old(app.window.onBeforeUnload) == TabHandler then TabController.UnloadStep(app.State()).posted else []
    ensures relay.State() == IframeRelay.UnloadState(old(relay.State()), old(app.window.onBeforeUnload) == RelayHandler)
    ensures relay.channelOut == old(relay.channelOut) && relay.parentOut == old(relay.parentOut)
    ensures relay.tab == if closed && old(relay.tab) == app.window then null else old(relay.tab)
  {
    if app.window.onBeforeUnload == TabHandler {
      app.OnBeforeUnload();
    } else if app.window.onBeforeUnload == RelayHandler {
      relay.OnTabUnload();
    }
    app.window.onBeforeUnload := NoHandler;
    if closed && relay.tab == app.window {
      relay.OnTabClosed();
    }
  }

  /**
   * The relay's hook replaces the tab's own: once the relay has handled a
   * command for the tab, unloading the tab posts no `ready: false`, even
   * when the tab was connected with a channel; only the relay that hooked
   * it closes its gate.
   */
  method CommandThenUnload(app: TabController.App, relay: IframeRelay.Relay, m: Message)
    requires relay.Valid() && relay.active && relay.tab == app.window
    requires m.target == Some(IframeTarget)
    modifies relay, app.window, app`outbox
    ensures app.outbox == old(app.outbox)
    ensures !relay.tabReady && relay.Valid()
  {
    relay.OnWindowMessage(Some(m), true);
    TabUnloads(app, relay, false);
  }

  /**
   * The tab's handler replaces the relay's: a top-level tab whose `connect`
   * completes after the relay hooked it posts `ready: false` when it unloads, and the
   * relay's `tabReady` is left as it was.
   */
  method ConnectThenUnload(app: TabController.App, relay: IframeRelay.Relay, restored: Option<TabController.Session>)
    requires relay.Valid()
    modifies app, app.window, relay`tabReady, relay`tab
    ensures app.outbox == old(app.outbox) + [Status(false)]
    ensures relay.tabReady == old(relay.tabReady) && relay.Valid()
  {
    app.Connect(true, restored, true);
    TabUnloads(app, relay, false);
  }
}

/**
 * The signing tab's browsing context, shared by the two components: the
 * relay reaches it as the window `window.open('', 'walletconnect-tab')`
 * returns, and the tab controller runs in it.
 *
 * Its `onbeforeunload` is one attribute. The relay assigns it from outside
 * (`tab.onbeforeunload = …`) and the tab controller from inside
 * (`window.onbeforeunload = …`); whichever assignment came last is the only
 * handler that runs when the page unloads.
 */
module Browser {

  /** What the tab's `onbeforeunload` attribute holds. */
  datatype UnloadHandler =
    | NoHandler
    | RelayHandler  // the relay's hook: it clears the relay's `tabReady`
    | TabHandler    // the tab controller's own: it posts `ready: false`

  class BrowserWindow {
    var location: string
    var focused: bool
    var onBeforeUnload: UnloadHandler

    /** A page just loaded: nothing has assigned its `onbeforeunload` yet. */
    constructor (location: string)
      ensures this.location == location && !focused && onBeforeUnload == NoHandler
    {
      this.location := location;
      focused, onBeforeUnload := false, NoHandler;
    }
  }
}

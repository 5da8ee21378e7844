/** The Compose terminal view (`TerminalScreen`): it remembers the sticky
    modifiers and a provider object over them, creates its web view once,
    sends quick-bar keys, and turns tab swipes into Alt+arrow key presses.

    The provider's `onModifierUsed` ends by calling the `onModifierUsed`
    callback the screen was given (the closer name, not itself); the model
    counts those calls. Layout, the soft keyboard and the four-way arrow
    button's drag detection are not modelled. */
module TerminalScreens {
  import opened Wrappers
  import opened Modifiers
  import opened TerminalWebViews

  /** The key a tab swipe sends: left for a LEFT swipe, right otherwise. */
  function SwipeKeyCode(d: SwipeDirection): (code: int)
    ensures code == KeycodeDpadLeft <==> d.Left?
    ensures code == KeycodeDpadRight <==> d.Right?
  {
    match d
    case Left => KeycodeDpadLeft
    case Right => KeycodeDpadRight
  }

  class TerminalScreen {
    /** The remembered provider object over the remembered modifiers. */
    const keys: ModifierProvider
    /** `webViewRef`: null until the web view has been created. */
    var webViewRef: TerminalWebView?

    predicate Valid()
      reads this, webViewRef
    {
      keys.host == Screen && (webViewRef != null ==> webViewRef.modifierProvider == keys)
    }

    constructor ()
      ensures Valid() && webViewRef == null
      ensures fresh(keys) && keys.State() == ProviderState(Released, 0, 0)
    {
      keys := new ModifierProvider(Screen);
      webViewRef := null;
    }

    /** The `AndroidView` factory: a web view whose provider is this
        screen's, kept in `webViewRef`. */
    method CreateWebView(platformHandles: KeyEvent -> bool, platformCommits: Option<string> -> bool)
      returns (w: TerminalWebView)
      modifies this`webViewRef
      ensures fresh(w) && webViewRef == w && w.modifierProvider == keys
      ensures w.delivered == [] && w.committed == [] && w.scripts == []
      ensures keys.host == Screen ==> Valid()
    {
      w := new TerminalWebView(platformHandles, platformCommits);
      w.modifierProvider := keys;
      webViewRef := w;
    }

    /** `dispatchKeyEventWithModifiers` at time `now`: a key press carrying
        `modifiers`, through the web view (which merges in the active
        modifiers); nothing without a web view. */
    method DispatchKeyEventWithModifiers(keyCode: int, modifiers: MetaState, now: int)
      requires Valid()
      modifies webViewRef, keys
      ensures Valid()
      ensures webViewRef == null ==> keys.State() == old(keys.State())
      ensures webViewRef != null ==>
        var active := MetaStateOf(old(keys.Current()));
        var up := Synthesized(now, ActionUp, keyCode, modifiers);
        && webViewRef.delivered == old(webViewRef.delivered)
           + [Merged(Synthesized(now, ActionDown, keyCode, modifiers), active), Merged(up, active)]
        && webViewRef.scripts == old(webViewRef.scripts)
        && keys.State() == (if NeedsMerge(up, active) then UsedStep(Screen, old(keys.State())) else old(keys.State()))
    {
      var webView := webViewRef;
      if webView != null {
        var down := Synthesized(now, ActionDown, keyCode, modifiers);
        var up := Synthesized(now, ActionUp, keyCode, modifiers);
        var _ := webView.DispatchKeyEvent(down);
        var _ := webView.DispatchKeyEvent(up);
      }
    }

    /** `sendKey` at time `now`: like the fragment's, except that without a
        web view nothing is sent; the modifiers count as used either way. */
    method SendKey(key: string, keyCode: int, now: int)
      requires Valid()
      modifies webViewRef, keys
      ensures Valid()
      ensures webViewRef != null && keyCode != 0 ==>
        && webViewRef.delivered == old(webViewRef.delivered)
           + [Synthesized(now, ActionDown, keyCode, MetaStateOf(old(keys.Current()))),
              Synthesized(now, ActionUp, keyCode, MetaStateOf(old(keys.Current())))]
        && webViewRef.scripts == old(webViewRef.scripts)
      ensures webViewRef != null && keyCode == 0 ==>
        && webViewRef.scripts == old(webViewRef.scripts) + [KeyScript(key, MetaStateOf(old(keys.Current())))]
        && webViewRef.delivered == old(webViewRef.delivered)
      ensures keys.State() == UsedStep(Screen, old(keys.State()))
    {
      var metaState := keys.GetMetaState();
      if keyCode != 0 {
        CarriesActiveBits(Synthesized(now, ActionUp, keyCode, metaState), metaState, {});
        CarriesActiveBits(Synthesized(now, ActionDown, keyCode, metaState), metaState, {});
        DispatchKeyEventWithModifiers(keyCode, metaState, now);
      } else {
        var webView := webViewRef;
        if webView != null {
          webView.EvaluateJavascript(KeyScript(key, metaState));
        }
      }
      keys.OnModifierUsed();
    }

    /** The tab-swipe listener: an arrow key press carrying exactly the Alt
        bits, to which the web view adds any active modifiers. */
    method OnTabSwipe(direction: SwipeDirection, now: int)
      requires Valid()
      modifies webViewRef, keys
      ensures Valid()
      ensures webViewRef == null ==> keys.State() == old(keys.State())
      ensures webViewRef != null ==>
        var active := MetaStateOf(old(keys.Current()));
        var code := SwipeKeyCode(direction);
        && webViewRef.delivered == old(webViewRef.delivered)
           + [Synthesized(now, ActionDown, code, AltBits + active), Synthesized(now, ActionUp, code, AltBits + active)]
        && keys.State()
           == (if active <= AltBits then old(keys.State()) else UsedStep(Screen, old(keys.State())))
    {
      ghost var active := MetaStateOf(keys.Current());
      var code := SwipeKeyCode(direction);
      MergedProperties(Synthesized(now, ActionDown, code, AltBits), active);
      MergedProperties(Synthesized(now, ActionUp, code, AltBits), active);
      DispatchKeyEventWithModifiers(code, AltBits, now);
    }

    /** A modifier button's click at time `now`: the state cycles and the
        tap is recorded at the same `now`. */
    method ClickModifier(k: Key, now: int)
      requires Valid()
      modifies keys
      ensures Valid()
      ensures keys.State() == old(keys.State()).(modifiers := ClickStep(old(keys.Current()), k, now, now))
    {
      keys.Click(k, now, now);
    }
  }

  /** With nothing active a swipe sends plain Alt+arrow and uses nothing;
      with Ctrl tapped once it sends Ctrl+Alt+arrow and releases Ctrl. */
  lemma SwipeWithOneShotCtrl(p: ProviderState)
    requires p.modifiers.ctrl.state == On && p.modifiers.alt.state == Off && p.modifiers.meta.state == Off
    ensures AltBits + MetaStateOf(p.modifiers) == AltBits + CtrlBits
    ensures !(MetaStateOf(p.modifiers) <= AltBits)
    ensures UsedStep(Screen, p).modifiers.ctrl.state == Off
    ensures MetaStateOf(Released) == {}
  {
    assert MetaCtrlOn in MetaStateOf(p.modifiers);
  }
}

/** The classic terminal view (`TerminalFragment`): it is the modifier
    provider of its own web view, its quick-key bar sends keys through it,
    and its Ctrl, Alt and Meta buttons cycle the sticky modifiers.

    Button styling is counted, not drawn; the soft keyboard, the D-pad
    overlay and the page loading are not modelled. */
module TerminalFragments {
  import opened Modifiers
  import opened TerminalWebViews

  class TerminalFragment {
    /** The fragment in its role of modifier provider. */
    const keys: ModifierProvider
    const webView: TerminalWebView

    /** The web view asks this fragment for its modifiers. */
    predicate Valid()
      reads this, webView
    {
      webView.modifierProvider == keys && keys.host == Fragment
    }

    /** `onCreateView`: the fragment becomes its web view's provider, with
        every modifier OFF. */
    constructor (webView: TerminalWebView)
      modifies webView`modifierProvider
      ensures this.webView == webView && Valid()
      ensures fresh(keys) && keys.State() == ProviderState(Released, 0, 0)
    {
      var k := new ModifierProvider(Fragment);
      keys := k;
      this.webView := webView;
      new;
      webView.modifierProvider := k;
    }

    /** `sendKey` at time `now`: a key code goes out as a key press
        carrying the active modifiers, a key without one as a page script
        with their flags; then the modifiers count as used, once. */
    method SendKey(key: string, keyCode: int, now: int)
      requires Valid()
      modifies webView`delivered, webView`scripts, keys
      ensures Valid()
      ensures keyCode != 0 ==>
        && webView.delivered == old(webView.delivered)
           + [Synthesized(now, ActionDown, keyCode, MetaStateOf(old(keys.Current()))),
              Synthesized(now, ActionUp, keyCode, MetaStateOf(old(keys.Current())))]
        && webView.scripts == old(webView.scripts)
      ensures keyCode == 0 ==>
        && webView.scripts == old(webView.scripts) + [KeyScript(key, MetaStateOf(old(keys.Current())))]
        && webView.delivered == old(webView.delivered)
      ensures keys.State() == UsedStep(Fragment, old(keys.State()))
    {
      var metaState := keys.GetMetaState();
      if keyCode != 0 {
        var down := Synthesized(now, ActionDown, keyCode, metaState);
        var up := Synthesized(now, ActionUp, keyCode, metaState);
        CarriesActiveBits(down, metaState, {});
        CarriesActiveBits(up, metaState, {});
        var _ := webView.DispatchKeyEvent(down);
        var _ := webView.DispatchKeyEvent(up);
      } else {
        webView.EvaluateJavascript(KeyScript(key, metaState));
      }
      keys.OnModifierUsed();
    }

    /** A tap on a modifier button: the state cycles with the clock read
        at `cycleNow`, the tap is recorded at `tapNow` (a second reading),
        and the buttons are restyled. */
    method ClickModifier(k: Key, cycleNow: int, tapNow: int)
      requires Valid()
      modifies keys
      ensures Valid()
      ensures keys.State()
           == ProviderState(ClickStep(old(keys.Current()), k, cycleNow, tapNow),
                            old(keys.State()).refreshes + 1, old(keys.State()).callbacks)
    {
      keys.Click(k, cycleNow, tapNow);
      keys.RefreshVisuals();
    }
  }

  /** Sending a key with Ctrl tapped once sends it with the Ctrl bits and
      turns Ctrl off again; with Ctrl locked it stays on. */
  lemma OneShotCtrl(p: ProviderState)
    requires p.modifiers.ctrl.state == On && p.modifiers.alt.state == Off && p.modifiers.meta.state == Off
    ensures MetaStateOf(p.modifiers) == CtrlBits
    ensures UsedStep(Fragment, p).modifiers.ctrl.state == Off
    ensures MetaStateOf(UsedStep(Fragment, p).modifiers) == {}
    ensures UsedStep(Fragment, p).refreshes == p.refreshes + 1
  {
  }
}

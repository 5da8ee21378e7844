/** The terminal's `TerminalWebView`: it merges the active sticky modifiers
    into every key event it dispatches, and turns a single typed character
    into a key press when modifiers are active, so that the terminal sees
    Ctrl+C rather than the letter c.

    What the platform does with a key event or committed text (the
    superclass's `dispatchKeyEvent` and the wrapped `commitText`) is
    recorded and answered by oracles; scripts run in the page are recorded
    as what they dispatch. The swipe gesture recogniser is not modelled. */
module TerminalWebViews {
  import opened Wrappers
  import opened Modifiers

  const ActionDown: int := 0
  const ActionUp: int := 1

  const Keycode0: int := 7
  const KeycodeDpadUp: int := 19
  const KeycodeDpadDown: int := 20
  const KeycodeDpadLeft: int := 21
  const KeycodeDpadRight: int := 22
  const KeycodeA: int := 29

  /** Where an event's device fields come from: the defaults the short
      constructor fills in, or a real device's. */
  datatype Device = Synthetic | Hardware(deviceId: int, scanCode: int, flags: int, source: int)

  datatype KeyEvent = KeyEvent(
    downTime: int, eventTime: int, action: int, keyCode: int,
    repeatCount: int, metaState: MetaState, device: Device)

  /** `KeyEvent(downTime, downTime, action, keyCode, 0, metaState)`. */
  function Synthesized(time: int, action: int, keyCode: int, metaState: MetaState): KeyEvent {
    KeyEvent(time, time, action, keyCode, 0, metaState, Synthetic)
  }

  datatype SwipeDirection = Left | Right

  /** What a page script dispatches: a keydown and a keyup of `key` with
      these modifier flags. */
  datatype Script = KeyboardScript(key: string, ctrlKey: bool, altKey: bool, metaKey: bool)

  /** The script the views run for a key without a key code: each flag is
      the `_ON` bit of its modifier. */
  function KeyScript(key: string, metaState: MetaState): (s: Script)
    ensures s.key == key
    ensures s.ctrlKey <==> MetaCtrlOn in metaState
    ensures s.altKey <==> MetaAltOn in metaState
    ensures s.metaKey <==> MetaMetaOn in metaState
  {
    KeyboardScript(key, MetaCtrlOn in metaState, MetaAltOn in metaState, MetaMetaOn in metaState)
  }

  /** The script's flags are exactly the active modifiers. */
  lemma KeyScriptFlags(key: string, m: Modifiers)
    ensures KeyScript(key, MetaStateOf(m)).ctrlKey <==> m.ctrl.state != Off
    ensures KeyScript(key, MetaStateOf(m)).altKey <==> m.alt.state != Off
    ensures KeyScript(key, MetaStateOf(m)).metaKey <==> m.meta.state != Off
  {
    MetaStateBits(m, Ctrl);
    MetaStateBits(m, Alt);
    MetaStateBits(m, Meta);
  }

  /** The a-z letter `c.lowercaseChar()` is, if it is one: the ASCII
      letters, and the two other characters whose lower case is ASCII
      (capital I with dot above and the Kelvin sign). */
  function LowercaseLetter(c: char): (r: Option<char>)
    ensures r.Some? ==> 'a' <= r.value <= 'z'
  {
    if 'a' <= c <= 'z' then Some(c)
    else if 'A' <= c <= 'Z' then Some((c as int - 'A' as int + 'a' as int) as char)
    else if c == '\U{0130}' then Some('i')
    else if c == '\U{212A}' then Some('k')
    else None
  }

  /** `Char.isUpperCase()`, exact on the characters that have a key code
      (the only ones for which the answer is used). */
  predicate IsUpperCase(c: char) {
    'A' <= c <= 'Z' || c == '\U{0130}' || c == '\U{212A}'
  }

  /** `getKeyCodeForChar`: letters, in either case, to `KEYCODE_A` onwards,
      digits to `KEYCODE_0` onwards, everything else to 0. */
  function KeyCodeForChar(c: char): int {
    match LowercaseLetter(c)
    case Some(l) => KeycodeA + (l as int - 'a' as int)
    case None => if '0' <= c <= '9' then Keycode0 + (c as int - '0' as int) else 0
  }

  /** Key codes ignore case, letters and digits get codes in disjoint
      ranges, and two characters share a code only when they are the same
      letter or the same digit. */
  lemma KeyCodeForCharProperties(c: char, d: char)
    ensures KeyCodeForChar(c) != 0 <==> LowercaseLetter(c).Some? || '0' <= c <= '9'
    ensures LowercaseLetter(c).Some? ==> KeycodeA <= KeyCodeForChar(c) < KeycodeA + 26
    ensures '0' <= c <= '9' ==> Keycode0 <= KeyCodeForChar(c) < Keycode0 + 10
    ensures 'A' <= c <= 'Z' ==> KeyCodeForChar(c) == KeyCodeForChar((c as int - 'A' as int + 'a' as int) as char)
    ensures KeyCodeForChar(c) == KeyCodeForChar(d) != 0 ==>
      LowercaseLetter(c) == LowercaseLetter(d) && (LowercaseLetter(c).None? ==> c == d)
  {
  }

  /** A character typed with modifiers goes out with Shift as well when
      it is upper case. */
  function CommitMeta(c: char, active: MetaState): MetaState {
    if IsUpperCase(c) then active + {MetaShiftOn} + {MetaShiftLeftOn} else active
  }

  /** When `commitText` turns the text into a key press: modifiers are
      active and the text is one character that has a key code. */
  predicate Intercepts(text: Option<string>, active: MetaState) {
    active != {} && text.Some? && |text.value| == 1 && KeyCodeForChar(text.value[0]) != 0
  }

  /** When `dispatchKeyEvent` rebuilds the event: some active modifier bit
      is missing from it. */
  predicate NeedsMerge(event: KeyEvent, active: MetaState) {
    active != {} && event.metaState * active != active
  }

  /** The event `dispatchKeyEvent` hands on. */
  function Merged(event: KeyEvent, active: MetaState): KeyEvent {
    if NeedsMerge(event, active) then event.(metaState := event.metaState + active) else event
  }

  /** Whether it is rebuilt or not, the event handed on is the event with
      the active bits added and nothing else changed; it carries every
      active bit and every bit it had, and merging again changes nothing. */
  lemma MergedProperties(event: KeyEvent, active: MetaState)
    ensures Merged(event, active) == event.(metaState := event.metaState + active)
    ensures active <= Merged(event, active).metaState
    ensures event.metaState <= Merged(event, active).metaState
    ensures !NeedsMerge(Merged(event, active), active)
    ensures Merged(Merged(event, active), active) == Merged(event, active)
  {
    if !NeedsMerge(event, active) {
      assert event.metaState + active == event.metaState;
    }
  }

  /** An event that already carries the active bits is handed on as it
      is. */
  lemma CarriesActiveBits(event: KeyEvent, active: MetaState, extra: MetaState)
    requires event.metaState == active + extra
    ensures !NeedsMerge(event, active) && Merged(event, active) == event
  {
    assert event.metaState * active == active;
  }

  class TerminalWebView {
    var modifierProvider: ModifierProvider?
    /** Key events handed to the platform's own dispatch, in order. */
    var delivered: seq<KeyEvent>
    /** Texts handed to the wrapped input connection, in order. */
    var committed: seq<Option<string>>
    /** Scripts evaluated in the page, in order. */
    var scripts: seq<Script>
    /** Whether the platform handles a key event. */
    const platformHandles: KeyEvent -> bool
    /** What the wrapped input connection answers to a commit. */
    const platformCommits: Option<string> -> bool

    constructor (platformHandles: KeyEvent -> bool, platformCommits: Option<string> -> bool)
      ensures this.platformHandles == platformHandles && this.platformCommits == platformCommits
      ensures modifierProvider == null && delivered == [] && committed == [] && scripts == []
    {
      this.platformHandles := platformHandles;
      this.platformCommits := platformCommits;
      modifierProvider := null;
      delivered := [];
      committed := [];
      scripts := [];
    }

    method EvaluateJavascript(s: Script)
      modifies this`scripts
      ensures scripts == old(scripts) + [s]
    {
      scripts := scripts + [s];
    }

    /** The superclass's `dispatchKeyEvent`. */
    method PlatformDispatch(event: KeyEvent) returns (handled: bool)
      modifies this`delivered
      ensures delivered == old(delivered) + [event] && handled == platformHandles(event)
    {
      delivered := delivered + [event];
      handled := platformHandles(event);
    }

    /** `dispatchKeyEvent`: without a provider the event goes through as it
        is; with one, the active modifiers are merged in, and a rebuilt
        key-up counts as a use of the modifiers. */
    method DispatchKeyEvent(event: KeyEvent) returns (handled: bool)
      modifies this`delivered, modifierProvider
      ensures modifierProvider == null ==>
        delivered == old(delivered) + [event] && handled == platformHandles(event)
      ensures modifierProvider != null ==>
        var active := MetaStateOf(old(modifierProvider.Current()));
        && delivered == old(delivered) + [Merged(event, active)]
        && handled == platformHandles(Merged(event, active))
        && modifierProvider.State()
           == (if NeedsMerge(event, active) && event.action == ActionUp
               then UsedStep(modifierProvider.host, old(modifierProvider.State()))
               else old(modifierProvider.State()))
    {
      var provider := modifierProvider;
      if provider == null {
        handled := PlatformDispatch(event);
        return;
      }
      var metaState := provider.GetMetaState();
      if metaState != {} && event.metaState * metaState != metaState {
        var modifiedEvent := event.(metaState := event.metaState + metaState);
        handled := PlatformDispatch(modifiedEvent);
        if event.action == ActionUp {
          provider.OnModifierUsed();
        }
        return;
      }
      handled := PlatformDispatch(event);
    }

    /** The input connection's `commitText`, at time `now`: a single
        character with a key code, typed while modifiers are active, becomes
        a key press carrying them (and Shift for an upper-case character),
        after which the modifiers count as used; any other text goes to the
        wrapped connection unchanged. */
    method CommitText(text: Option<string>, now: int) returns (r: bool)
      modifies this`delivered, this`committed, modifierProvider
      ensures modifierProvider == null ==>
        && r == platformCommits(text)
        && committed == old(committed) + [text] && delivered == old(delivered)
      ensures modifierProvider != null ==>
        var active := MetaStateOf(old(modifierProvider.Current()));
        if Intercepts(text, active) then
          var c := text.value[0];
          && r
          && delivered == old(delivered)
             + [Synthesized(now, ActionDown, KeyCodeForChar(c), CommitMeta(c, active)),
                Synthesized(now, ActionUp, KeyCodeForChar(c), CommitMeta(c, active))]
          && committed == old(committed)
          && modifierProvider.State() == UsedStep(modifierProvider.host, old(modifierProvider.State()))
        else
          && r == platformCommits(text)
          && committed == old(committed) + [text] && delivered == old(delivered)
          && modifierProvider.State() == old(modifierProvider.State())
    {
      var provider := modifierProvider;
      if provider != null {
        var metaState := provider.GetMetaState();
        ghost var active := metaState;
        if metaState != {} && text.Some? && |text.value| == 1 {
          var ch := text.value[0];
          if IsUpperCase(ch) {
            metaState := metaState + {MetaShiftOn} + {MetaShiftLeftOn};
          }
          var keyCode := KeyCodeForChar(ch);
          if keyCode != 0 {
            var down := Synthesized(now, ActionDown, keyCode, metaState);
            var up := Synthesized(now, ActionUp, keyCode, metaState);
            CarriesActiveBits(down, active, metaState - active);
            CarriesActiveBits(up, active, metaState - active);
            var _ := DispatchKeyEvent(down);
            var _ := DispatchKeyEvent(up);
            provider.OnModifierUsed();
            return true;
          }
        }
      }
      committed := committed + [text];
      r := platformCommits(text);
    }
  }
}

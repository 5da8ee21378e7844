/** The sticky keyboard modifiers of the terminal views (`ModifierState`,
    `cycleModifierState`, and the `TerminalWebView.ModifierProvider` that
    `TerminalFragment` and `TerminalScreen` implement): Ctrl, Alt and Meta
    each cycle OFF -> ON -> (a second tap within 300 ms) LOCKED; an ON
    modifier is one-shot and is reset once a key has used it.

    Clock readings (`SystemClock.uptimeMillis()`, in milliseconds) are
    parameters. The two implementations of the provider are one class whose
    `host` says which one it is: they differ only in what `onModifierUsed`
    does besides the reset. */
module Modifiers {

  datatype ModifierState = Off | On | Locked

  /** The double-tap window both views use, in milliseconds. */
  const DoubleTapThreshold: int := 300

  /** `cycleModifierState`: a tap turns OFF into ON and LOCKED into OFF; a
      tap on ON locks it when it comes within `threshold` of the previous
      tap, and otherwise turns it off. */
  function Cycle(s: ModifierState, lastTap: int, now: int, threshold: int): ModifierState {
    match s
    case Off => On
    case On => if now - lastTap < threshold then Locked else Off
    case Locked => Off
  }

  /** Locking takes a quick second tap on an ON modifier, only OFF turns
      ON, and every tap changes the state. */
  lemma CycleProperties(s: ModifierState, lastTap: int, now: int, threshold: int)
    ensures Cycle(s, lastTap, now, threshold) == Locked <==> s == On && now - lastTap < threshold
    ensures Cycle(s, lastTap, now, threshold) == On <==> s == Off
    ensures Cycle(s, lastTap, now, threshold) != s
  {
  }

  /** A slow second tap turns the modifier off instead of locking it. */
  lemma SlowSecondTapTurnsOff(first: int, second: int)
    requires second - first >= DoubleTapThreshold
    ensures Cycle(Cycle(Off, 0, first, DoubleTapThreshold), first, second, DoubleTapThreshold) == Off
  {
  }

  /** A quick double tap locks; a third tap unlocks. */
  lemma DoubleTapLocks(first: int, second: int, third: int)
    requires second - first < DoubleTapThreshold
    ensures Cycle(Cycle(Off, 0, first, DoubleTapThreshold), first, second, DoubleTapThreshold) == Locked
    ensures Cycle(Locked, second, third, DoubleTapThreshold) == Off
  {
  }

  /** A bit position of a 32-bit meta state; a meta state, an `Int` bit
      mask, is the set of the positions of its set bits, so that `or` is
      union and `and` is intersection. */
  newtype Bit = b: int | 0 <= b < 32

  type MetaState = set<Bit>

  const MetaShiftOn: Bit := 0         // 0x1
  const MetaAltOn: Bit := 1           // 0x2
  const MetaAltLeftOn: Bit := 4       // 0x10
  const MetaShiftLeftOn: Bit := 6     // 0x40
  const MetaCtrlOn: Bit := 12         // 0x1000
  const MetaCtrlLeftOn: Bit := 13     // 0x2000
  const MetaMetaOn: Bit := 16         // 0x10000
  const MetaMetaLeftOn: Bit := 17     // 0x20000

  const CtrlBits: MetaState := {MetaCtrlOn, MetaCtrlLeftOn}
  const AltBits: MetaState := {MetaAltOn, MetaAltLeftOn}
  const MetaBits: MetaState := {MetaMetaOn, MetaMetaLeftOn}
  const ShiftBits: MetaState := {MetaShiftOn, MetaShiftLeftOn}

  /** One modifier: its state and the time of its last tap. */
  datatype Modifier = Modifier(state: ModifierState, lastTap: int)

  datatype Modifiers = Modifiers(ctrl: Modifier, alt: Modifier, meta: Modifier)

  datatype Key = Ctrl | Alt | Meta

  const Released: Modifiers := Modifiers(Modifier(Off, 0), Modifier(Off, 0), Modifier(Off, 0))

  function Of(m: Modifiers, k: Key): Modifier {
    match k
    case Ctrl => m.ctrl
    case Alt => m.alt
    case Meta => m.meta
  }

  function BitsOf(k: Key): MetaState {
    match k
    case Ctrl => CtrlBits
    case Alt => AltBits
    case Meta => MetaBits
  }

  /** `getMetaState`: the bit pair of every modifier that is not OFF. */
  function MetaStateOf(m: Modifiers): MetaState {
    (if m.ctrl.state != Off then CtrlBits else {})
    + (if m.alt.state != Off then AltBits else {})
    + (if m.meta.state != Off then MetaBits else {})
  }

  /** A modifier's bits are in the meta state exactly when it is not OFF,
      whole or not at all; nothing else is; ON and LOCKED count the same. */
  lemma MetaStateBits(m: Modifiers, k: Key)
    ensures MetaStateOf(m) * BitsOf(k) == (if Of(m, k).state == Off then {} else BitsOf(k))
    ensures MetaStateOf(m) <= CtrlBits + AltBits + MetaBits
    ensures MetaStateOf(m) == {} <==> m.ctrl.state == Off && m.alt.state == Off && m.meta.state == Off
    ensures MetaStateOf(m) * ShiftBits == {}
  {
  }

  /** A tap on one modifier: its state cycles and `tapNow` becomes its last
      tap time (the fragment reads the clock twice, the screen once). */
  function ClickStep(m: Modifiers, k: Key, cycleNow: int, tapNow: int): Modifiers {
    var x := Of(m, k);
    var y := Modifier(Cycle(x.state, x.lastTap, cycleNow, DoubleTapThreshold), tapNow);
    match k
    case Ctrl => m.(ctrl := y)
    case Alt => m.(alt := y)
    case Meta => m.(meta := y)
  }

  /** A tap changes that modifier only. */
  lemma ClickChangesOnlyThatModifier(m: Modifiers, k: Key, other: Key, cycleNow: int, tapNow: int)
    requires other != k
    ensures Of(ClickStep(m, k, cycleNow, tapNow), other) == Of(m, other)
    ensures Of(ClickStep(m, k, cycleNow, tapNow), k).lastTap == tapNow
    ensures Of(ClickStep(m, k, cycleNow, tapNow), k).state
         == Cycle(Of(m, k).state, Of(m, k).lastTap, cycleNow, DoubleTapThreshold)
  {
  }

  function Reset(s: ModifierState): ModifierState {
    if s == On then Off else s
  }

  /** The reset of one-shot modifiers `onModifierUsed` performs. */
  function ResetOneShot(m: Modifiers): Modifiers {
    Modifiers(m.ctrl.(state := Reset(m.ctrl.state)),
              m.alt.(state := Reset(m.alt.state)),
              m.meta.(state := Reset(m.meta.state)))
  }

  predicate AnyOn(m: Modifiers) {
    m.ctrl.state == On || m.alt.state == On || m.meta.state == On
  }

  /** After the reset no modifier is ON, the LOCKED ones stay LOCKED, tap
      times are kept, and only the locked modifiers' bits remain; the reset
      changes something exactly when some modifier was ON, and a second
      reset changes nothing. */
  lemma ResetProperties(m: Modifiers, k: Key)
    ensures Of(ResetOneShot(m), k).state != On
    ensures Of(ResetOneShot(m), k).state == Locked <==> Of(m, k).state == Locked
    ensures Of(ResetOneShot(m), k).lastTap == Of(m, k).lastTap
    ensures MetaStateOf(ResetOneShot(m)) * BitsOf(k) == (if Of(m, k).state == Locked then BitsOf(k) else {})
    ensures ResetOneShot(m) != m <==> AnyOn(m)
    ensures ResetOneShot(ResetOneShot(m)) == ResetOneShot(m)
  {
    MetaStateBits(ResetOneShot(m), k);
  }

  /** Which view implements the provider. */
  datatype Host = Fragment | Screen

  /** Everything a provider holds: the modifiers, how often the fragment
      restyled its modifier buttons, how often the screen called its
      `onModifierUsed` callback. */
  datatype ProviderState = ProviderState(modifiers: Modifiers, refreshes: nat, callbacks: nat)

  /** `onModifierUsed`: the fragment restyles its buttons only when the
      reset changed something; the screen always calls the callback it was
      given, once. */
  function UsedStep(host: Host, p: ProviderState): ProviderState {
    match host
    case Fragment =>
      ProviderState(ResetOneShot(p.modifiers), p.refreshes + (if AnyOn(p.modifiers) then 1 else 0), p.callbacks)
    case Screen =>
      ProviderState(ResetOneShot(p.modifiers), p.refreshes, p.callbacks + 1)
  }

  /** Using the modifiers twice is the same as using them once, for the
      fragment: the second use finds nothing ON and restyles nothing. */
  lemma FragmentUseIdempotent(p: ProviderState)
    ensures UsedStep(Fragment, UsedStep(Fragment, p)) == UsedStep(Fragment, p)
    ensures UsedStep(Fragment, p).refreshes == p.refreshes + 1 <==> UsedStep(Fragment, p).modifiers != p.modifiers
  {
    ResetProperties(p.modifiers, Ctrl);
    assert !AnyOn(ResetOneShot(p.modifiers));
  }

  /** For the screen every use resets the same way and calls back once
      more, changed or not. */
  lemma ScreenUseCallsBackOnce(p: ProviderState)
    ensures UsedStep(Screen, p).callbacks == p.callbacks + 1
    ensures UsedStep(Screen, UsedStep(Screen, p)).modifiers == UsedStep(Screen, p).modifiers
    ensures UsedStep(Screen, p).refreshes == p.refreshes
  {
    ResetProperties(p.modifiers, Ctrl);
  }

  /** A view's modifier state (`TerminalWebView.ModifierProvider`). */
  class ModifierProvider {
    const host: Host
    var ctrl: Modifier
    var alt: Modifier
    var meta: Modifier
    var refreshes: nat
    var callbacks: nat

    function Current(): Modifiers
      reads this
    {
      Modifiers(ctrl, alt, meta)
    }

    function State(): ProviderState
      reads this
    {
      ProviderState(Current(), refreshes, callbacks)
    }

    /** All modifiers start OFF with a last tap at time 0. */
    constructor (host: Host)
      ensures this.host == host
      ensures State() == ProviderState(Released, 0, 0)
    {
      this.host := host;
      ctrl := Modifier(Off, 0);
      alt := Modifier(Off, 0);
      meta := Modifier(Off, 0);
      refreshes := 0;
      callbacks := 0;
    }

    /** `getMetaState`, built up one modifier at a time. */
    method GetMetaState() returns (state: MetaState)
      ensures state == MetaStateOf(Current())
    {
      state := {};
      if ctrl.state != Off {
        state := state + {MetaCtrlOn} + {MetaCtrlLeftOn};
      }
      if alt.state != Off {
        state := state + {MetaAltOn} + {MetaAltLeftOn};
      }
      if meta.state != Off {
        state := state + {MetaMetaOn} + {MetaMetaLeftOn};
      }
    }

    /** `onModifierUsed`: resets each ON modifier, noting whether any was;
        then the host's own follow-up. */
    method OnModifierUsed()
      modifies this
      ensures State() == UsedStep(host, old(State()))
    {
      var changed := false;
      if ctrl.state == On {
        ctrl := ctrl.(state := Off);
        changed := true;
      }
      if alt.state == On {
        alt := alt.(state := Off);
        changed := true;
      }
      if meta.state == On {
        meta := meta.(state := Off);
        changed := true;
      }
      match host {
        case Fragment =>
          if changed {
            RefreshVisuals();
          }
        case Screen =>
          callbacks := callbacks + 1;
      }
    }

    /** `updateModifierVisuals`: restyles the three modifier buttons. */
    method RefreshVisuals()
      modifies this`refreshes
      ensures refreshes == old(refreshes) + 1
    {
      refreshes := refreshes + 1;
    }

    /** A tap on one modifier's button, cycled at `cycleNow`, recorded as
        tapped at `tapNow`. */
    method Click(k: Key, cycleNow: int, tapNow: int)
      modifies this
      ensures State() == old(State()).(modifiers := ClickStep(old(Current()), k, cycleNow, tapNow))
    {
      match k {
        case Ctrl =>
          ctrl := Modifier(Cycle(ctrl.state, ctrl.lastTap, cycleNow, DoubleTapThreshold), tapNow);
        case Alt =>
          alt := Modifier(Cycle(alt.state, alt.lastTap, cycleNow, DoubleTapThreshold), tapNow);
        case Meta =>
          meta := Modifier(Cycle(meta.state, meta.lastTap, cycleNow, DoubleTapThreshold), tapNow);
      }
    }
  }
}

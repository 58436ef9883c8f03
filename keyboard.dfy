/** `core/keyboard_utils.py`: the hotkey state machines. On Windows and
    Linux, `KeyboardEventHandler` tracks Ctrl, Win and Alt and starts
    dictation (Ctrl+Win) or command mode (Win+Alt); on macOS,
    `FnKeyListener` reacts to Fn and Fn+Ctrl. Both can be disabled for
    meeting mode.

    The transcriber they drive is abstract: it has `rec`, `mode` and its
    meeting recorder's `meeting_mode`, and every `start_rec`/`stop_rec` call
    is logged. Each handler is specified by a pure transition on value
    states; its methods are proved to perform exactly that transition. */
module Keyboard {
  import opened Common

  const Dictation: string := "dictation"
  const Command: string := "command"

  /** Seconds after the last key press before held keys count as stuck. */
  const KeyComboTimeout: real := 0.5

  /** Seconds Fn must be held alone before dictation starts. */
  const FnDelay: real := 0.2

  /** The keys `on_press`/`on_release` distinguish; all others are `OtherKey`. */
  datatype Key = CtrlL | CtrlR | Cmd | CmdL | CmdR | AltL | AltR | OtherKey

  predicate IsCtrl(k: Key) { k == CtrlL || k == CtrlR }
  predicate IsWin(k: Key) { k == Cmd || k == CmdL || k == CmdR }
  predicate IsAlt(k: Key) { k == AltL || k == AltR }

  /** A call made on the transcriber. */
  datatype RecCall = StartRec(mode: string) | StopRec

  /** The transcriber as the handlers see it. */
  datatype Rec = Rec(rec: bool, mode: string, meetingMode: bool, calls: seq<RecCall>)

  /** `start_rec`: a no-op while recording or in meeting mode, otherwise
      recording begins in the current mode. */
  function StartRecSpec(t: Rec): (r: Rec)
    ensures r.calls == t.calls + [StartRec(t.mode)]
    ensures r.rec == (t.rec || !t.meetingMode)
    ensures r.mode == t.mode && r.meetingMode == t.meetingMode
  {
    t.(rec := t.rec || !t.meetingMode, calls := t.calls + [StartRec(t.mode)])
  }

  /** `stop_rec`: recording ends. */
  function StopRecSpec(t: Rec): (r: Rec)
    ensures r.calls == t.calls + [StopRec] && !r.rec
    ensures r.mode == t.mode && r.meetingMode == t.meetingMode
  {
    t.(rec := false, calls := t.calls + [StopRec])
  }

  /** The transcriber object; its thread handling is not modelled. */
  class Transcriber {
    var rec: bool
    var mode: string
    var meetingMode: bool
    var calls: seq<RecCall>

    function State(): Rec
      reads this
    {
      Rec(rec, mode, meetingMode, calls)
    }

    constructor ()
      ensures State() == Rec(false, "", false, [])
    {
      rec, mode, meetingMode, calls := false, "", false, [];
    }

    method StartRecording()
      modifies this
      ensures State() == StartRecSpec(old(State()))
    {
      calls := calls + [StartRec(mode)];
      if !rec && !meetingMode {
        rec := true;
      }
    }

    method StopRecording()
      modifies this
      ensures State() == StopRecSpec(old(State()))
    {
      calls := calls + [StopRec];
      rec := false;
    }
  }

  /** The combination held, if any: Ctrl+Win without Alt is dictation, Win+Alt
      without Ctrl is command; the two never hold together. */
  function Combo(ctrl: bool, win: bool, alt: bool): (r: Option<string>)
    ensures r == Some(Dictation) <==> ctrl && win && !alt
    ensures r == Some(Command) <==> win && alt && !ctrl
    ensures r.None? <==> !(ctrl && win && !alt) && !(win && alt && !ctrl)
  {
    if ctrl && win && !alt then Some(Dictation)
    else if win && alt && !ctrl then Some(Command)
    else None
  }

  // ---------------------------------------------------------------------
  // KeyboardEventHandler
  // ---------------------------------------------------------------------

  datatype Keys = Keys(ctrl: bool, win: bool, alt: bool, lastKeyTime: real, disabled: bool)

  /** While the listeners are disabled no key is held. */
  predicate KeysInv(k: Keys) {
    k.disabled ==> !k.ctrl && !k.win && !k.alt
  }

  /** `reset_key_states`. */
  function ResetKeys(k: Keys): (r: Keys)
    ensures !r.ctrl && !r.win && !r.alt && r.lastKeyTime == 0.0 && r.disabled == k.disabled
  {
    k.(ctrl := false, win := false, alt := false, lastKeyTime := 0.0)
  }

  /** `check_key_combinations`. */
  function CheckCombos(k: Keys, t: Rec): Rec {
    if k.disabled || t.rec then t
    else
      match Combo(k.ctrl, k.win, k.alt) {
        case None => t
        case Some(m) => StartRecSpec(t.(mode := m))
      }
  }

  /** `reset_old_keys`. */
  function ResetOld(k: Keys, t: Rec, now: real): Keys {
    if now - k.lastKeyTime > KeyComboTimeout && !t.rec then ResetKeys(k) else k
  }

  /** The key flags after a press of `key` at `now`. */
  function Pressed(k: Keys, key: Key, now: real): Keys {
    if IsCtrl(key) then k.(ctrl := true, lastKeyTime := now)
    else if IsWin(key) then k.(win := true, lastKeyTime := now)
    else if IsAlt(key) then k.(alt := true, lastKeyTime := now)
    else k
  }

  /** `on_press`. */
  function Press(k: Keys, t: Rec, key: Key, now: real, isDarwin: bool): (Keys, Rec) {
    if k.disabled || isDarwin then (k, t)
    else
      var k1 := Pressed(k, key, now);
      var t1 := CheckCombos(k1, t);
      (ResetOld(k1, t1, now), t1)
  }

  /** The key flags after a release of `key`. */
  function Released(k: Keys, key: Key): Keys {
    if IsCtrl(key) then k.(ctrl := false)
    else if IsWin(key) then k.(win := false)
    else if IsAlt(key) then k.(alt := false)
    else k
  }

  /** `on_release`. */
  function Release(k: Keys, t: Rec, key: Key, isDarwin: bool): (Keys, Rec) {
    if k.disabled || isDarwin then (k, t)
    else
      var k1 := Released(k, key);
      var modifier := IsCtrl(key) || IsWin(key) || IsAlt(key);
      var t1 := if modifier && t.rec && Combo(k1.ctrl, k1.win, k1.alt).None? then StopRecSpec(t) else t;
      var k2 := if !k1.ctrl && !k1.win && !k1.alt && !t1.rec then ResetKeys(k1) else k1;
      (k2, t1)
  }

  /** `reset_old_keys` resets exactly when more than the timeout has passed
      since the last press and nothing is recording. */
  lemma ResetOldWhen(k: Keys, t: Rec, now: real)
    ensures ResetOld(k, t, now) != k ==> now - k.lastKeyTime > KeyComboTimeout && !t.rec
    ensures now - k.lastKeyTime > KeyComboTimeout && !t.rec ==> ResetOld(k, t, now) == ResetKeys(k)
  {
  }

  /** A press starts at most one recording, only when enabled, not
      recording and after the pressed key completes a combination; the mode
      is that combination's. Nothing else happens to the transcriber. */
  lemma PressStarts(k: Keys, t: Rec, key: Key, now: real, isDarwin: bool)
    ensures var t2 := Press(k, t, key, now, isDarwin).1;
      && (t2 == t || t2 == StartRecSpec(t.(mode := t2.mode)))
      && (t2 != t <==>
          && !k.disabled && !isDarwin && !t.rec
          && Combo(Pressed(k, key, now).ctrl, Pressed(k, key, now).win, Pressed(k, key, now).alt).Some?)
      && (t2 != t ==>
          t2.mode == Combo(Pressed(k, key, now).ctrl, Pressed(k, key, now).win, Pressed(k, key, now).alt).value)
  {
    if !k.disabled && !isDarwin && !t.rec {
      var k1 := Pressed(k, key, now);
      var c := Combo(k1.ctrl, k1.win, k1.alt);
      if c.Some? {
        assert |Press(k, t, key, now, isDarwin).1.calls| == |t.calls| + 1;
      }
    }
  }

  /** A release stops recording exactly when it releases a modifier during
      recording and leaves neither combination held; the key state is reset
      exactly when all three keys are up and nothing records. */
  lemma ReleaseStops(k: Keys, t: Rec, key: Key, isDarwin: bool)
    requires !k.disabled && !isDarwin
    ensures var (k2, t2) := Release(k, t, key, isDarwin);
      var k1 := Released(k, key);
      && (t2 == StopRecSpec(t) <==>
          (IsCtrl(key) || IsWin(key) || IsAlt(key)) && t.rec && Combo(k1.ctrl, k1.win, k1.alt).None?)
      && (t2 != StopRecSpec(t) ==> t2 == t)
      && (k2 == ResetKeys(k1) || k2 == k1)
      && (!k1.ctrl && !k1.win && !k1.alt && !t2.rec ==> k2.lastKeyTime == 0.0)
  {
    var k1 := Released(k, key);
    if !((IsCtrl(key) || IsWin(key) || IsAlt(key)) && t.rec && Combo(k1.ctrl, k1.win, k1.alt).None?) {
      assert |Release(k, t, key, isDarwin).1.calls| == |t.calls|;
      assert |StopRecSpec(t).calls| == |t.calls| + 1;
    }
  }

  /** Every handler transition keeps `KeysInv`, and a disabled handler
      ignores every event. */
  lemma KeysInvPreserved(k: Keys, t: Rec, key: Key, now: real, isDarwin: bool)
    requires KeysInv(k)
    ensures KeysInv(Press(k, t, key, now, isDarwin).0) && KeysInv(Release(k, t, key, isDarwin).0)
    ensures KeysInv(ResetOld(k, t, now)) && KeysInv(ResetKeys(k))
    ensures k.disabled ==> Press(k, t, key, now, isDarwin) == (k, t) && Release(k, t, key, isDarwin) == (k, t)
  {
  }

  class KeyboardEventHandler {
    var ctrl: bool
    var win: bool
    var alt: bool
    var lastKeyTime: real
    var listenersDisabled: bool
    const isDarwin: bool
    const transcriber: Transcriber

    function State(): Keys
      reads this
    {
      Keys(ctrl, win, alt, lastKeyTime, listenersDisabled)
    }

    ghost predicate Valid()
      reads this
    {
      KeysInv(State())
    }

    constructor (transcriber: Transcriber, isDarwin: bool)
      ensures Valid()
      ensures State() == Keys(false, false, false, 0.0, false)
      ensures this.transcriber == transcriber && this.isDarwin == isDarwin
    {
      ctrl, win, alt := false, false, false;
      lastKeyTime := 0.0;
      listenersDisabled := false;
      this.isDarwin := isDarwin;
      this.transcriber := transcriber;
    }

    /** `reset_key_states`. */
    method ResetKeyStates()
      modifies this
      ensures State() == ResetKeys(old(State()))
    {
      ctrl, win, alt := false, false, false;
      lastKeyTime := 0.0;
    }

    /** `check_key_combinations`. */
    method CheckKeyCombinations()
      modifies transcriber
      ensures transcriber.State() == CheckCombos(State(), old(transcriber.State()))
    {
      if listenersDisabled || transcriber.rec {
        return;
      }
      if ctrl && win && !alt {
        transcriber.mode := Dictation;
        transcriber.StartRecording();
      } else if win && alt && !ctrl {
        transcriber.mode := Command;
        transcriber.StartRecording();
      }
    }

    /** `reset_old_keys`. */
    method ResetOldKeys(now: real)
      modifies this
      ensures State() == ResetOld(old(State()), transcriber.State(), now)
    {
      if now - lastKeyTime > KeyComboTimeout {
        if !transcriber.rec {
          ResetKeyStates();
        }
      }
    }

    /** `on_press`, with the clock reading `now`. */
    method OnPress(key: Key, now: real)
      requires Valid()
      modifies this, transcriber
      ensures Valid()
      ensures (State(), transcriber.State()) == Press(old(State()), old(transcriber.State()), key, now, isDarwin)
    {
      if listenersDisabled {
        return;
      }
      if !isDarwin {
        if IsCtrl(key) {
          ctrl := true;
          lastKeyTime := now;
        } else if IsWin(key) {
          win := true;
          lastKeyTime := now;
        } else if IsAlt(key) {
          alt := true;
          lastKeyTime := now;
        }
        assert State() == Pressed(old(State()), key, now);
        CheckKeyCombinations();
        ResetOldKeys(now);
      }
    }

    /** `on_release`. */
    method OnRelease(key: Key)
      requires Valid()
      modifies this, transcriber
      ensures Valid()
      ensures (State(), transcriber.State()) == Release(old(State()), old(transcriber.State()), key, isDarwin)
    {
      if listenersDisabled {
        return;
      }
      if !isDarwin {
        var released := false;
        if IsCtrl(key) {
          ctrl := false;
          released := true;
        } else if IsWin(key) {
          win := false;
          released := true;
        } else if IsAlt(key) {
          alt := false;
          released := true;
        }
        if released && transcriber.rec {
          var dictationActive := ctrl && win && !alt;
          var commandActive := win && alt && !ctrl;
          if !dictationActive && !commandActive {
            transcriber.StopRecording();
          }
        }
        if !ctrl && !win && !alt && !transcriber.rec {
          ResetKeyStates();
        }
      }
    }

    /** `disable_all_listeners`: the flag is set and the keys are reset. */
    method DisableAllListeners()
      modifies this
      ensures Valid()
      ensures State() == ResetKeys(old(State())).(disabled := true)
    {
      listenersDisabled := true;
      ResetKeyStates();
    }

    /** `enable_all_listeners`. */
    method EnableAllListeners()
      requires Valid()
      modifies this
      ensures Valid()
      ensures State() == old(State()).(disabled := false)
    {
      listenersDisabled := false;
    }
  }

  // ---------------------------------------------------------------------
  // FnKeyListener
  // ---------------------------------------------------------------------

  /** `fn_press_time` is `None` or a time; a time of 0 is falsy in the
      `if self.fn_press_time` tests. */
  datatype FnKeys = FnKeys(fnPressed: bool, ctrlPressed: bool, fnPressTime: Option<real>, disabled: bool)

  /** Ctrl only counts while Fn is held; while the listeners are disabled,
      neither is considered held. */
  predicate FnInv(f: FnKeys) {
    && (f.ctrlPressed ==> f.fnPressed)
    && (f.disabled ==> !f.fnPressed && !f.ctrlPressed && f.fnPressTime.None?)
  }

  /** Whether Fn has been held for at least the delay at `now`. */
  predicate HeldLongEnough(f: FnKeys, now: real) {
    f.fnPressTime.Some? && f.fnPressTime.value != 0.0 && now - f.fnPressTime.value >= FnDelay
  }

  /** One flags-changed event of `event_callback`: Fn and Ctrl as reported
      by the event, at time `now`. */
  function FnEvent(f: FnKeys, t: Rec, fnNow: bool, ctrlNow: bool, now: real): (FnKeys, Rec) {
    if t.meetingMode then (f, t)
    else if fnNow && !f.fnPressed then
      if f.disabled then (f, t)
      else
        var f1 := f.(fnPressed := true, fnPressTime := Some(now));
        if ctrlNow && !t.rec then (f1.(ctrlPressed := true), StartRecSpec(t.(mode := Command)))
        else (f1, t)
    else if fnNow && ctrlNow && f.fnPressed && !f.ctrlPressed && !t.rec then
      if f.disabled then (f, t)
      else (f.(ctrlPressed := true), StartRecSpec(t.(mode := Command)))
    else if fnNow && !ctrlNow && f.fnPressed && !f.ctrlPressed && !t.rec then
      if HeldLongEnough(f, now) && !f.disabled then (f, StartRecSpec(t.(mode := Dictation)))
      else (f, t)
    else if !fnNow && f.fnPressed then
      var f1 := f.(fnPressed := false, ctrlPressed := false, fnPressTime := None);
      (f1, if !f.disabled && t.rec then StopRecSpec(t) else t)
    else if !ctrlNow && f.ctrlPressed && t.rec && t.mode == Command then
      var f1 := f.(fnPressed := false, ctrlPressed := false, fnPressTime := None);
      (f1, if !f.disabled then StopRecSpec(t) else t)
    else (f, t)
  }

  /** The delayed dictation trigger of the run loop. */
  function FnDelayed(f: FnKeys, t: Rec, now: real): Rec {
    if f.fnPressed && !f.ctrlPressed && !t.rec && HeldLongEnough(f, now) then StartRecSpec(t.(mode := Dictation))
    else t
  }

  /** The Fn listener keeps `FnInv`; while disabled it starts and stops
      nothing, neither from an event nor from the delayed trigger. Meeting
      mode makes every event a no-op. */
  lemma FnInvPreserved(f: FnKeys, t: Rec, fnNow: bool, ctrlNow: bool, now: real)
    requires FnInv(f)
    ensures FnInv(FnEvent(f, t, fnNow, ctrlNow, now).0)
    ensures f.disabled ==> FnEvent(f, t, fnNow, ctrlNow, now) == (f, t) && FnDelayed(f, t, now) == t
    ensures t.meetingMode ==> FnEvent(f, t, fnNow, ctrlNow, now) == (f, t)
  {
  }

  /** An event starts command mode exactly when Ctrl is down with Fn held
      or pressed, nothing records and the listener is enabled; any start it
      makes is in command or dictation mode and appends one call. */
  lemma FnEventStarts(f: FnKeys, t: Rec, fnNow: bool, ctrlNow: bool, now: real)
    requires FnInv(f) && !t.meetingMode
    ensures var (f2, t2) := FnEvent(f, t, fnNow, ctrlNow, now);
      && (t2 == StartRecSpec(t.(mode := Command)) <==>
          fnNow && ctrlNow && !t.rec && !f.disabled && !f.ctrlPressed)
      && (t2 == t || t2 == StopRecSpec(t) || t2 == StartRecSpec(t.(mode := Command))
          || t2 == StartRecSpec(t.(mode := Dictation)))
      && (!fnNow ==> !f2.fnPressed)
  {
  }

  class FnKeyListener {
    var fnPressed: bool
    var ctrlPressed: bool
    var fnPressTime: Option<real>
    var listenersDisabled: bool
    const transcriber: Transcriber

    function State(): FnKeys
      reads this
    {
      FnKeys(fnPressed, ctrlPressed, fnPressTime, listenersDisabled)
    }

    ghost predicate Valid()
      reads this
    {
      FnInv(State())
    }

    constructor (transcriber: Transcriber)
      ensures Valid()
      ensures State() == FnKeys(false, false, None, false) && this.transcriber == transcriber
    {
      fnPressed, ctrlPressed := false, false;
      fnPressTime := None;
      listenersDisabled := false;
      this.transcriber := transcriber;
    }

    /** The flags-changed branch of `event_callback`. */
    method EventCallback(fnNow: bool, ctrlNow: bool, now: real)
      requires Valid()
      modifies this, transcriber
      ensures Valid()
      ensures (State(), transcriber.State()) == FnEvent(old(State()), old(transcriber.State()), fnNow, ctrlNow, now)
    {
      if transcriber.meetingMode {
        return;
      }
      if fnNow && !fnPressed {
        if listenersDisabled {
          return;
        }
        fnPressed := true;
        fnPressTime := Some(now);
        if ctrlNow && !transcriber.rec {
          ctrlPressed := true;
          transcriber.mode := Command;
          transcriber.StartRecording();
        }
      } else if fnNow && ctrlNow && fnPressed && !ctrlPressed && !transcriber.rec {
        if listenersDisabled {
          return;
        }
        ctrlPressed := true;
        transcriber.mode := Command;
        transcriber.StartRecording();
      } else if fnNow && !ctrlNow && fnPressed && !ctrlPressed && !transcriber.rec {
        if fnPressTime.Some? && fnPressTime.value != 0.0 && now - fnPressTime.value >= FnDelay {
          if listenersDisabled {
            return;
          }
          transcriber.mode := Dictation;
          transcriber.StartRecording();
        }
      } else if !fnNow && fnPressed {
        fnPressed, ctrlPressed := false, false;
        fnPressTime := None;
        if !listenersDisabled && transcriber.rec {
          transcriber.StopRecording();
        }
      } else if !ctrlNow && ctrlPressed && transcriber.rec && transcriber.mode == Command {
        fnPressed, ctrlPressed := false, false;
        fnPressTime := None;
        if !listenersDisabled {
          transcriber.StopRecording();
        }
      }
    }

    /** The delayed dictation check in the run loop. */
    method DelayedTrigger(now: real)
      modifies transcriber
      ensures transcriber.State() == FnDelayed(State(), old(transcriber.State()), now)
    {
      if fnPressed && !ctrlPressed && !transcriber.rec && fnPressTime.Some? && fnPressTime.value != 0.0
        && now - fnPressTime.value >= FnDelay
      {
        transcriber.mode := Dictation;
        transcriber.StartRecording();
      }
    }

    /** `disable_all_listeners`. */
    method DisableAllListeners()
      modifies this
      ensures Valid()
      ensures State() == FnKeys(false, false, None, true)
    {
      listenersDisabled := true;
      fnPressed, ctrlPressed := false, false;
      fnPressTime := None;
    }

    /** `enable_all_listeners`. */
    method EnableAllListeners()
      requires Valid()
      modifies this
      ensures Valid()
      ensures State() == old(State()).(disabled := false)
    {
      listenersDisabled := false;
    }
  }
}

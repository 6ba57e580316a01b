/**
 * Carrying out a macro: a command macro is handed to the shell, the others
 * drive the virtual keyboard with the macro's action string.
 *
 * Whether the shell could be started is an input (`spawned`); the command
 * itself runs detached and emits no key events.
 */
module Macros {
  import opened Common
  import opened Sink
  import opened Keyboard
  import opened Config

  /** The key events a macro is meant to emit. */
  function MacroEvents(m: Macro): seq<InputEvent> {
    match m.hotkeyType
    case Run => []
    case Shortcut => ShortcutEvents(m.action)
    case Typeout => TypeoutEvents(m.action)
    case Uinput => UinputEvents(m.action)
    case Sequence => SequenceEvents(m.action)
    case Nothing => []
  }

  /** A raw key name ("KEY_F13"): a click of that key when it is known, nothing otherwise. */
  function UinputEvents(name: string): (r: seq<InputEvent>)
    ensures ParseKey(name).None? ==> r == []
    ensures ParseKey(name).Some? ==> KeyDowns(r) == [ParseKey(name).value] && KeyUps(r) == [ParseKey(name).value]
  {
    match ParseKey(name)
    case None => []
    case Some(key) =>
      PressReleaseKeys(key);
      KeyDownsAppend(PressEvents(key), ReleaseEvents(key));
      KeyUpsAppend(PressEvents(key), ReleaseEvents(key));
      ClickEvents(key)
  }

  /** Whatever its kind, a macro that runs to the end leaves no key held down. */
  lemma MacroBalanced(m: Macro)
    ensures Balanced(MacroEvents(m))
  {
    match m.hotkeyType
    case Run =>
    case Shortcut =>
      ShortcutBalanced(m.action);
    case Typeout =>
      TypeoutBalanced(m.action, CharMap);
    case Uinput =>
    case Sequence =>
      SequenceBalanced(m.action);
    case Nothing =>
  }

  /** Macros that never touch the keyboard cannot fail on it: inert macros and unknown raw key names. */
  lemma QuietMacrosSucceed(m: Macro, outcomes: seq<bool>)
    requires m.hotkeyType == Nothing || m.hotkeyType == Run || (m.hotkeyType == Uinput && ParseKey(m.action).None?)
    ensures MacroEvents(m) == []
    ensures Sink.Run(MacroEvents(m), outcomes) == Outcome([], true, outcomes)
  {
  }

  /** Executes macros on one virtual keyboard. */
  class MacroExecutor {
    const keyboard: VirtualKeyboard

    constructor(keyboard: VirtualKeyboard)
      ensures this.keyboard == keyboard
    {
      this.keyboard := keyboard;
    }

    /**
     * Execute `m`. The keyboard receives the macro's events up to the first
     * failed write; the result is an error exactly when a write failed or,
     * for a command macro, the shell could not be started.
     */
    method Execute(m: Macro, spawned: bool) returns (ok: bool)
      modifies keyboard
      ensures m.hotkeyType != Run ==>
        Wrote(MacroEvents(m), old(keyboard.trace), old(keyboard.outcomes), keyboard.trace, keyboard.outcomes, ok)
      ensures m.hotkeyType == Run ==> ok == spawned && unchanged(keyboard)
    {
      match m.hotkeyType {
        case Run =>
          ok := spawned;
        case Shortcut =>
          ok := keyboard.Shortcut(m.action);
        case Typeout =>
          ok := keyboard.Typeout(m.action);
        case Uinput =>
          ok := EmitUinputKey(m.action);
        case Sequence =>
          ok := keyboard.Sequence(m.action);
        case Nothing =>
          ok := true;
      }
    }

    /** Click the key named `name`; an unknown name is only logged and is not an error. */
    method EmitUinputKey(name: string) returns (ok: bool)
      modifies keyboard
      ensures Wrote(UinputEvents(name), old(keyboard.trace), old(keyboard.outcomes), keyboard.trace, keyboard.outcomes, ok)
      ensures ParseKey(name).None? ==> ok && unchanged(keyboard)
    {
      match ParseKey(name) {
        case Some(key) =>
          ok := keyboard.Click(key);
        case None =>
          ok := true;
      }
    }
  }
}

/**
 * The command dispatchers behind the `/mouse` and `/keyboard` endpoints.
 * A command is an action name plus a parameter bag; dispatching it either
 * rejects it or makes a fixed sequence of calls into the injection
 * capability, which is modelled as a cursor position and a log of calls.
 */
module Dispatch {

  import opened Optional
  import opened KeyTranslation
  import opened InputEvents

  /**
   * The `data` bag of a command, one field per name the dispatchers read.
   * An absent field (or an absent bag) takes the default the dispatcher
   * gives it: 0 for `dx`/`dy`, "" for `text` and `key`, [] for `keys`,
   * false for the modifier flags.
   */
  datatype Params = Params(
    dx: Option<int>, dy: Option<int>,
    text: Option<string>,
    key: Option<string>, keys: Option<seq<string>>,
    shift: Option<bool>, ctrl: Option<bool>, alt: Option<bool>)

  /** The bag of a command that carries no `data`. */
  const NoParams: Params := Params(None, None, None, None, None, None, None, None)

  /** The rejections a dispatcher reports (all answered with HTTP 400). */
  datatype CommandError =
    | UnknownMouseAction(mouseAction: Option<string>)
    | UnknownKeyboardAction(keyboardAction: Option<string>)
    | NoKeyProvided
    | NoKeysProvided

  datatype Status = Success | Failure(error: CommandError)

  /** What a mouse command does: its status, the new cursor position and the calls made. */
  datatype MouseOutcome = MouseOutcome(status: Status, pos: Position, emitted: seq<Event>)

  /** What a keyboard command does: its status and the calls made. */
  datatype KeyboardOutcome = KeyboardOutcome(status: Status, emitted: seq<Event>)

  const MouseActions: set<string> :=
    {"move", "left_click", "right_click", "double_click",
     "scroll_up", "scroll_down", "drag_start", "drag_end"}

  const KeyboardActions: set<string> :=
    {"type", "key", "key_press", "key_combination", "key_hold_start", "key_hold_end"}

  /** The parameterless mouse actions, each with the one call it makes. */
  function ButtonCall(name: string): Option<Event> {
    match name
    case "left_click" => Some(Click(LeftButton, 1))
    case "right_click" => Some(Click(RightButton, 1))
    case "double_click" => Some(Click(LeftButton, 2))
    case "scroll_up" => Some(Scroll(0, 1))
    case "scroll_down" => Some(Scroll(0, -1))
    case "drag_start" => Some(ButtonDown(LeftButton))
    case "drag_end" => Some(ButtonUp(LeftButton))
    case _ => None
  }

  /**
   * The specification of a mouse command from cursor position `at`. Only a
   * move changes the position; every accepted command makes exactly one
   * call; a rejected one makes none and leaves the cursor where it was.
   */
  function MouseEffect(action: Option<string>, data: Params, at: Position): (o: MouseOutcome)
    ensures o.status.Success? <==> action.Some? && action.value in MouseActions
    ensures o.status.Success? ==> |o.emitted| == 1
    ensures o.status.Failure? ==> o.pos == at && o.emitted == []
    ensures action != Some("move") ==> o.pos == at
  {
    if action == Some("move") then
      var to := Position(at.x + data.dx.GetOr(0), at.y + data.dy.GetOr(0));
      MouseOutcome(Success, to, [MovedTo(to)])
    else if action.Some? && ButtonCall(action.value).Some? then
      MouseOutcome(Success, at, [ButtonCall(action.value).value])
    else
      MouseOutcome(Failure(UnknownMouseAction(action)), at, [])
  }

  /** Where a modifier stands in the fixed press order ctrl, alt, shift. */
  function ModifierRank(k: Key): int {
    match k
    case Named(Ctrl) => 0
    case Named(Alt) => 1
    case Named(Shift) => 2
    case _ => -1
  }

  /**
   * The modifier list of a `key` command: exactly the modifiers whose flag
   * is set, each once, in the order ctrl, alt, shift.
   */
  function Modifiers(ctrl: bool, alt: bool, shift: bool): (mods: seq<Key>)
    ensures Named(Ctrl) in mods <==> ctrl
    ensures Named(Alt) in mods <==> alt
    ensures Named(Shift) in mods <==> shift
    ensures forall i :: 0 <= i < |mods| ==> 0 <= ModifierRank(mods[i])
    ensures forall i, j :: 0 <= i < j < |mods| ==> ModifierRank(mods[i]) < ModifierRank(mods[j])
  {
    (if ctrl then [Named(Ctrl)] else [])
    + (if alt then [Named(Alt)] else [])
    + (if shift then [Named(Shift)] else [])
  }

  /** The modifier list built by appending ctrl, alt and shift in turn, as their flags say. */
  method BuildModifiers(ctrl: bool, alt: bool, shift: bool) returns (modifiers: seq<Key>)
    ensures modifiers == Modifiers(ctrl, alt, shift)
  {
    modifiers := [];
    if ctrl {
      modifiers := modifiers + [Named(Ctrl)];
    }
    if alt {
      modifiers := modifiers + [Named(Alt)];
    }
    if shift {
      modifiers := modifiers + [Named(Shift)];
    }
  }

  /** The modifier list of a command's flags, each defaulting to false. */
  function ModifiersOf(data: Params): seq<Key> {
    Modifiers(data.ctrl.GetOr(false), data.alt.GetOr(false), data.shift.GetOr(false))
  }

  /** The key identifier of a command, "" when absent. */
  function KeyField(data: Params): string {
    data.key.GetOr("")
  }

  /** Every identifier of a combination, translated. */
  function TranslateAll(names: seq<string>): seq<Key> {
    seq(|names|, i requires 0 <= i < |names| => Translate(names[i]))
  }

  /**
   * The specification of a keyboard command, with every multi-key sequence
   * given as a chord: `key` is the chord of the modifiers and the key,
   * `key_press` the chord of one key, `key_combination` the chord of its keys.
   * A rejected command makes no call.
   */
  function KeyboardEffect(action: Option<string>, data: Params): (o: KeyboardOutcome)
    ensures o.status.Failure? ==> o.emitted == []
  {
    if action == Some("type") then
      var text := data.text.GetOr("");
      KeyboardOutcome(Success, if text != "" then [TypeText(text)] else [])
    else if action == Some("key") then
      var name := KeyField(data);
      if name == "" then KeyboardOutcome(Failure(NoKeyProvided), [])
      else KeyboardOutcome(Success, Chord(ModifiersOf(data) + [Translate(name)]))
    else if action == Some("key_press") then
      var name := KeyField(data);
      KeyboardOutcome(Success, if name != "" then Chord([Translate(name)]) else [])
    else if action == Some("key_combination") then
      var names := data.keys.GetOr([]);
      if names == [] then KeyboardOutcome(Failure(NoKeysProvided), [])
      else KeyboardOutcome(Success, Chord(TranslateAll(names)))
    else if action == Some("key_hold_start") then
      var name := KeyField(data);
      KeyboardOutcome(Success, if name != "" then [KeyDown(Translate(name))] else [])
    else if action == Some("key_hold_end") then
      var name := KeyField(data);
      KeyboardOutcome(Success, if name != "" then [KeyUp(Translate(name))] else [])
    else
      KeyboardOutcome(Failure(UnknownKeyboardAction(action)), [])
  }

  /**
   * The mouse and keyboard controllers: the cursor position last written by
   * a move (nothing else changes it) and the calls made into the injection
   * capability so far.
   */
  class Controllers {
    var pos: Position
    var log: seq<Event>

    constructor (start: Position)
      ensures pos == start && log == []
    {
      pos := start;
      log := [];
    }

    /** Presses each key in order. */
    method PressAll(keys: seq<Key>)
      modifies this
      ensures pos == old(pos)
      ensures log == old(log) + Presses(keys)
    {
      var i := 0;
      while i < |keys|
        invariant 0 <= i <= |keys|
        invariant pos == old(pos)
        invariant log == old(log) + Presses(keys[..i])
      {
        assert Presses(keys[..i + 1]) == Presses(keys[..i]) + [KeyDown(keys[i])];
        log := log + [KeyDown(keys[i])];
        i := i + 1;
      }
      assert keys[..i] == keys;
    }

    /** Releases each key, last to first. */
    method ReleaseInReverse(keys: seq<Key>)
      modifies this
      ensures pos == old(pos)
      ensures log == old(log) + Releases(Reversed(keys))
    {
      var j := |keys|;
      while j > 0
        invariant 0 <= j <= |keys|
        invariant pos == old(pos)
        invariant log == old(log) + Releases(Reversed(keys[j..]))
      {
        j := j - 1;
        assert Reversed(keys[j..]) == Reversed(keys[j + 1..]) + [keys[j]];
        assert Releases(Reversed(keys[j..])) == Releases(Reversed(keys[j + 1..])) + [KeyUp(keys[j])];
        log := log + [KeyUp(keys[j])];
      }
      assert keys[j..] == keys;
    }

    /** `handle_mouse_command` once the request has been decoded. */
    method HandleMouseCommand(action: Option<string>, data: Params) returns (status: Status)
      modifies this
      ensures var o := MouseEffect(action, data, old(pos));
              status == o.status && pos == o.pos && log == old(log) + o.emitted
    {
      if action == Some("move") {
        var dx := data.dx.GetOr(0);
        var dy := data.dy.GetOr(0);
        var current := pos;
        var to := Position(current.x + dx, current.y + dy);
        pos := to;
        log := log + [MovedTo(to)];
      } else if action == Some("left_click") {
        log := log + [Click(LeftButton, 1)];
      } else if action == Some("right_click") {
        log := log + [Click(RightButton, 1)];
      } else if action == Some("double_click") {
        log := log + [Click(LeftButton, 2)];
      } else if action == Some("scroll_up") {
        log := log + [Scroll(0, 1)];
      } else if action == Some("scroll_down") {
        log := log + [Scroll(0, -1)];
      } else if action == Some("drag_start") {
        log := log + [ButtonDown(LeftButton)];
      } else if action == Some("drag_end") {
        log := log + [ButtonUp(LeftButton)];
      } else {
        return Failure(UnknownMouseAction(action));
      }
      return Success;
    }

    /** The `key` branch: the key tapped inside its modifiers. */
    method KeyWithModifiers(data: Params) returns (status: Status)
      modifies this
      ensures pos == old(pos)
      ensures var o := KeyboardEffect(Some("key"), data);
              status == o.status && log == old(log) + o.emitted
    {
      var keyName := data.key.GetOr("");
      var shift := data.shift.GetOr(false);
      var ctrl := data.ctrl.GetOr(false);
      var alt := data.alt.GetOr(false);
      if keyName == "" {
        return Failure(NoKeyProvided);
      }
      var modifiers := BuildModifiers(ctrl, alt, shift);
      var key := Translate(keyName);
      TapWithModifiers(modifiers, key);
      return Success;
    }

    /** Presses the modifiers, taps the key, and releases the modifiers in reverse. */
    method TapWithModifiers(modifiers: seq<Key>, key: Key)
      modifies this
      ensures pos == old(pos)
      ensures log == old(log) + Chord(modifiers + [key])
    {
      PressAll(modifiers);
      log := log + [KeyDown(key)];
      log := log + [KeyUp(key)];
      ReleaseInReverse(modifiers);
      TapWithModifiersIsChord(modifiers, key);
    }

    /** The `key_combination` branch: every key pressed in order, then released in reverse. */
    method KeyCombination(data: Params) returns (status: Status)
      modifies this
      ensures pos == old(pos)
      ensures var o := KeyboardEffect(Some("key_combination"), data);
              status == o.status && log == old(log) + o.emitted
    {
      var names := data.keys.GetOr([]);
      if names == [] {
        return Failure(NoKeysProvided);
      }
      var keyObjects := TranslateKeys(names);
      assert keyObjects == TranslateAll(names);
      PressAll(keyObjects);
      ReleaseInReverse(keyObjects);
      ChordIsPressThenRelease(keyObjects);
      return Success;
    }

    /** `handle_keyboard_command` once the request has been decoded. */
    method HandleKeyboardCommand(action: Option<string>, data: Params) returns (status: Status)
      modifies this
      ensures pos == old(pos)
      ensures var o := KeyboardEffect(action, data);
              status == o.status && log == old(log) + o.emitted
    {
      if action == Some("type") {
        var text := data.text.GetOr("");
        if text != "" {
          log := log + [TypeText(text)];
        }
      } else if action == Some("key") {
        status := KeyWithModifiers(data);
        return;
      } else if action == Some("key_press") {
        var keyName := data.key.GetOr("");
        if keyName != "" {
          var key := Translate(keyName);
          log := log + [KeyDown(key)];
          log := log + [KeyUp(key)];
        }
      } else if action == Some("key_combination") {
        status := KeyCombination(data);
        return;
      } else if action == Some("key_hold_start") {
        var keyName := data.key.GetOr("");
        if keyName != "" {
          var key := Translate(keyName);
          log := log + [KeyDown(key)];
        }
      } else if action == Some("key_hold_end") {
        var keyName := data.key.GetOr("");
        if keyName != "" {
          var key := Translate(keyName);
          log := log + [KeyUp(key)];
        }
      } else {
        return Failure(UnknownKeyboardAction(action));
      }
      return Success;
    }
  }
}

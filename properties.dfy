/**
 * What the dispatchers promise, stated over their specifications
 * `MouseEffect` and `KeyboardEffect` (which the controller methods are
 * proved to follow).
 */
module DispatchProperties {

  import opened Optional
  import opened KeyTranslation
  import opened InputEvents
  import opened Dispatch

  // ---------------------------------------------------------------- mouse

  /**
   * A move reads the position, adds the deltas (an absent delta counts as
   * 0) and writes the sum back, unclamped, as its only call.
   */
  lemma MoveAddsDeltas(data: Params, at: Position)
    ensures var o := MouseEffect(Some("move"), data, at);
            && o.status == Success
            && o.pos.x - at.x == data.dx.GetOr(0)
            && o.pos.y - at.y == data.dy.GetOr(0)
            && o.emitted == [MovedTo(o.pos)]
  {
  }

  /** A move from (100, 200) by (10, -5) sets the cursor to (110, 195). */
  lemma MoveExample()
    ensures var data := NoParams.(dx := Some(10), dy := Some(-5));
            var o := MouseEffect(Some("move"), data, Position(100, 200));
            o.pos == Position(110, 195) && o.emitted == [MovedTo(Position(110, 195))]
  {
  }

  /** Each parameterless mouse action makes its one call and leaves the cursor alone. */
  lemma ButtonActionCalls(data: Params, at: Position)
    ensures MouseEffect(Some("left_click"), data, at) == MouseOutcome(Success, at, [Click(LeftButton, 1)])
    ensures MouseEffect(Some("right_click"), data, at) == MouseOutcome(Success, at, [Click(RightButton, 1)])
    ensures MouseEffect(Some("double_click"), data, at) == MouseOutcome(Success, at, [Click(LeftButton, 2)])
    ensures MouseEffect(Some("scroll_up"), data, at) == MouseOutcome(Success, at, [Scroll(0, 1)])
    ensures MouseEffect(Some("scroll_down"), data, at) == MouseOutcome(Success, at, [Scroll(0, -1)])
    ensures MouseEffect(Some("drag_start"), data, at) == MouseOutcome(Success, at, [ButtonDown(LeftButton)])
    ensures MouseEffect(Some("drag_end"), data, at) == MouseOutcome(Success, at, [ButtonUp(LeftButton)])
  {
  }

  /** An unknown or missing mouse action is rejected, with no call and no movement. */
  lemma UnknownMouseActionRejected(action: Option<string>, data: Params, at: Position)
    requires action.None? || action.value !in MouseActions
    ensures MouseEffect(action, data, at) == MouseOutcome(Failure(UnknownMouseAction(action)), at, [])
  {
  }

  // ------------------------------------------------------------- keyboard

  /** `key` with a key is the chord of the modifiers and the translated key. */
  lemma KeyEffect(data: Params)
    requires KeyField(data) != ""
    ensures KeyboardEffect(Some("key"), data)
            == KeyboardOutcome(Success, Chord(ModifiersOf(data) + [Translate(KeyField(data))]))
  {
  }

  /**
   * `key` with a key: the set modifiers are pressed in the order ctrl, alt,
   * shift, then the key is pressed and released, then the modifiers are
   * released in reverse; 2m + 2 calls, and every key pressed is released,
   * last pressed first.
   */
  lemma KeyWithModifiersOrder(data: Params, held: seq<Key>)
    requires KeyField(data) != ""
    ensures var mods, k := ModifiersOf(data), Translate(KeyField(data));
            var o := KeyboardEffect(Some("key"), data);
            && o.status == Success
            && o.emitted == Presses(mods) + [KeyDown(k), KeyUp(k)] + Releases(Reversed(mods))
            && |o.emitted| == 2 * |mods| + 2
            && PressedKeys(o.emitted) == mods + [k]
            && ReleasedKeys(o.emitted) == [k] + Reversed(mods)
            && Replay(held, o.emitted) == Some(held)
  {
    KeyEffect(data);
    ChordWithLastKey(ModifiersOf(data), Translate(KeyField(data)), held);
  }

  /** `key` with ctrl and shift on "a": exactly six calls, in this order. */
  lemma CtrlShiftAExample()
    ensures var data := NoParams.(key := Some("a"), ctrl := Some(true), shift := Some(true));
            KeyboardEffect(Some("key"), data).emitted ==
              [KeyDown(Named(Ctrl)), KeyDown(Named(Shift)), KeyDown(Char("a")),
               KeyUp(Char("a")), KeyUp(Named(Shift)), KeyUp(Named(Ctrl))]
  {
    var data := NoParams.(key := Some("a"), ctrl := Some(true), shift := Some(true));
    assert Translate("a") == Char("a");
    assert ModifiersOf(data) == [Named(Ctrl), Named(Shift)];
    KeyWithModifiersOrder(data, []);
  }

  /** `key_combination` with keys is the chord of the translated keys. */
  lemma CombinationEffect(data: Params)
    requires data.keys.GetOr([]) != []
    ensures KeyboardEffect(Some("key_combination"), data)
            == KeyboardOutcome(Success, Chord(TranslateAll(data.keys.GetOr([]))))
  {
  }

  /**
   * `key_combination` with keys: presses them all in order, then releases
   * them all in reverse; 2n calls, leaving no key held.
   */
  lemma CombinationOrder(data: Params, held: seq<Key>)
    requires data.keys.GetOr([]) != []
    ensures var ks := TranslateAll(data.keys.GetOr([]));
            var o := KeyboardEffect(Some("key_combination"), data);
            && o.status == Success
            && o.emitted == Presses(ks) + Releases(Reversed(ks))
            && |o.emitted| == 2 * |data.keys.GetOr([])|
            && PressedKeys(o.emitted) == ks
            && ReleasedKeys(o.emitted) == Reversed(ks)
            && Replay(held, o.emitted) == Some(held)
  {
    var ks := TranslateAll(data.keys.GetOr([]));
    CombinationEffect(data);
    ChordIsPressThenRelease(ks);
    ChordOrder(ks);
    ChordReleasesAll(held, ks);
  }

  /** The identifiers ctrl, alt and delete translate to their named keys. */
  lemma CtrlAltDeleteKeys(names: seq<string>)
    requires names == ["ctrl", "alt", "delete"]
    ensures TranslateAll(names) == [Named(Ctrl), Named(Alt), Named(Delete)]
  {
    assert Translate("ctrl") == Named(Ctrl);
    assert Translate("alt") == Named(Alt);
    assert Translate("delete") == Named(Delete);
    assert TranslateAll(names) == [Translate("ctrl"), Translate("alt"), Translate("delete")];
  }

  /** `key_combination` of ctrl, alt, delete: six calls, released in exact reverse. */
  lemma CtrlAltDeleteExample(data: Params)
    requires data.keys == Some(["ctrl", "alt", "delete"])
    ensures KeyboardEffect(Some("key_combination"), data).emitted ==
              [KeyDown(Named(Ctrl)), KeyDown(Named(Alt)), KeyDown(Named(Delete)),
               KeyUp(Named(Delete)), KeyUp(Named(Alt)), KeyUp(Named(Ctrl))]
  {
    var ks := [Named(Ctrl), Named(Alt), Named(Delete)];
    CombinationEffect(data);
    CtrlAltDeleteKeys(data.keys.value);
    ChordIsPressThenRelease(ks);
    assert Reversed(ks) == [Named(Delete), Named(Alt), Named(Ctrl)];
  }

  /**
   * A keyboard command is rejected exactly when its action is unknown or
   * missing, when `key` has no key, or when `key_combination` has no keys.
   */
  lemma KeyboardRejections(action: Option<string>, data: Params)
    ensures KeyboardEffect(action, data).status.Failure? <==>
              || action.None? || action.value !in KeyboardActions
              || (action == Some("key") && KeyField(data) == "")
              || (action == Some("key_combination") && data.keys.GetOr([]) == [])
  {
  }

  /** A `key` without a key, and a combination without keys, are rejected with no call. */
  lemma MissingKeysRejected(data: Params)
    ensures KeyField(data) == "" ==>
              KeyboardEffect(Some("key"), data) == KeyboardOutcome(Failure(NoKeyProvided), [])
    ensures data.keys.GetOr([]) == [] ==>
              KeyboardEffect(Some("key_combination"), data) == KeyboardOutcome(Failure(NoKeysProvided), [])
  {
  }

  /** An unknown or missing keyboard action is rejected with no call. */
  lemma UnknownKeyboardActionRejected(action: Option<string>, data: Params)
    requires action.None? || action.value !in KeyboardActions
    ensures KeyboardEffect(action, data) == KeyboardOutcome(Failure(UnknownKeyboardAction(action)), [])
  {
  }

  /** Empty text, and a tap, hold or release without a key, succeed and make no call. */
  lemma EmptyInputIsNoOp(data: Params)
    ensures data.text.GetOr("") == "" ==> KeyboardEffect(Some("type"), data) == KeyboardOutcome(Success, [])
    ensures KeyField(data) == "" ==>
              && KeyboardEffect(Some("key_press"), data) == KeyboardOutcome(Success, [])
              && KeyboardEffect(Some("key_hold_start"), data) == KeyboardOutcome(Success, [])
              && KeyboardEffect(Some("key_hold_end"), data) == KeyboardOutcome(Success, [])
  {
  }

  /**
   * With non-empty input: `type` is one text call, `key_press` a press and
   * release of the key, `key_hold_start` a lone press, `key_hold_end` a lone release.
   */
  lemma SingleKeyActions(data: Params)
    ensures data.text.GetOr("") != "" ==>
              KeyboardEffect(Some("type"), data) == KeyboardOutcome(Success, [TypeText(data.text.GetOr(""))])
    ensures KeyField(data) != "" ==>
              var k := Translate(KeyField(data));
              && KeyboardEffect(Some("key_press"), data) == KeyboardOutcome(Success, [KeyDown(k), KeyUp(k)])
              && KeyboardEffect(Some("key_hold_start"), data) == KeyboardOutcome(Success, [KeyDown(k)])
              && KeyboardEffect(Some("key_hold_end"), data) == KeyboardOutcome(Success, [KeyUp(k)])
  {
    if KeyField(data) != "" {
      var k := Translate(KeyField(data));
      assert Chord([k]) == [KeyDown(k)] + Chord([]) + [KeyUp(k)];
    }
  }

  /** `key_press` of "F5": the lookup is case-sensitive, so the tap is of the character token "F5". */
  lemma KeyPressF5Example()
    ensures KeyboardEffect(Some("key_press"), NoParams.(key := Some("F5"))) ==
            KeyboardOutcome(Success, [KeyDown(Char("F5")), KeyUp(Char("F5"))])
  {
    CaseSensitiveLookup("F5");
    SingleKeyActions(NoParams.(key := Some("F5")));
  }

  /**
   * Every keyboard command except the hold commands releases every key it
   * presses, last pressed first, so it leaves the held keys as it found them.
   */
  lemma KeyboardLeavesNoKeyHeld(action: Option<string>, data: Params, held: seq<Key>)
    requires action != Some("key_hold_start") && action != Some("key_hold_end")
    ensures Replay(held, KeyboardEffect(action, data).emitted) == Some(held)
  {
    var o := KeyboardEffect(action, data);
    if action == Some("type") {
      if o.emitted != [] {
        assert o.emitted[1..] == [];
      }
    } else if action == Some("key") {
      if KeyField(data) != "" {
        KeyWithModifiersOrder(data, held);
      }
    } else if action == Some("key_press") {
      if KeyField(data) != "" {
        ChordReleasesAll(held, [Translate(KeyField(data))]);
      }
    } else if action == Some("key_combination") {
      if data.keys.GetOr([]) != [] {
        CombinationOrder(data, held);
      }
    }
  }

  /**
   * A hold and a later release of the same key identifier, sent as two
   * commands, leave the held keys as they were.
   */
  lemma HoldThenReleaseBalances(data: Params, held: seq<Key>)
    ensures Replay(held, KeyboardEffect(Some("key_hold_start"), data).emitted
                         + KeyboardEffect(Some("key_hold_end"), data).emitted) == Some(held)
  {
    if KeyField(data) != "" {
      var k := Translate(KeyField(data));
      SingleKeyActions(data);
      assert Chord([k]) == [KeyDown(k)] + Chord([]) + [KeyUp(k)];
      ChordReleasesAll(held, [k]);
    }
  }
}

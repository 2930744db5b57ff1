/**
 * The calls a command makes into the input-injection capability, and the
 * shape of press/release sequences: pressing keys in order and releasing
 * them in reverse.
 */
module InputEvents {

  import opened Optional
  import opened KeyTranslation

  /** A cursor position; unbounded, since a move is never clamped to the screen. */
  datatype Position = Position(x: int, y: int)

  datatype Button = LeftButton | RightButton

  /** One call into the mouse or keyboard injection capability. */
  datatype Event =
    | MovedTo(to: Position)               // assigning the cursor position
    | Click(button: Button, count: nat)
    | Scroll(dx: int, dy: int)
    | ButtonDown(button: Button)
    | ButtonUp(button: Button)
    | KeyDown(key: Key)
    | KeyUp(key: Key)
    | TypeText(text: string)

  /** A press of each key, in the given order. */
  function Presses(keys: seq<Key>): seq<Event> {
    seq(|keys|, i requires 0 <= i < |keys| => KeyDown(keys[i]))
  }

  /** A release of each key, in the given order. */
  function Releases(keys: seq<Key>): seq<Event> {
    seq(|keys|, i requires 0 <= i < |keys| => KeyUp(keys[i]))
  }

  /** Python's `reversed(...)`, materialised. */
  function Reversed<T>(s: seq<T>): seq<T> {
    seq(|s|, i requires 0 <= i < |s| => s[|s| - 1 - i])
  }

  /**
   * The reference form of a chord: the first key's press and release
   * bracket the chord of the remaining keys, so every key is released
   * after every key pressed after it.
   */
  function Chord(keys: seq<Key>): (evs: seq<Event>)
    ensures |evs| == 2 * |keys|
  {
    if keys == [] then []
    else [KeyDown(keys[0])] + Chord(keys[1..]) + [KeyUp(keys[0])]
  }

  /** The keys pressed by a run of events, in order. */
  function PressedKeys(evs: seq<Event>): seq<Key> {
    if evs == [] then []
    else (if evs[0].KeyDown? then [evs[0].key] else []) + PressedKeys(evs[1..])
  }

  /** The keys released by a run of events, in order. */
  function ReleasedKeys(evs: seq<Event>): seq<Key> {
    if evs == [] then []
    else (if evs[0].KeyUp? then [evs[0].key] else []) + ReleasedKeys(evs[1..])
  }

  /**
   * Replays events against the stack of keys held down: a press pushes its
   * key; a release must release the most recently pressed key still held,
   * and `None` records one that does not. Mouse and text events leave the
   * stack alone.
   */
  function Replay(held: seq<Key>, evs: seq<Event>): Option<seq<Key>>
    decreases |evs|
  {
    if evs == [] then Some(held)
    else match evs[0]
      case KeyDown(k) => Replay(held + [k], evs[1..])
      case KeyUp(k) =>
        if held != [] && held[|held| - 1] == k then Replay(held[..|held| - 1], evs[1..])
        else None
      case _ => Replay(held, evs[1..])
  }

  /** Replaying two runs one after the other is replaying their concatenation. */
  lemma {:induction false} ReplayAppend(held: seq<Key>, a: seq<Event>, b: seq<Event>)
    ensures Replay(held, a + b) ==
            match Replay(held, a)
            case None => None
            case Some(h) => Replay(h, b)
    decreases |a|
  {
    if a != [] {
      assert (a + b)[0] == a[0];
      assert (a + b)[1..] == a[1..] + b;
      match a[0]
      case KeyDown(k) => ReplayAppend(held + [k], a[1..], b);
      case KeyUp(k) =>
        if held != [] && held[|held| - 1] == k {
          ReplayAppend(held[..|held| - 1], a[1..], b);
        }
      case _ => ReplayAppend(held, a[1..], b);
    } else {
      assert a + b == b;
    }
  }

  /** A chord leaves exactly the keys that were held before it held: nothing stays pressed. */
  lemma {:induction false} ChordReleasesAll(held: seq<Key>, keys: seq<Key>)
    ensures Replay(held, Chord(keys)) == Some(held)
    decreases |keys|
  {
    if keys != [] {
      var k := keys[0];
      var inner := Chord(keys[1..]);
      assert Chord(keys) == [KeyDown(k)] + (inner + [KeyUp(k)]);
      ReplayAppend(held, [KeyDown(k)], inner + [KeyUp(k)]);
      assert Replay(held + [k], []) == Some(held + [k]);
      assert [KeyDown(k)][1..] == [];
      ChordReleasesAll(held + [k], keys[1..]);
      ReplayAppend(held + [k], inner, [KeyUp(k)]);
      assert (held + [k])[..|held|] == held;
      assert [KeyUp(k)][1..] == [];
    }
  }

  /** A chord is all the presses in order followed by all the releases in reverse. */
  lemma {:induction false} ChordIsPressThenRelease(keys: seq<Key>)
    ensures Chord(keys) == Presses(keys) + Releases(Reversed(keys))
    decreases |keys|
  {
    if keys != [] {
      var k, rest := keys[0], keys[1..];
      ChordIsPressThenRelease(rest);
      assert Presses(keys) == [KeyDown(k)] + Presses(rest);
      assert Reversed(keys) == Reversed(rest) + [k];
      assert Releases(Reversed(keys)) == Releases(Reversed(rest)) + [KeyUp(k)];
    }
  }

  lemma {:induction false} PressedKeysAppend(a: seq<Event>, b: seq<Event>)
    ensures PressedKeys(a + b) == PressedKeys(a) + PressedKeys(b)
    decreases |a|
  {
    if a == [] {
      assert a + b == b;
    } else {
      assert (a + b)[0] == a[0];
      assert (a + b)[1..] == a[1..] + b;
      PressedKeysAppend(a[1..], b);
    }
  }

  lemma {:induction false} ReleasedKeysAppend(a: seq<Event>, b: seq<Event>)
    ensures ReleasedKeys(a + b) == ReleasedKeys(a) + ReleasedKeys(b)
    decreases |a|
  {
    if a == [] {
      assert a + b == b;
    } else {
      assert (a + b)[0] == a[0];
      assert (a + b)[1..] == a[1..] + b;
      ReleasedKeysAppend(a[1..], b);
    }
  }

  /**
   * A chord presses exactly its keys, each once and in the given order, and
   * releases exactly the same keys in the reverse order.
   */
  lemma {:induction false} ChordOrder(keys: seq<Key>)
    ensures PressedKeys(Chord(keys)) == keys
    ensures ReleasedKeys(Chord(keys)) == Reversed(keys)
    decreases |keys|
  {
    if keys != [] {
      var k, rest := keys[0], keys[1..];
      ChordOrder(rest);
      PressedKeysAppend([KeyDown(k)], Chord(rest));
      PressedKeysAppend([KeyDown(k)] + Chord(rest), [KeyUp(k)]);
      ReleasedKeysAppend([KeyDown(k)], Chord(rest));
      ReleasedKeysAppend([KeyDown(k)] + Chord(rest), [KeyUp(k)]);
      assert PressedKeys([KeyDown(k)]) == [k];
      assert ReleasedKeys([KeyDown(k)]) == [];
      assert PressedKeys([KeyUp(k)]) == [];
      assert ReleasedKeys([KeyUp(k)]) == [k];
      assert keys == [k] + rest;
      assert Reversed(keys) == Reversed(rest) + [k];
    }
  }

  /** Pressing some keys, tapping one more, then releasing the first ones in reverse is their chord. */
  lemma {:induction false} TapWithModifiersIsChord(mods: seq<Key>, k: Key)
    ensures Presses(mods) + [KeyDown(k), KeyUp(k)] + Releases(Reversed(mods)) == Chord(mods + [k])
  {
    var keys := mods + [k];
    ChordIsPressThenRelease(keys);
    assert Presses(keys) == Presses(mods) + [KeyDown(k)];
    assert Reversed(keys) == [k] + Reversed(mods);
    assert Releases(Reversed(keys)) == [KeyUp(k)] + Releases(Reversed(mods));
  }

  /**
   * The chord of some keys followed by one more: presses in order, the last
   * key tapped, releases in reverse, and nothing left held.
   */
  lemma ChordWithLastKey(mods: seq<Key>, k: Key, held: seq<Key>)
    ensures var evs := Chord(mods + [k]);
            && evs == Presses(mods) + [KeyDown(k), KeyUp(k)] + Releases(Reversed(mods))
            && PressedKeys(evs) == mods + [k]
            && ReleasedKeys(evs) == [k] + Reversed(mods)
            && Replay(held, evs) == Some(held)
  {
    TapWithModifiersIsChord(mods, k);
    ChordOrder(mods + [k]);
    assert Reversed(mods + [k]) == [k] + Reversed(mods);
    ChordReleasesAll(held, mods + [k]);
  }
}

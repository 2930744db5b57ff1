# Mouse and keyboard command dispatch, modelled in Dafny

The server lets a phone drive a PC's mouse and keyboard. It receives JSON
commands over HTTP, each an `action` name plus a `data` bag of
parameters. A dispatcher validates each command and turns it into a fixed
sequence of calls into the operating system's input-injection capability
(the pynput mouse and keyboard controllers). This project models that
dispatch layer of `server-side/mouse_server.py`:

- **the key-name translator** `get_key_from_string` (`keys.dfy`, module
  `KeyTranslation`). It is a pure, total function from a key identifier to a
  key token. Identifiers ending in `_arrow` become arrow keys, names in the
  fixed special table become named keys, and anything else becomes a
  character token. The `_arrow` marker and its removal, which behaves like
  Python's `str.replace`, are in `markers.dfy` (module `ArrowMarkers`);
- **the mouse and keyboard dispatchers**, the bodies of `handle_mouse_command`
  and `handle_keyboard_command` (`dispatch.dfy`, module `Dispatch`). The
  controllers are a class `Controllers` holding the cursor position `pos`
  and a `log` of the injection calls made so far. Each dispatcher is a method
  proved to follow a specification function (`MouseEffect`,
  `KeyboardEffect`) that gives the status, the new position and the calls
  appended. The keyboard dispatcher presses and releases keys with loops,
  as the code does;
- **press/release shapes** (`events.dfy`, module `InputEvents`). A chord is
  defined independently by bracketing: the first key's press and release
  enclose the chord of the rest. This definition is proved equal to "all
  presses in order, then all releases in reverse". It presses and releases
  each key exactly once, and replaying it against a stack of held keys
  leaves the stack as it was (`Replay`);
- **the properties the dispatchers promise** (`properties.dfy`, module
  `DispatchProperties`), stated over the two specification functions.

`optional.dfy` holds the `Option` type used for absent request fields.

Four behaviours of this code are kept as written, though a reader might
expect otherwise:

- The special-key lookup is exact and case-sensitive. Only the listed
  capitalised spellings `BackSpace`, `Tab` and `Escape` are special, so
  `Return`, `Enter` and `F5` become character tokens. This holds even
  though the comment beside the `return` entry (line 54) mentions a client
  sending `Return`.
- An identifier that is not special becomes a character token whatever its
  length. Translation never fails on a string; an identifier that is not
  a string is outside the model (see "Left out").
- An arrow identifier with an unknown direction gives the up arrow.
- The `_arrow` marker is removed everywhere in the identifier, not only at
  its end, as Python's `str.replace` does.

## Model

| member | source | states |
|---|---|---|
| KeyTranslation.Translate | server-side/mouse_server.py:39-87 | An identifier ending in `_arrow` gives an arrow key. A character token is produced exactly when the identifier is neither an arrow name nor in the special table, and it carries the identifier unchanged. |
| ArrowMarkers.RemoveArrowMarkers | server-side/mouse_server.py:43 | Removing the markers never lengthens the identifier, and it leaves the identifier unchanged when the length is unchanged. |
| KeyTranslation.ArrowFor | server-side/mouse_server.py:44-50 | Every direction, known or not, gives one of the four arrow keys. |
| KeyTranslation.TranslateKeys | server-side/mouse_server.py:227 | The list of translated keys has one entry per identifier, and entry i is the translation of identifier i. |
| KeyTranslation.KeyNameInTable | server-side/mouse_server.py:53-80 | The special table holds the lower-case name of each of the 31 named keys and maps it to that key. |
| KeyTranslation.KeyNameNotArrow | server-side/mouse_server.py:42 | No lower-case key name ends in the arrow marker, so none takes the arrow branch. |
| KeyTranslation.KeyNameRoundTrip | server-side/mouse_server.py:53-84 | Every named key is reachable: translating its lower-case name gives it back. |
| ArrowMarkers.RemoveArrowMarkersNoMarker | server-side/mouse_server.py:43 | Marker removal leaves an identifier holding no marker unchanged. |
| ArrowMarkers.MarkerSplits | server-side/mouse_server.py:43 | Removing markers from `a + "_arrow" + b` gives the removal from `a` followed by the removal from `b`. Every marker is stripped wherever it stands, and text on either side of one never merges into another. |
| ArrowMarkers.RemoveTrailingArrowMarker | server-side/mouse_server.py:42-43 | Removing markers from `d + "_arrow"` gives the same as removing them from `d`, the case of `MarkerSplits` with nothing after the marker. |
| KeyTranslation.ArrowTranslation | server-side/mouse_server.py:42-50 | `d + "_arrow"` gives the arrow for `d` with every marker removed. When `d` holds no marker, it gives the arrow for `d` itself. |
| KeyTranslation.ShortDirectionArrow | server-side/mouse_server.py:42-50 | A direction shorter than the marker is looked up as it is. |
| KeyTranslation.ArrowNames | server-side/mouse_server.py:44-50 | `up_arrow`, `down_arrow`, `left_arrow` and `right_arrow` give the four arrow keys. |
| KeyTranslation.UnknownArrowIsUp | server-side/mouse_server.py:50 | Any other marker-free direction, the empty one included, gives the up arrow. |
| KeyTranslation.ArrowMarkersRemovedEverywhere | server-side/mouse_server.py:43 | `up_arrow_arrow` gives up and `_arrowdown_arrow` gives down, because every marker is stripped. |
| KeyTranslation.SpellingAliases | server-side/mouse_server.py:54-63 | The four non-canonical spellings in the table give their keys: `return` gives enter, and `BackSpace`, `Tab` and `Escape` give backspace, tab and escape. |
| KeyTranslation.CaseSensitiveLookup | server-side/mouse_server.py:82-87 | `Return`, `Enter` and `F5` are not in the table and become character tokens. |
| InputEvents.Chord | server-side/mouse_server.py:196-206 | A chord of n keys is 2n calls. |
| InputEvents.ChordIsPressThenRelease | server-side/mouse_server.py:229-235 | The bracketed chord equals every press in order followed by every release in reverse. |
| InputEvents.ChordOrder | server-side/mouse_server.py:229-235 | A chord presses exactly its keys in the given order and releases exactly the same keys in reverse. |
| InputEvents.ChordReleasesAll | server-side/mouse_server.py:196-206 | Each release in a chord releases the most recently pressed key still held. After the chord the held keys are exactly those held before. |
| InputEvents.TapWithModifiersIsChord | server-side/mouse_server.py:196-206 | Pressing the modifiers, tapping the key, then releasing the modifiers in reverse is the chord of the modifiers followed by the key. |
| InputEvents.ChordWithLastKey | server-side/mouse_server.py:196-206 | The chord of the modifiers and the key has the explicit flat form, presses the modifiers then the key, releases the key then the modifiers in reverse, and leaves nothing held. |
| Dispatch.MouseEffect | server-side/mouse_server.py:102-143 | A mouse command succeeds exactly when its action is one of the eight known ones. Success makes exactly one call. Rejection makes none and leaves the cursor alone. Only `move` can change the cursor. |
| Dispatch.Modifiers | server-side/mouse_server.py:185-191 | A modifier is in the list exactly when its flag is set. Each appears once, and they come in the order ctrl, alt, shift. |
| Dispatch.BuildModifiers | server-side/mouse_server.py:185-191 | Appending ctrl, alt and shift in turn, as their flags say, builds exactly that list. |
| Dispatch.KeyboardEffect | server-side/mouse_server.py:161-254 | A rejected keyboard command makes no call. |
| Dispatch.Controllers.constructor | server-side/mouse_server.py:24-25 | The controllers start at the given cursor position with no calls made. |
| Dispatch.Controllers.PressAll | server-side/mouse_server.py:197-198 | The loop appends one press per key, in order, and leaves the cursor alone. |
| Dispatch.Controllers.ReleaseInReverse | server-side/mouse_server.py:205-206 | The loop over the reversed list appends one release per key, last to first. |
| Dispatch.Controllers.HandleMouseCommand | server-side/mouse_server.py:102-143 | The returned status, the new cursor position and the calls appended to the log are those `MouseEffect` gives for the old position. |
| Dispatch.Controllers.KeyWithModifiers | server-side/mouse_server.py:172-210 | The `key` branch returns the status and appends the calls that `KeyboardEffect` gives for `key`. |
| Dispatch.Controllers.TapWithModifiers | server-side/mouse_server.py:196-206 | Pressing the modifiers, tapping the key and releasing the modifiers in reverse appends the chord of the modifiers and the key. |
| Dispatch.Controllers.KeyCombination | server-side/mouse_server.py:220-235 | Translating every key, pressing them all and releasing them in reverse returns the status and appends the calls that `KeyboardEffect` gives for `key_combination`. |
| Dispatch.Controllers.HandleKeyboardCommand | server-side/mouse_server.py:161-254 | The status and the calls appended are those `KeyboardEffect` gives. The cursor never moves. |
| DispatchProperties.MoveAddsDeltas | server-side/mouse_server.py:107-117 | `move` succeeds and sets the cursor to the old position plus `dx`/`dy`, unclamped, with absent deltas counting as 0. Its only call is that move. |
| DispatchProperties.MoveExample | server-side/mouse_server.py:107-117 | A move by (10, -5) from (100, 200) sets the cursor to (110, 195). |
| DispatchProperties.ButtonActionCalls | server-side/mouse_server.py:119-138 | Each of the seven other mouse actions succeeds with its one call (click left once, click right once, click left twice, scroll (0, 1) or (0, -1), press or release left) and leaves the cursor alone. |
| DispatchProperties.UnknownMouseActionRejected | server-side/mouse_server.py:140-141 | An unknown or missing mouse action is rejected naming that action, with no call and no movement. |
| DispatchProperties.KeyEffect | server-side/mouse_server.py:172-206 | Proof step toward `KeyWithModifiersOrder`: `key` with a key succeeds with the chord of its modifiers and the translated key. |
| DispatchProperties.KeyWithModifiersOrder | server-side/mouse_server.py:185-206 | `key` with a key makes exactly these calls: the set modifiers pressed in the order ctrl, alt, shift, the key pressed and released, then the modifiers released in reverse. That is 2m+2 calls, each key pressed once and released once, last pressed first, and nothing left held. |
| DispatchProperties.CtrlShiftAExample | server-side/mouse_server.py:172-206 | `key` "a" with ctrl and shift makes six calls: press ctrl, press shift, press a, release a, release shift, release ctrl. |
| DispatchProperties.CombinationEffect | server-side/mouse_server.py:220-235 | Proof step toward `CombinationOrder`: `key_combination` with keys succeeds with the chord of the translated keys. |
| DispatchProperties.CombinationOrder | server-side/mouse_server.py:227-235 | `key_combination` with keys presses them all in order, then releases them all in reverse. That is 2n calls, and no key is left held. |
| DispatchProperties.CtrlAltDeleteKeys | server-side/mouse_server.py:59-66 | `ctrl`, `alt` and `delete` translate to their named keys. |
| DispatchProperties.CtrlAltDeleteExample | server-side/mouse_server.py:220-235 | The combination ctrl, alt, delete presses ctrl, alt, delete, then releases delete, alt, ctrl. That is six calls. |
| DispatchProperties.KeyboardRejections | server-side/mouse_server.py:161-254 | A keyboard command is rejected if and only if its action is unknown or missing, `key` has no key, or `key_combination` has no keys. |
| DispatchProperties.MissingKeysRejected | server-side/mouse_server.py:174-224 | `key` without a key is rejected with "no key provided", and `key_combination` without keys with "no keys provided". Neither makes a call. |
| DispatchProperties.UnknownKeyboardActionRejected | server-side/mouse_server.py:251-252 | An unknown or missing keyboard action is rejected naming that action, with no call. |
| DispatchProperties.EmptyInputIsNoOp | server-side/mouse_server.py:166-249 | `type` with empty text succeeds with no call. So do `key_press`, `key_hold_start` and `key_hold_end` without a key. |
| DispatchProperties.SingleKeyActions | server-side/mouse_server.py:166-249 | With input present, `type` makes one text call, `key_press` a press and release of the key, `key_hold_start` a lone press and `key_hold_end` a lone release. |
| DispatchProperties.KeyPressF5Example | server-side/mouse_server.py:212-218 | `key_press` of `F5` taps the character token `F5`, because lookup is case-sensitive. |
| DispatchProperties.KeyboardLeavesNoKeyHeld | server-side/mouse_server.py:166-235 | Every keyboard command other than the hold commands releases every key it presses, last pressed first. It leaves the held keys as it found them. |
| DispatchProperties.HoldThenReleaseBalances | server-side/mouse_server.py:237-249 | A hold followed by a release of the same identifier, sent as two commands, leaves the held keys as they were. |

## Left out

- HTTP routing, JSON decoding and the request-shape checks (`request.is_json`, an empty body; lines 98-100 and 154-159) are not modelled. A command enters the model already decoded into an optional action and a typed parameter bag. A `data` field of the wrong JSON type (a string `dx`, a number `key`, `null`) cannot be expressed.
- `dx` and `dy` are modelled as integers. The code adds whatever JSON number arrives, so a fractional delta is not modelled.
- `Controllers.pos` is the position last written by a move, and nothing else changes it. The code instead re-reads the operating system's pointer position on every move (line 113). So the model does not capture the system clamping a move to the screen, or the pointer being moved by other devices between commands.
- The HTTP status codes, the `jsonify` bodies and their message texts are not modelled. A result is `Success` or `Failure` with the reason.
- The pynput controllers are reduced to a cursor position and a log of calls. What the operating system does with a call is not modelled, and neither is what `KeyCode.from_char` does with a multi-character string. The model keeps the whole identifier in the character token.
- The generic `except Exception` handlers that answer 500 (lines 145-147 and 256-258) are not modelled. They fire when a foreign injection call fails, and also when a request field has the wrong JSON type (a string `dx` fails at line 114, a number `key` at line 42, a number `keys` at line 227) or, on `/mouse`, when the body is malformed JSON (line 98). Both kinds of input are outside the model, per the first line of this list.
- The `key` branch's "Invalid key" handler (lines 208-210) is not modelled. Translation is total only on strings. The handler answers 400 when the key is not a string (`get_key_from_string(5)` fails at line 42) or when an injection call fails, and neither is expressible in the model.
- A command interrupted by an injection failure part-way through its calls is not modelled. In the model every accepted command makes all its calls.
- The `print` logging, `get_local_ip`, `get_status`, `ping`, `print_server_info` and `app.run` with its request threads are not modelled. They are console output, network I/O, a read of the OS position, or framework concurrency. Concurrent commands interleaving their calls are therefore not modelled either.
- The Android project files are not part of this model. They are platform glue and build configuration.
- Dispatch.KeyboardEffect: its own contract states only that a rejection makes no call. The full if-and-only-if for rejection is `DispatchProperties.KeyboardRejections`, and the calls of each action are stated by the lemmas beside it.

/**
 * The key-name translator: turns the textual key identifier a client sends
 * (`"enter"`, `"f5"`, `"up_arrow"`, `"a"`) into the key token handed to the
 * keyboard injection capability.
 */
module KeyTranslation {

  import opened Optional
  import opened ArrowMarkers

  /** The named keys of the injection capability that the translator can produce. */
  datatype NamedKey =
    | Enter | Space | Backspace | Delete | Tab | Esc
    | Shift | Ctrl | Alt | Cmd
    | Up | Down | Left | Right
    | Home | End | PageUp | PageDown | CapsLock
    | F1 | F2 | F3 | F4 | F5 | F6 | F7 | F8 | F9 | F10 | F11 | F12

  /**
   * A key token: a named key, or a literal character key built from the
   * identifier itself. A multi-character identifier that is not a special
   * name still becomes a character token carrying the whole string.
   */
  datatype Key = Named(named: NamedKey) | Char(text: string)

  /**
   * The fixed table of special names, as a lookup that yields `None` for a
   * name the table does not hold. Lookup is exact: only the spellings
   * listed here (lower case, plus `BackSpace`, `Tab` and `Escape`) are special.
   */
  function SpecialKey(name: string): Option<NamedKey> {
    match name
    case "return" => Some(Enter)        case "enter" => Some(Enter)
    case "space" => Some(Space)
    case "backspace" => Some(Backspace) case "BackSpace" => Some(Backspace)
    case "delete" => Some(Delete)
    case "tab" => Some(Tab)             case "Tab" => Some(Tab)
    case "escape" => Some(Esc)          case "Escape" => Some(Esc)
    case "shift" => Some(Shift)         case "ctrl" => Some(Ctrl)
    case "alt" => Some(Alt)             case "cmd" => Some(Cmd)
    case "up" => Some(Up)               case "down" => Some(Down)
    case "left" => Some(Left)           case "right" => Some(Right)
    case "home" => Some(Home)           case "end" => Some(End)
    case "page_up" => Some(PageUp)      case "page_down" => Some(PageDown)
    case "caps_lock" => Some(CapsLock)
    case "f1" => Some(F1)   case "f2" => Some(F2)   case "f3" => Some(F3)   case "f4" => Some(F4)
    case "f5" => Some(F5)   case "f6" => Some(F6)   case "f7" => Some(F7)   case "f8" => Some(F8)
    case "f9" => Some(F9)   case "f10" => Some(F10) case "f11" => Some(F11) case "f12" => Some(F12)
    case _ => None
  }

  predicate IsArrow(n: NamedKey) {
    n == Up || n == Down || n == Left || n == Right
  }

  /**
   * The direction table consulted for names that end in the arrow marker;
   * a direction it does not hold falls back to the up arrow.
   */
  function ArrowFor(direction: string): (n: NamedKey)
    ensures IsArrow(n)
  {
    match direction
    case "up" => Up
    case "down" => Down
    case "left" => Left
    case "right" => Right
    case _ => Up
  }

  /**
   * `get_key_from_string`: total and deterministic. Names ending in the
   * arrow marker always give an arrow key; otherwise the special table is
   * consulted; anything else is a character token holding the identifier.
   */
  function Translate(name: string): (k: Key)
    ensures EndsWithArrow(name) ==> k.Named? && IsArrow(k.named)
    ensures k.Char? <==> !EndsWithArrow(name) && SpecialKey(name).None?
    ensures k.Char? ==> k.text == name
  {
    if EndsWithArrow(name) then Named(ArrowFor(RemoveArrowMarkers(name)))
    else match SpecialKey(name)
      case Some(n) => Named(n)
      case None => Char(name)
  }

  /** Every identifier of a list translated, in order (the list comprehension of a combination). */
  method TranslateKeys(names: seq<string>) returns (keys: seq<Key>)
    ensures |keys| == |names|
    ensures forall i :: 0 <= i < |names| ==> keys[i] == Translate(names[i])
  {
    keys := [];
    var i := 0;
    while i < |names|
      invariant 0 <= i <= |names|
      invariant |keys| == i
      invariant forall j :: 0 <= j < i ==> keys[j] == Translate(names[j])
    {
      keys := keys + [Translate(names[i])];
      i := i + 1;
    }
  }

  /** The canonical lower-case name of each named key. */
  function KeyName(n: NamedKey): string {
    match n
    case Enter => "enter"        case Space => "space"
    case Backspace => "backspace" case Delete => "delete"
    case Tab => "tab"            case Esc => "escape"
    case Shift => "shift"        case Ctrl => "ctrl"
    case Alt => "alt"            case Cmd => "cmd"
    case Up => "up"              case Down => "down"
    case Left => "left"          case Right => "right"
    case Home => "home"          case End => "end"
    case PageUp => "page_up"     case PageDown => "page_down"
    case CapsLock => "caps_lock"
    case F1 => "f1"   case F2 => "f2"   case F3 => "f3"   case F4 => "f4"
    case F5 => "f5"   case F6 => "f6"   case F7 => "f7"   case F8 => "f8"
    case F9 => "f9"   case F10 => "f10" case F11 => "f11" case F12 => "f12"
  }

  /** The special table holds the canonical name of every named key. */
  lemma KeyNameInTable(n: NamedKey)
    ensures SpecialKey(KeyName(n)) == Some(n)
  {
    match n
    case Enter =>
    case Space =>
    case Backspace =>
    case Delete =>
    case Tab =>
    case Esc =>
    case Shift =>
    case Ctrl =>
    case Alt =>
    case Cmd =>
    case Up =>
    case Down =>
    case Left =>
    case Right =>
    case Home =>
    case End =>
    case PageUp =>
    case PageDown =>
    case CapsLock =>
    case F1 =>
    case F2 =>
    case F3 =>
    case F4 =>
    case F5 =>
    case F6 =>
    case F7 =>
    case F8 =>
    case F9 =>
    case F10 =>
    case F11 =>
    case F12 =>
  }

  /** No canonical name carries the arrow marker at its end. */
  lemma KeyNameNotArrow(n: NamedKey)
    ensures !EndsWithArrow(KeyName(n))
  {
  }

  /** Every named key is reachable: its canonical name translates back to it. */
  lemma KeyNameRoundTrip(n: NamedKey)
    ensures Translate(KeyName(n)) == Named(n)
  {
    KeyNameInTable(n);
    KeyNameNotArrow(n);
  }

  /**
   * Any identifier of the form `d + "_arrow"` gives the arrow of the
   * direction left after removing every marker from `d`; in particular
   * a marker-free known direction gives its own arrow and anything else
   * the up arrow.
   */
  lemma ArrowTranslation(d: string)
    ensures Translate(d + ArrowMarker) == Named(ArrowFor(RemoveArrowMarkers(d)))
    ensures NoMarker(d) ==> Translate(d + ArrowMarker) == Named(ArrowFor(d))
  {
    var s := d + ArrowMarker;
    assert s[|s| - |ArrowMarker|..] == ArrowMarker;
    RemoveTrailingArrowMarker(d);
    if NoMarker(d) {
      RemoveArrowMarkersNoMarker(d);
    }
  }

  /**
   * A direction too short to hold a marker is looked up as it is: the four
   * direction words give their arrows (see `ArrowFor`).
   */
  lemma ShortDirectionArrow(d: string)
    requires |d| < |ArrowMarker|
    ensures Translate(d + ArrowMarker) == Named(ArrowFor(d))
  {
    ArrowTranslation(d);
  }

  /** The four arrow names the client sends give the four arrow keys. */
  lemma ArrowNames()
    ensures Translate("up" + ArrowMarker) == Named(Up)
    ensures Translate("down" + ArrowMarker) == Named(Down)
    ensures Translate("left" + ArrowMarker) == Named(Left)
    ensures Translate("right" + ArrowMarker) == Named(Right)
  {
    ShortDirectionArrow("up");
    ShortDirectionArrow("down");
    ShortDirectionArrow("left");
    ShortDirectionArrow("right");
  }

  /** Any other marker-free direction, including none at all, falls back to the up arrow. */
  lemma UnknownArrowIsUp(d: string)
    requires NoMarker(d)
    requires d != "up" && d != "down" && d != "left" && d != "right"
    ensures Translate(d + ArrowMarker) == Named(Up)
  {
    ArrowTranslation(d);
  }

  /**
   * Removal strips every marker, not just the suffix: `"up_arrow_arrow"`
   * still gives the up arrow and `"_arrowdown_arrow"` the down arrow.
   */
  lemma ArrowMarkersRemovedEverywhere()
    ensures Translate("up" + ArrowMarker + ArrowMarker) == Named(Up)
    ensures Translate(ArrowMarker + "down" + ArrowMarker) == Named(Down)
  {
    ArrowTranslation("up" + ArrowMarker);
    RemoveTrailingArrowMarker("up");
    ArrowTranslation(ArrowMarker + "down");
    var s := ArrowMarker + "down";
    assert s[..|ArrowMarker|] == ArrowMarker && s[|ArrowMarker|..] == "down";
  }

  /**
   * Besides the canonical names, the table lists four other spellings: the
   * alias `return` for enter and the capitalised `BackSpace`, `Tab` and
   * `Escape`...
   */
  lemma SpellingAliases(name: string)
    requires name in {"return", "BackSpace", "Tab", "Escape"}
    ensures Translate(name) == Named(
              if name == "return" then Enter
              else if name == "BackSpace" then Backspace
              else if name == "Tab" then Tab
              else Esc)
  {
  }

  /**
   * ... but lookup is case-sensitive and lists no other capitalised
   * spelling: `Return`, `Enter` and `F5` are not in the table and become
   * character tokens.
   */
  lemma CaseSensitiveLookup(name: string)
    requires name == "Return" || name == "Enter" || name == "F5"
    ensures Translate(name) == Char(name)
  {
  }
}

/**
 * The virtual keyboard: key names and codes, the character table used to type
 * text, and the key events written to the uinput device for a press, a
 * release, a click, a shortcut chord, a sequence of chords and typed text.
 *
 * The device is the written event trace; every write may fail (module Sink),
 * and each operation gives up at the first failed write.
 */
module Keyboard {
  import opened Common
  import opened Strings
  import opened Sink

  // Linux input event ABI (linux/input-event-codes.h)
  const EV_SYN: u16 := 0x00
  const EV_KEY: u16 := 0x01
  const SYN_REPORT: u16 := 0x00

  const KEY_ESC: u16 := 1
  const KEY_TAB: u16 := 15
  const KEY_ENTER: u16 := 28
  const KEY_LEFTCTRL: u16 := 29
  const KEY_A: u16 := 30
  const KEY_S: u16 := 31
  const KEY_LEFTSHIFT: u16 := 42
  const KEY_B: u16 := 48
  const KEY_RIGHTSHIFT: u16 := 54
  const KEY_LEFTALT: u16 := 56
  const KEY_SPACE: u16 := 57
  const KEY_RIGHTCTRL: u16 := 97
  const KEY_RIGHTALT: u16 := 100
  const KEY_LEFTMETA: u16 := 125
  const KEY_RIGHTMETA: u16 := 126
  const KEY_F13: u16 := 183

  /** One `input_event` written to the device (the timestamp is always zero). */
  datatype InputEvent = InputEvent(kind: u16, code: u16, value: int)

  // ---------------------------------------------------------------------------
  // Key names
  // ---------------------------------------------------------------------------

  /** The table of key names accepted in shortcuts and uinput macros. */
  function KeyMap(name: string): Option<u16> {
    match name
      case "ctrl" => Some(29)  // KEY_LEFTCTRL
      case "control" => Some(29)  // KEY_LEFTCTRL
      case "shift" => Some(42)  // KEY_LEFTSHIFT
      case "alt" => Some(56)  // KEY_LEFTALT
      case "super" => Some(125)  // KEY_LEFTMETA
      case "meta" => Some(125)  // KEY_LEFTMETA
      case "win" => Some(125)  // KEY_LEFTMETA
      case "a" => Some(30)  // KEY_A
      case "b" => Some(48)  // KEY_B
      case "c" => Some(46)  // KEY_C
      case "d" => Some(32)  // KEY_D
      case "e" => Some(18)  // KEY_E
      case "f" => Some(33)  // KEY_F
      case "g" => Some(34)  // KEY_G
      case "h" => Some(35)  // KEY_H
      case "i" => Some(23)  // KEY_I
      case "j" => Some(36)  // KEY_J
      case "k" => Some(37)  // KEY_K
      case "l" => Some(38)  // KEY_L
      case "m" => Some(50)  // KEY_M
      case "n" => Some(49)  // KEY_N
      case "o" => Some(24)  // KEY_O
      case "p" => Some(25)  // KEY_P
      case "q" => Some(16)  // KEY_Q
      case "r" => Some(19)  // KEY_R
      case "s" => Some(31)  // KEY_S
      case "t" => Some(20)  // KEY_T
      case "u" => Some(22)  // KEY_U
      case "v" => Some(47)  // KEY_V
      case "w" => Some(17)  // KEY_W
      case "x" => Some(45)  // KEY_X
      case "y" => Some(21)  // KEY_Y
      case "z" => Some(44)  // KEY_Z
      case "0" => Some(11)  // KEY_0
      case "1" => Some(2)  // KEY_1
      case "2" => Some(3)  // KEY_2
      case "3" => Some(4)  // KEY_3
      case "4" => Some(5)  // KEY_4
      case "5" => Some(6)  // KEY_5
      case "6" => Some(7)  // KEY_6
      case "7" => Some(8)  // KEY_7
      case "8" => Some(9)  // KEY_8
      case "9" => Some(10)  // KEY_9
      case "f1" => Some(59)  // KEY_F1
      case "f2" => Some(60)  // KEY_F2
      case "f3" => Some(61)  // KEY_F3
      case "f4" => Some(62)  // KEY_F4
      case "f5" => Some(63)  // KEY_F5
      case "f6" => Some(64)  // KEY_F6
      case "f7" => Some(65)  // KEY_F7
      case "f8" => Some(66)  // KEY_F8
      case "f9" => Some(67)  // KEY_F9
      case "f10" => Some(68)  // KEY_F10
      case "f11" => Some(87)  // KEY_F11
      case "f12" => Some(88)  // KEY_F12
      case "f13" => Some(183)  // KEY_F13
      case "f14" => Some(184)  // KEY_F14
      case "f15" => Some(185)  // KEY_F15
      case "f16" => Some(186)  // KEY_F16
      case "f17" => Some(187)  // KEY_F17
      case "f18" => Some(188)  // KEY_F18
      case "f19" => Some(189)  // KEY_F19
      case "f20" => Some(190)  // KEY_F20
      case "esc" => Some(1)  // KEY_ESC
      case "escape" => Some(1)  // KEY_ESC
      case "tab" => Some(15)  // KEY_TAB
      case "space" => Some(57)  // KEY_SPACE
      case "enter" => Some(28)  // KEY_ENTER
      case "return" => Some(28)  // KEY_ENTER
      case "backspace" => Some(14)  // KEY_BACKSPACE
      case "delete" => Some(111)  // KEY_DELETE
      case "insert" => Some(110)  // KEY_INSERT
      case "home" => Some(102)  // KEY_HOME
      case "end" => Some(107)  // KEY_END
      case "pageup" => Some(104)  // KEY_PAGEUP
      case "pagedown" => Some(109)  // KEY_PAGEDOWN
      case "up" => Some(103)  // KEY_UP
      case "down" => Some(108)  // KEY_DOWN
      case "left" => Some(105)  // KEY_LEFT
      case "right" => Some(106)  // KEY_RIGHT
      case "capslock" => Some(58)  // KEY_CAPSLOCK
      case "minus" => Some(12)  // KEY_MINUS
      case "equal" => Some(13)  // KEY_EQUAL
      case "leftbrace" => Some(26)  // KEY_LEFTBRACE
      case "rightbrace" => Some(27)  // KEY_RIGHTBRACE
      case "semicolon" => Some(39)  // KEY_SEMICOLON
      case "apostrophe" => Some(40)  // KEY_APOSTROPHE
      case "grave" => Some(41)  // KEY_GRAVE
      case "backslash" => Some(43)  // KEY_BACKSLASH
      case "comma" => Some(51)  // KEY_COMMA
      case "dot" => Some(52)  // KEY_DOT
      case "slash" => Some(53)  // KEY_SLASH
      case _ => None
  }

  /** A key name as looked up: trimmed, lower-cased, with one leading `key_` removed. */
  function KeyName(name: string): string {
    StripKeyPrefix(Lowercase(Trim(name)))
  }

  function StripKeyPrefix(lower: string): string {
    match StripPrefix(lower, "key_")
    case Some(rest) => rest
    case None => lower
  }

  /** `parse_key`: the code of a key name, if the table knows it. */
  function ParseKey(name: string): Option<u16> {
    KeyMap(KeyName(name))
  }

  predicate IsAlnum(c: char) {
    'a' <= c <= 'z' || 'A' <= c <= 'Z' || '0' <= c <= '9'
  }

  /**
   * Surrounding whitespace, letter case and a `KEY_` prefix in any case make no
   * difference to the key a name denotes.
   */
  lemma KeyNameNormalises(pad1: string, prefix: string, word: string, pad2: string)
    requires forall i :: 0 <= i < |pad1| ==> IsWhitespace(pad1[i])
    requires forall i :: 0 <= i < |pad2| ==> IsWhitespace(pad2[i])
    requires prefix == [] || Lowercase(prefix) == "key_"
    requires word != [] && forall i :: 0 <= i < |word| ==> IsAlnum(word[i])
    requires prefix != [] || !StartsWith(Lowercase(word), "key_")
    ensures KeyName(pad1 + prefix + word + pad2) == Lowercase(word)
  {
    TrimmedName(pad1, prefix, word, pad2);
    StrippedName(prefix, word);
  }

  lemma TrimmedName(pad1: string, prefix: string, word: string, pad2: string)
    requires forall i :: 0 <= i < |pad1| ==> IsWhitespace(pad1[i])
    requires forall i :: 0 <= i < |pad2| ==> IsWhitespace(pad2[i])
    requires prefix == [] || Lowercase(prefix) == "key_"
    requires word != [] && forall i :: 0 <= i < |word| ==> IsAlnum(word[i])
    ensures Trim(pad1 + prefix + word + pad2) == prefix + word
  {
    var w := prefix + word;
    assert pad1 + prefix + word + pad2 == pad1 + w + pad2;
    WordEnds(prefix, word);
    TrimPadded(pad1, w, pad2);
  }

  lemma StrippedName(prefix: string, word: string)
    requires prefix == [] || Lowercase(prefix) == "key_"
    requires prefix != [] || !StartsWith(Lowercase(word), "key_")
    ensures StripKeyPrefix(Lowercase(prefix + word)) == Lowercase(word)
  {
    LowercaseAppend(prefix, word);
    var lower := Lowercase(prefix + word);
    if prefix == [] {
      assert prefix + word == word;
    } else {
      assert lower == "key_" + Lowercase(word);
      assert lower[..4] == "key_";
    }
  }

  /** A name made of an optional `key_` prefix and letters or digits has no whitespace at its ends. */
  lemma WordEnds(prefix: string, word: string)
    requires prefix == [] || Lowercase(prefix) == "key_"
    requires word != [] && forall i :: 0 <= i < |word| ==> IsAlnum(word[i])
    ensures var w := prefix + word; !IsWhitespace(w[0]) && !IsWhitespace(w[|w| - 1])
  {
    var w := prefix + word;
    assert w[|w| - 1] == word[|word| - 1];
    assert IsAlnum(word[|word| - 1]);
    if prefix != [] {
      assert w[0] == prefix[0];
      assert LowerChar(prefix[0]) == 'k';
    } else {
      assert w[0] == word[0] && IsAlnum(word[0]);
    }
  }

  /** A name already in lower case, with no padding and no `key_` prefix, is looked up as it is. */
  lemma ParseKeyPlain(word: string)
    requires word != [] && forall i :: 0 <= i < |word| ==> 'a' <= word[i] <= 'z' || '0' <= word[i] <= '9'
    requires !StartsWith(word, "key_")
    ensures KeyName(word) == word && ParseKey(word) == KeyMap(word)
  {
    assert Lowercase(word) == word;
    assert "" + "" + word + "" == word;
    KeyNameNormalises("", "", word, "");
  }

  /**
   * The aliases of the modifier and editing keys denote the same codes (and,
   * being plain lower-case names, ParseKeyPlain says `parse_key` returns them).
   */
  lemma KeyAliases()
    ensures KeyMap("ctrl") == KeyMap("control") == Some(KEY_LEFTCTRL)
    ensures KeyMap("super") == KeyMap("meta") == KeyMap("win") == Some(KEY_LEFTMETA)
    ensures KeyMap("esc") == KeyMap("escape") == Some(KEY_ESC)
    ensures KeyMap("enter") == KeyMap("return") == Some(KEY_ENTER)
  {
  }

  // ---------------------------------------------------------------------------
  // Characters
  // ---------------------------------------------------------------------------

  /** The QWERTY key codes of the letters a..z, in alphabetical order of the letters. */
  const LETTER_CODES: seq<u16> :=
    [30, 48, 46, 32, 18, 33, 34, 35, 23, 36, 37, 38, 50, 49, 24, 25, 16, 19, 31, 20, 22, 47, 17, 45, 21, 44]

  /** The key that types lower-case letter c on a QWERTY layout. */
  function LetterKey(c: char): u16
    requires 'a' <= c <= 'z'
  {
    LETTER_CODES[c as int - 'a' as int]
  }

  /** The table entries of the digits, the punctuation and the white space characters. */
  function SymbolKey(c: char): Option<(u16, bool)> {
    match c
    case '0' => Some((11, false))
    case '1' => Some((2, false))
    case '2' => Some((3, false))
    case '3' => Some((4, false))
    case '4' => Some((5, false))
    case '5' => Some((6, false))
    case '6' => Some((7, false))
    case '7' => Some((8, false))
    case '8' => Some((9, false))
    case '9' => Some((10, false))
    case '!' => Some((2, true))
    case '@' => Some((3, true))
    case '#' => Some((4, true))
    case '$' => Some((5, true))
    case '%' => Some((6, true))
    case '^' => Some((7, true))
    case '&' => Some((8, true))
    case '*' => Some((9, true))
    case '(' => Some((10, true))
    case ')' => Some((11, true))
    case ' ' => Some((KEY_SPACE, false))
    case '\n' => Some((KEY_ENTER, false))
    case '\t' => Some((KEY_TAB, false))
    case '-' => Some((12, false))
    case '_' => Some((12, true))
    case '=' => Some((13, false))
    case '+' => Some((13, true))
    case '[' => Some((26, false))
    case '{' => Some((26, true))
    case ']' => Some((27, false))
    case '}' => Some((27, true))
    case ';' => Some((39, false))
    case ':' => Some((39, true))
    case '\'' => Some((40, false))
    case '"' => Some((40, true))
    case '`' => Some((41, false))
    case '~' => Some((41, true))
    case '\\' => Some((43, false))
    case '|' => Some((43, true))
    case ',' => Some((51, false))
    case '<' => Some((51, true))
    case '.' => Some((52, false))
    case '>' => Some((52, true))
    case '/' => Some((53, false))
    case '?' => Some((53, true))
    case _ => None
  }

  /**
   * The character table used by `typeout` AS WRITTEN: the i-th letter of the
   * alphabet is sent as key code KEY_A + i, with shift for upper case.
   */
  function CharMap(c: char): Option<(u16, bool)> {
    if 'a' <= c <= 'z' then Some((KEY_A + (c as int - 'a' as int), false))
    else if 'A' <= c <= 'Z' then Some((KEY_A + (c as int - 'A' as int), true))
    else SymbolKey(c)
  }

  /** The corrected character table: every letter on the QWERTY key of that name. */
  function QwertyCharMap(c: char): Option<(u16, bool)> {
    if 'a' <= c <= 'z' then Some((LetterKey(c), false))
    else if 'A' <= c <= 'Z' then Some((LetterKey(AsciiLower(c)), true))
    else SymbolKey(c)
  }

  /**
   * The corrected table sends every letter on the key whose name is that
   * letter in the key-name table, shifted exactly for upper case.
   */
  lemma QwertyCharMapAgreesWithKeyMap(c: char)
    requires 'a' <= c <= 'z' || 'A' <= c <= 'Z'
    ensures QwertyCharMap(c) == Some((KeyMap([AsciiLower(c)]).value, 'A' <= c <= 'Z'))
  {
    LetterKeyNamed(AsciiLower(c));
  }

  lemma LetterKeyNamed(c: char)
    requires 'a' <= c <= 'z'
    ensures KeyMap([c]) == Some(LetterKey(c))
  {
    match c
    case 'a' => case 'b' => case 'c' => case 'd' => case 'e' => case 'f' => case 'g' =>
    case 'h' => case 'i' => case 'j' => case 'k' => case 'l' => case 'm' => case 'n' =>
    case 'o' => case 'p' => case 'q' => case 'r' => case 's' => case 't' => case 'u' =>
    case 'v' => case 'w' => case 'x' => case 'y' => case 'z' =>
    case _ => assert false;
  }

  /**
   * The table as written agrees with the key-name table on the letter a only:
   * every other letter is sent on the wrong key (b is typed as s).
   */
  lemma CharMapMisplacesLetters(c: char)
    requires 'a' <= c <= 'z'
    ensures CharMap(c) == Some((KeyMap([c]).value, false)) <==> c == 'a'
  {
    LetterKeyNamed(c);
    match c
    case 'a' => case 'b' => case 'c' => case 'd' => case 'e' => case 'f' => case 'g' =>
    case 'h' => case 'i' => case 'j' => case 'k' => case 'l' => case 'm' => case 'n' =>
    case 'o' => case 'p' => case 'q' => case 'r' => case 's' => case 't' => case 'u' =>
    case 'v' => case 'w' => case 'x' => case 'y' => case 'z' =>
    case _ => assert false;
  }

  // ---------------------------------------------------------------------------
  // Event traces
  // ---------------------------------------------------------------------------

  const SYNC: InputEvent := InputEvent(EV_SYN, SYN_REPORT, 0)

  function PressEvents(key: u16): seq<InputEvent> {
    [InputEvent(EV_KEY, key, 1), SYNC]
  }

  function ReleaseEvents(key: u16): seq<InputEvent> {
    [InputEvent(EV_KEY, key, 0), SYNC]
  }

  function ClickEvents(key: u16): seq<InputEvent> {
    PressEvents(key) + ReleaseEvents(key)
  }

  /** The codes of the key-down events of a trace, in order. */
  function KeyDowns(trace: seq<InputEvent>): seq<u16> {
    if trace == [] then []
    else (if trace[0].kind == EV_KEY && trace[0].value == 1 then [trace[0].code] else []) + KeyDowns(trace[1..])
  }

  /** The codes of the key-up events of a trace, in order. */
  function KeyUps(trace: seq<InputEvent>): seq<u16> {
    if trace == [] then []
    else (if trace[0].kind == EV_KEY && trace[0].value == 0 then [trace[0].code] else []) + KeyUps(trace[1..])
  }

  lemma {:induction false} KeyDownsAppend(a: seq<InputEvent>, b: seq<InputEvent>)
    ensures KeyDowns(a + b) == KeyDowns(a) + KeyDowns(b)
  {
    if a != [] {
      assert (a + b)[1..] == a[1..] + b;
      KeyDownsAppend(a[1..], b);
    } else {
      assert a + b == b;
    }
  }

  lemma {:induction false} KeyUpsAppend(a: seq<InputEvent>, b: seq<InputEvent>)
    ensures KeyUps(a + b) == KeyUps(a) + KeyUps(b)
  {
    if a != [] {
      assert (a + b)[1..] == a[1..] + b;
      KeyUpsAppend(a[1..], b);
    } else {
      assert a + b == b;
    }
  }

  /** A press is one key-down, a release one key-up; the synchronisation events carry no key. */
  lemma PressReleaseKeys(key: u16)
    ensures KeyDowns(PressEvents(key)) == [key] && KeyUps(PressEvents(key)) == []
    ensures KeyDowns(ReleaseEvents(key)) == [] && KeyUps(ReleaseEvents(key)) == [key]
  {
    assert [SYNC][1..] == [];
    assert KeyDowns([SYNC]) == [] && KeyUps([SYNC]) == [];
    assert PressEvents(key)[1..] == [SYNC] && ReleaseEvents(key)[1..] == [SYNC];
  }

  /** Each item mapped to events, the events concatenated in order. */
  function ConcatMap<T>(items: seq<T>, f: T -> seq<InputEvent>): seq<InputEvent> {
    if items == [] then [] else ConcatMap(items[..|items| - 1], f) + f(items[|items| - 1])
  }

  lemma {:induction false} ConcatMapAppend<T>(a: seq<T>, b: seq<T>, f: T -> seq<InputEvent>)
    ensures ConcatMap(a + b, f) == ConcatMap(a, f) + ConcatMap(b, f)
    decreases |b|
  {
    if b == [] {
      assert a + b == a;
    } else {
      var b' := b[..|b| - 1];
      assert (a + b)[..|a + b| - 1] == a + b';
      ConcatMapAppend(a, b', f);
    }
  }

  /** Pressing each key in order. */
  function PressAll(keys: seq<u16>): seq<InputEvent> {
    ConcatMap(keys, PressEvents)
  }

  /** Releasing the keys in reverse order: the last one first. */
  function ReleaseReversed(keys: seq<u16>): seq<InputEvent> {
    if keys == [] then [] else ReleaseReversed(keys[1..]) + ReleaseEvents(keys[0])
  }

  function Reversed(keys: seq<u16>): (r: seq<u16>)
    ensures |r| == |keys|
  {
    if keys == [] then [] else Reversed(keys[1..]) + [keys[0]]
  }

  lemma {:induction false} ReversedAt(keys: seq<u16>, i: nat)
    requires i < |keys|
    ensures Reversed(keys)[i] == keys[|keys| - 1 - i]
  {
    if i < |keys| - 1 {
      ReversedAt(keys[1..], i);
    }
  }

  lemma {:induction false} ReversedSameKeys(keys: seq<u16>)
    ensures multiset(Reversed(keys)) == multiset(keys)
  {
    if keys != [] {
      ReversedSameKeys(keys[1..]);
      assert keys == [keys[0]] + keys[1..];
    }
  }

  lemma {:induction false} PressAllKeys(keys: seq<u16>)
    ensures KeyDowns(PressAll(keys)) == keys && KeyUps(PressAll(keys)) == []
  {
    if keys != [] {
      var k := keys[|keys| - 1];
      var front := keys[..|keys| - 1];
      PressAllKeys(front);
      PressReleaseKeys(k);
      KeyDownsAppend(PressAll(front), PressEvents(k));
      KeyUpsAppend(PressAll(front), PressEvents(k));
      assert keys == front + [k];
    }
  }

  lemma {:induction false} ReleaseReversedKeys(keys: seq<u16>)
    ensures KeyUps(ReleaseReversed(keys)) == Reversed(keys) && KeyDowns(ReleaseReversed(keys)) == []
  {
    if keys != [] {
      ReleaseReversedKeys(keys[1..]);
      PressReleaseKeys(keys[0]);
      KeyDownsAppend(ReleaseReversed(keys[1..]), ReleaseEvents(keys[0]));
      KeyUpsAppend(ReleaseReversed(keys[1..]), ReleaseEvents(keys[0]));
    }
  }

  /** A trace with no key-up event has none in any prefix either. */
  lemma NoKeyUpsInPrefix(trace: seq<InputEvent>, prefix: seq<InputEvent>)
    requires prefix <= trace && KeyUps(trace) == []
    ensures KeyUps(prefix) == []
  {
    assert trace == prefix + trace[|prefix|..];
    KeyUpsAppend(prefix, trace[|prefix|..]);
  }

  // ---------------------------------------------------------------------------
  // Shortcuts and sequences
  // ---------------------------------------------------------------------------

  function TrimAll(parts: seq<string>): (r: seq<string>)
    ensures |r| == |parts| && forall i :: 0 <= i < |parts| ==> r[i] == Trim(parts[i])
  {
    seq(|parts|, i requires 0 <= i < |parts| => Trim(parts[i]))
  }

  /** The parts of a chord such as "ctrl + shift+t": split on '+', each trimmed. */
  function ShortcutParts(shortcut: string): seq<string> {
    TrimAll(Split(shortcut, '+'))
  }

  /** The values of the parts that `f` accepts, in order; the other parts are skipped. */
  function FilterMap<T>(parts: seq<string>, f: string -> Option<T>): seq<T> {
    if parts == [] then []
    else
      var x := f(parts[|parts| - 1]);
      FilterMap(parts[..|parts| - 1], f) + (if x.Some? then [x.value] else [])
  }

  lemma {:induction false} FilterMapAppend<T>(a: seq<string>, b: seq<string>, f: string -> Option<T>)
    ensures FilterMap(a + b, f) == FilterMap(a, f) + FilterMap(b, f)
    decreases |b|
  {
    if b == [] {
      assert a + b == a;
    } else {
      var b' := b[..|b| - 1];
      assert (a + b)[..|a + b| - 1] == a + b';
      FilterMapAppend(a, b', f);
    }
  }

  lemma FilterMapSnoc<T>(parts: seq<string>, part: string, f: string -> Option<T>)
    ensures FilterMap(parts + [part], f) == FilterMap(parts, f) + (if f(part).Some? then [f(part).value] else [])
  {
    assert (parts + [part])[..|parts|] == parts;
  }

  lemma ConcatMapSnoc<T>(items: seq<T>, item: T, f: T -> seq<InputEvent>)
    ensures ConcatMap(items + [item], f) == ConcatMap(items, f) + f(item)
  {
    assert (items + [item])[..|items|] == items;
  }

  /** The codes of the parts of a shortcut that name a known key, in order; unknown parts are skipped. */
  function ShortcutKeys(shortcut: string): seq<u16> {
    FilterMap(ShortcutParts(shortcut), ParseKey)
  }

  /** `shortcut` with every write succeeding: press the known keys in order, release them in reverse. */
  function ShortcutEvents(shortcut: string): seq<InputEvent> {
    PressAll(ShortcutKeys(shortcut)) + ReleaseReversed(ShortcutKeys(shortcut))
  }

  /**
   * A shortcut presses its known keys in the order written and releases the same
   * keys in the reverse order: every key pressed is released exactly once.
   */
  lemma ShortcutBalanced(shortcut: string)
    ensures KeyDowns(ShortcutEvents(shortcut)) == ShortcutKeys(shortcut)
    ensures KeyUps(ShortcutEvents(shortcut)) == Reversed(ShortcutKeys(shortcut))
    ensures multiset(KeyUps(ShortcutEvents(shortcut))) == multiset(KeyDowns(ShortcutEvents(shortcut)))
  {
    var keys := ShortcutKeys(shortcut);
    PressAllKeys(keys);
    ReleaseReversedKeys(keys);
    KeyDownsAppend(PressAll(keys), ReleaseReversed(keys));
    KeyUpsAppend(PressAll(keys), ReleaseReversed(keys));
    ReversedSameKeys(keys);
  }

  /**
   * When a write fails while the keys are being pressed, no key is released:
   * the keys already pressed stay down.
   */
  lemma ShortcutFailureLeavesKeysDown(shortcut: string, outcomes: seq<bool>)
    requires !Run(PressAll(ShortcutKeys(shortcut)), outcomes).ok
    ensures var o := Run(ShortcutEvents(shortcut), outcomes);
      !o.ok && KeyUps(o.written) == [] && KeyDowns(o.written) <= ShortcutKeys(shortcut)
  {
    PressFailureLeavesKeysDown(ShortcutKeys(shortcut), outcomes);
  }

  lemma PressFailureLeavesKeysDown(keys: seq<u16>, outcomes: seq<bool>)
    requires !Run(PressAll(keys), outcomes).ok
    ensures var o := Run(PressAll(keys) + ReleaseReversed(keys), outcomes);
      !o.ok && KeyUps(o.written) == [] && KeyDowns(o.written) <= keys
  {
    var presses := PressAll(keys);
    var first := Run(presses, outcomes);
    RunThen(presses, ReleaseReversed(keys), outcomes);
    assert Run(presses + ReleaseReversed(keys), outcomes) == first;
    PressAllKeys(keys);
    PressPrefixKeepsKeysDown(presses, first.written, keys);
  }

  /** Any prefix of the presses of `keys` presses a prefix of them and releases nothing. */
  lemma PressPrefixKeepsKeysDown(presses: seq<InputEvent>, w: seq<InputEvent>, keys: seq<u16>)
    requires w <= presses && KeyUps(presses) == [] && KeyDowns(presses) == keys
    ensures KeyUps(w) == [] && KeyDowns(w) <= keys
  {
    NoKeyUpsInPrefix(presses, w);
    assert presses == w + presses[|w|..];
    KeyDownsAppend(w, presses[|w|..]);
  }

  /** A trimmed ','-separated part of a sequence, if it is not empty. */
  function Chord(piece: string): Option<string> {
    var chord := Trim(piece);
    if chord != "" then Some(chord) else None
  }

  function SequenceParts(sequence: string): seq<string> {
    FilterMap(Split(sequence, ','), Chord)
  }

  /** `sequence` with every write succeeding: each chord played in turn. */
  function SequenceEvents(sequence: string): seq<InputEvent> {
    ConcatMap(SequenceParts(sequence), ShortcutEvents)
  }

  /** A chord the way the recorder writes it: not empty, no surrounding whitespace, no ','. */
  predicate IsChord(chord: string) {
    chord != [] && !IsWhitespace(chord[0]) && !IsWhitespace(chord[|chord| - 1]) && ',' !in chord
  }

  /** Joining chords with ", " and reading the result as a sequence gives the chords back. */
  lemma SequenceOfJoinedChords(chords: seq<string>)
    requires |chords| >= 1 && forall i :: 0 <= i < |chords| ==> IsChord(chords[i])
    ensures SequenceParts(Join(chords, ", ")) == chords
  {
    var pieces := [chords[0]] + Padded(chords[1..], ' ');
    JoinWithPadding(chords, ',', ' ');
    assert ", " == [',', ' '];
    PiecesHaveNoComma(chords, pieces);
    SplitJoin(pieces, ',');
    ChordsOfPadded(chords, pieces);
  }

  lemma PiecesHaveNoComma(chords: seq<string>, pieces: seq<string>)
    requires |chords| >= 1 && forall i :: 0 <= i < |chords| ==> IsChord(chords[i])
    requires pieces == [chords[0]] + Padded(chords[1..], ' ')
    ensures |pieces| >= 1 && forall i :: 0 <= i < |pieces| ==> ',' !in pieces[i]
  {
    forall i | 0 <= i < |pieces| ensures ',' !in pieces[i] {
      if i > 0 {
        assert pieces[i] == [' '] + chords[i];
        assert IsChord(chords[i]);
      } else {
        assert IsChord(chords[0]);
      }
    }
  }

  lemma ChordOfPiece(piece: string, chord: string)
    requires IsChord(chord) && (piece == chord || piece == [' '] + chord)
    ensures Chord(piece) == Some(chord)
  {
    assert [' '] + chord + [] == piece || [] + chord + [] == piece;
    if piece == chord {
      TrimPadded([], chord, []);
    } else {
      TrimPadded([' '], chord, []);
    }
  }

  lemma ChordsOfPadded(chords: seq<string>, pieces: seq<string>)
    requires |chords| >= 1 && forall i :: 0 <= i < |chords| ==> IsChord(chords[i])
    requires |pieces| == |chords| && pieces[0] == chords[0]
    requires forall i :: 1 <= i < |pieces| ==> pieces[i] == [' '] + chords[i]
    ensures FilterMap(pieces, Chord) == chords
  {
    forall i | 0 <= i < |pieces|
      ensures Chord(pieces[i]) == Some(chords[i])
    {
      assert IsChord(chords[i]);
      ChordOfPiece(pieces[i], chords[i]);
    }
    FilterMapAllSome(pieces, Chord, chords);
  }

  /** When `f` accepts every part, the filtered values are exactly its values, in order. */
  lemma {:induction false} FilterMapAllSome<T>(parts: seq<string>, f: string -> Option<T>, values: seq<T>)
    requires |parts| == |values| && forall i :: 0 <= i < |parts| ==> f(parts[i]) == Some(values[i])
    ensures FilterMap(parts, f) == values
    decreases |parts|
  {
    if parts != [] {
      var n := |parts|;
      assert f(parts[n - 1]) == Some(values[n - 1]);
      FilterMapAllSome(parts[..n - 1], f, values[..n - 1]);
      SplitLast(values);
    }
  }

  // ---------------------------------------------------------------------------
  // Typing text
  // ---------------------------------------------------------------------------

  /**
   * The events typing one character with the given character table: the key
   * clicked, wrapped in a press and release of the left shift key when the
   * table says so; a character the table lacks is skipped.
   */
  function CharEventsWith(c: char, table: char -> Option<(u16, bool)>): seq<InputEvent> {
    match table(c)
    case None => []
    case Some((key, shift)) =>
      if shift then PressEvents(KEY_LEFTSHIFT) + ClickEvents(key) + ReleaseEvents(KEY_LEFTSHIFT)
      else ClickEvents(key)
  }

  /** Typing one character with the table `typeout` uses, as written. */
  function CharEvents(c: char): seq<InputEvent> {
    CharEventsWith(c, CharMap)
  }

  /** Typing with `table`, as a function of the character. */
  function CharEventsBy(table: char -> Option<(u16, bool)>): char -> seq<InputEvent> {
    c => CharEventsWith(c, table)
  }

  /** Typing `text` character by character with `table`, every write succeeding. */
  function TypeoutEventsWith(text: string, table: char -> Option<(u16, bool)>): seq<InputEvent> {
    ConcatMap(text, CharEventsBy(table))
  }

  /** `typeout` with every write succeeding, with the character table as written. */
  function TypeoutEvents(text: string): seq<InputEvent> {
    TypeoutEventsWith(text, CharMap)
  }

  /** Typing with the corrected table. */
  function QwertyTypeoutEvents(text: string): seq<InputEvent> {
    TypeoutEventsWith(text, QwertyCharMap)
  }

  /** Typing "b" with the table as written clicks the key labelled S; with the corrected table, B. */
  lemma TypeoutLetterB()
    ensures TypeoutEvents("b") == ClickEvents(KEY_S)
    ensures QwertyTypeoutEvents("b") == ClickEvents(KEY_B)
  {
    assert "b"[..0] == [];
    assert LetterKey('b') == KEY_B;
  }

  /** Every key a trace presses it also releases, as often. */
  predicate Balanced(trace: seq<InputEvent>) {
    multiset(KeyDowns(trace)) == multiset(KeyUps(trace))
  }

  lemma BalancedAppend(a: seq<InputEvent>, b: seq<InputEvent>)
    requires Balanced(a) && Balanced(b)
    ensures Balanced(a + b)
  {
    KeyDownsAppend(a, b);
    KeyUpsAppend(a, b);
  }

  lemma {:induction false} ConcatMapBalanced<T>(items: seq<T>, f: T -> seq<InputEvent>)
    requires forall i :: 0 <= i < |items| ==> Balanced(f(items[i]))
    ensures Balanced(ConcatMap(items, f))
  {
    if items != [] {
      ConcatMapBalanced(items[..|items| - 1], f);
      BalancedAppend(ConcatMap(items[..|items| - 1], f), f(items[|items| - 1]));
    }
  }

  /** Typing one character with any table releases every key it presses. */
  lemma CharEventsBalanced(c: char, table: char -> Option<(u16, bool)>)
    ensures Balanced(CharEventsWith(c, table))
  {
    match table(c)
    case None =>
    case Some((key, shift)) =>
      PressReleaseKeys(key);
      PressReleaseKeys(KEY_LEFTSHIFT);
      KeyDownsAppend(PressEvents(key), ReleaseEvents(key));
      KeyUpsAppend(PressEvents(key), ReleaseEvents(key));
      if shift {
        var click := ClickEvents(key);
        KeyDownsAppend(PressEvents(KEY_LEFTSHIFT), click);
        KeyUpsAppend(PressEvents(KEY_LEFTSHIFT), click);
        KeyDownsAppend(PressEvents(KEY_LEFTSHIFT) + click, ReleaseEvents(KEY_LEFTSHIFT));
        KeyUpsAppend(PressEvents(KEY_LEFTSHIFT) + click, ReleaseEvents(KEY_LEFTSHIFT));
      }
  }

  /**
   * Typing text leaves no key held, whatever the table: every press is
   * matched by a release. This covers `typeout` as written and corrected.
   */
  lemma TypeoutBalanced(text: string, table: char -> Option<(u16, bool)>)
    ensures Balanced(TypeoutEventsWith(text, table))
  {
    forall i | 0 <= i < |text| ensures Balanced(CharEventsBy(table)(text[i])) {
      CharEventsBalanced(text[i], table);
    }
    ConcatMapBalanced(text, CharEventsBy(table));
  }

  /** Playing a sequence leaves no key held. */
  lemma SequenceBalanced(sequence: string)
    ensures Balanced(SequenceEvents(sequence))
  {
    var chords := SequenceParts(sequence);
    forall i | 0 <= i < |chords| ensures Balanced(ShortcutEvents(chords[i])) {
      ShortcutBalanced(chords[i]);
    }
    ConcatMapBalanced(chords, ShortcutEvents);
  }

  /** Characters outside the table produce no events at all, whatever the table. */
  lemma TypeoutSkipsUnmapped(a: string, c: char, b: string, table: char -> Option<(u16, bool)>)
    requires table(c).None?
    ensures TypeoutEventsWith(a + [c] + b, table) == TypeoutEventsWith(a + b, table)
  {
    var f := CharEventsBy(table);
    ConcatMapAppend(a + [c], b, f);
    ConcatMapAppend(a, [c], f);
    ConcatMapAppend(a, b, f);
    assert [c][..0] == [];
  }

  // ---------------------------------------------------------------------------
  // The virtual keyboard device
  // ---------------------------------------------------------------------------

  lemma {:induction false} ReleaseReversedAppend(a: seq<u16>, b: seq<u16>)
    ensures ReleaseReversed(a + b) == ReleaseReversed(b) + ReleaseReversed(a)
  {
    if a == [] {
      assert a + b == b;
    } else {
      assert (a + b)[1..] == a[1..] + b;
      ReleaseReversedAppend(a[1..], b);
    }
  }

  /** A failure while pressing the first keys of a shortcut abandons the rest of it. */
  lemma PressesStop(prefix: seq<u16>, keys: seq<u16>,
                    t0: seq<InputEvent>, o0: seq<bool>, t1: seq<InputEvent>, o1: seq<bool>)
    requires prefix <= keys && Wrote(PressAll(prefix), t0, o0, t1, o1, false)
    ensures Wrote(PressAll(keys), t0, o0, t1, o1, false)
  {
    assert prefix + keys[|prefix|..] == keys;
    ConcatMapStops(prefix, keys[|prefix|..], PressEvents, t0, o0, t1, o1);
  }

  /** A failure while writing the events of the first items abandons the events of the others. */
  lemma ConcatMapStops<T>(done: seq<T>, rest: seq<T>, f: T -> seq<InputEvent>,
                          t0: seq<InputEvent>, o0: seq<bool>, t1: seq<InputEvent>, o1: seq<bool>)
    requires Wrote(ConcatMap(done, f), t0, o0, t1, o1, false)
    ensures Wrote(ConcatMap(done + rest, f), t0, o0, t1, o1, false)
  {
    ConcatMapAppend(done, rest, f);
    WroteStops(ConcatMap(done, f), ConcatMap(rest, f), t0, o0, t1, o1);
  }

  lemma SplitAt<T>(s: seq<T>, n: nat)
    requires n <= |s|
    ensures s[..n] + s[n..] == s
  {
  }

  /** A failure while playing the items accepted from `a` abandons those accepted from `b`. */
  lemma FilterConcatStops<U>(a: seq<string>, b: seq<string>, g: string -> Option<U>, f: U -> seq<InputEvent>,
                             t0: seq<InputEvent>, o0: seq<bool>, t1: seq<InputEvent>, o1: seq<bool>)
    requires Wrote(ConcatMap(FilterMap(a, g), f), t0, o0, t1, o1, false)
    ensures Wrote(ConcatMap(FilterMap(a + b, g), f), t0, o0, t1, o1, false)
  {
    FilterMapAppend(a, b, g);
    ConcatMapStops(FilterMap(a, g), FilterMap(b, g), f, t0, o0, t1, o1);
  }

  /** The uinput virtual keyboard: the events written so far and the fate of the writes to come. */
  class VirtualKeyboard {
    var trace: seq<InputEvent>
    var outcomes: seq<bool>

    constructor(outcomes: seq<bool>)
      ensures trace == [] && this.outcomes == outcomes
    {
      trace := [];
      this.outcomes := outcomes;
    }

    /** Write one input event. */
    method Emit(kind: u16, code: u16, value: int) returns (ok: bool)
      modifies this
      ensures Wrote([InputEvent(kind, code, value)], old(trace), old(outcomes), trace, outcomes, ok)
    {
      if outcomes != [] && !outcomes[0] {
        outcomes := outcomes[1..];
        ok := false;
      } else {
        trace := trace + [InputEvent(kind, code, value)];
        outcomes := if outcomes == [] then [] else outcomes[1..];
        ok := true;
      }
    }

    method Sync() returns (ok: bool)
      modifies this
      ensures Wrote([SYNC], old(trace), old(outcomes), trace, outcomes, ok)
    {
      ok := Emit(EV_SYN, SYN_REPORT, 0);
    }

    /** Key down, then a synchronisation report. */
    method Press(key: u16) returns (ok: bool)
      modifies this
      ensures Wrote(PressEvents(key), old(trace), old(outcomes), trace, outcomes, ok)
    {
      ghost var t0, o0 := trace, outcomes;
      ok := Emit(EV_KEY, key, 1);
      if !ok {
        WroteStops([InputEvent(EV_KEY, key, 1)], [SYNC], t0, o0, trace, outcomes);
        return;
      }
      ghost var t1, o1 := trace, outcomes;
      ok := Sync();
      WroteThen([InputEvent(EV_KEY, key, 1)], [SYNC], t0, o0, t1, o1, trace, outcomes, ok);
    }

    /** Key up, then a synchronisation report. */
    method Release(key: u16) returns (ok: bool)
      modifies this
      ensures Wrote(ReleaseEvents(key), old(trace), old(outcomes), trace, outcomes, ok)
    {
      ghost var t0, o0 := trace, outcomes;
      ok := Emit(EV_KEY, key, 0);
      if !ok {
        WroteStops([InputEvent(EV_KEY, key, 0)], [SYNC], t0, o0, trace, outcomes);
        return;
      }
      ghost var t1, o1 := trace, outcomes;
      ok := Sync();
      WroteThen([InputEvent(EV_KEY, key, 0)], [SYNC], t0, o0, t1, o1, trace, outcomes, ok);
    }

    method Click(key: u16) returns (ok: bool)
      modifies this
      ensures Wrote(ClickEvents(key), old(trace), old(outcomes), trace, outcomes, ok)
    {
      ghost var t0, o0 := trace, outcomes;
      ok := Press(key);
      if !ok {
        WroteStops(PressEvents(key), ReleaseEvents(key), t0, o0, trace, outcomes);
        return;
      }
      ghost var t1, o1 := trace, outcomes;
      ok := Release(key);
      WroteThen(PressEvents(key), ReleaseEvents(key), t0, o0, t1, o1, trace, outcomes, ok);
    }

    /** Type one character; characters outside the table are skipped. */
    method TypeChar(c: char) returns (ok: bool)
      modifies this
      ensures Wrote(CharEvents(c), old(trace), old(outcomes), trace, outcomes, ok)
    {
      ghost var t0, o0 := trace, outcomes;
      match CharMap(c)
      case None =>
        ok := true;
      case Some((key, shift)) =>
        if !shift {
          ok := Click(key);
        } else {
          assert CharEvents(c) == PressEvents(KEY_LEFTSHIFT) + (ClickEvents(key) + ReleaseEvents(KEY_LEFTSHIFT));
          ok := Press(KEY_LEFTSHIFT);
          if !ok {
            WroteStops(PressEvents(KEY_LEFTSHIFT), ClickEvents(key) + ReleaseEvents(KEY_LEFTSHIFT), t0, o0, trace, outcomes);
            return;
          }
          ghost var t1, o1 := trace, outcomes;
          ok := Click(key);
          if !ok {
            WroteStops(ClickEvents(key), ReleaseEvents(KEY_LEFTSHIFT), t1, o1, trace, outcomes);
            WroteThen(PressEvents(KEY_LEFTSHIFT), ClickEvents(key) + ReleaseEvents(KEY_LEFTSHIFT), t0, o0, t1, o1, trace, outcomes, ok);
            return;
          }
          ghost var t2, o2 := trace, outcomes;
          ok := Release(KEY_LEFTSHIFT);
          WroteThen(PressEvents(KEY_LEFTSHIFT), ClickEvents(key), t0, o0, t1, o1, t2, o2, true);
          WroteThen(PressEvents(KEY_LEFTSHIFT) + ClickEvents(key), ReleaseEvents(KEY_LEFTSHIFT), t0, o0, t2, o2, trace, outcomes, ok);
        }
    }

    /** Type `text` character by character, stopping at the first failed write. */
    method Typeout(text: string) returns (ok: bool)
      modifies this
      ensures Wrote(TypeoutEvents(text), old(trace), old(outcomes), trace, outcomes, ok)
    {
      for i := 0 to |text|
        invariant Wrote(TypeoutEvents(text[..i]), old(trace), old(outcomes), trace, outcomes, true)
      {
        ghost var t1, o1 := trace, outcomes;
        ok := TypeChar(text[i]);
        PrefixSnoc(text, i);
        ConcatMapSnoc(text[..i], text[i], CharEventsBy(CharMap));
        assert CharEventsBy(CharMap)(text[i]) == CharEvents(text[i]);
        if !ok {
          WroteThen(TypeoutEvents(text[..i]), CharEvents(text[i]), old(trace), old(outcomes), t1, o1, trace, outcomes, false);
          WroteStops(TypeoutEvents(text[..i + 1]), TypeoutEvents(text[i + 1..]), old(trace), old(outcomes), trace, outcomes);
          ConcatMapAppend(text[..i + 1], text[i + 1..], CharEventsBy(CharMap));
          SplitAt(text, i + 1);
          return;
        }
        WroteThen(TypeoutEvents(text[..i]), CharEvents(text[i]), old(trace), old(outcomes), t1, o1, trace, outcomes, true);
      }
      assert text[..|text|] == text;
      ok := true;
    }

    /** Press, in order, the keys that the parts name; parts naming no key are skipped. */
    method PressKnown(parts: seq<string>) returns (ok: bool, pressed: seq<u16>)
      modifies this
      ensures Wrote(PressAll(FilterMap(parts, ParseKey)), old(trace), old(outcomes), trace, outcomes, ok)
      ensures ok ==> pressed == FilterMap(parts, ParseKey)
    {
      pressed := [];
      for i := 0 to |parts|
        invariant pressed == FilterMap(parts[..i], ParseKey)
        invariant Wrote(PressAll(pressed), old(trace), old(outcomes), trace, outcomes, true)
      {
        PrefixSnoc(parts, i);
        FilterMapSnoc(parts[..i], parts[i], ParseKey);
        var key := ParseKey(parts[i]);
        if key.Some? {
          ghost var t1, o1 := trace, outcomes;
          ok := Press(key.value);
          ConcatMapSnoc(pressed, key.value, PressEvents);
          WroteThen(PressAll(pressed), PressEvents(key.value), old(trace), old(outcomes), t1, o1, trace, outcomes, ok);
          if !ok {
            FilterMapAppend(parts[..i + 1], parts[i + 1..], ParseKey);
            SplitAt(parts, i + 1);
            PressesStop(pressed + [key.value], FilterMap(parts, ParseKey), old(trace), old(outcomes), trace, outcomes);
            return;
          }
          pressed := pressed + [key.value];
        }
      }
      assert parts[..|parts|] == parts;
      ok := true;
    }

    /** Release the keys from the last to the first. */
    method ReleaseInReverse(pressed: seq<u16>) returns (ok: bool)
      modifies this
      ensures Wrote(ReleaseReversed(pressed), old(trace), old(outcomes), trace, outcomes, ok)
    {
      var j := |pressed|;
      while j > 0
        invariant 0 <= j <= |pressed|
        invariant Wrote(ReleaseReversed(pressed[j..]), old(trace), old(outcomes), trace, outcomes, true)
      {
        ghost var t1, o1 := trace, outcomes;
        ok := Release(pressed[j - 1]);
        assert pressed[j - 1..][1..] == pressed[j..];
        WroteThen(ReleaseReversed(pressed[j..]), ReleaseEvents(pressed[j - 1]), old(trace), old(outcomes), t1, o1, trace, outcomes, ok);
        if !ok {
          ReleaseReversedAppend(pressed[..j - 1], pressed[j - 1..]);
          assert pressed[..j - 1] + pressed[j - 1..] == pressed;
          WroteStops(ReleaseReversed(pressed[j - 1..]), ReleaseReversed(pressed[..j - 1]), old(trace), old(outcomes), trace, outcomes);
          return;
        }
        j := j - 1;
      }
      assert pressed[0..] == pressed;
      ok := true;
    }

    /**
     * Play a chord such as "ctrl+shift+t": press the known keys in order,
     * then release the pressed keys in reverse order.
     */
    method Shortcut(shortcut: string) returns (ok: bool)
      modifies this
      ensures Wrote(ShortcutEvents(shortcut), old(trace), old(outcomes), trace, outcomes, ok)
    {
      var keys := ShortcutKeys(shortcut);
      var pressed;
      ok, pressed := PressKnown(ShortcutParts(shortcut));
      if !ok {
        WroteStops(PressAll(keys), ReleaseReversed(keys), old(trace), old(outcomes), trace, outcomes);
        return;
      }
      ghost var t1, o1 := trace, outcomes;
      ok := ReleaseInReverse(pressed);
      WroteThen(PressAll(keys), ReleaseReversed(keys), old(trace), old(outcomes), t1, o1, trace, outcomes, ok);
    }

    /**
     * Play a ','-separated sequence of chords in order; empty pieces are
     * skipped.
     */
    method Sequence(sequence: string) returns (ok: bool)
      modifies this
      ensures Wrote(SequenceEvents(sequence), old(trace), old(outcomes), trace, outcomes, ok)
    {
      var pieces := Split(sequence, ',');
      ghost var chords: seq<string> := [];
      for i := 0 to |pieces|
        invariant chords == FilterMap(pieces[..i], Chord)
        invariant Wrote(ConcatMap(chords, ShortcutEvents), old(trace), old(outcomes), trace, outcomes, true)
      {
        PrefixSnoc(pieces, i);
        FilterMapSnoc(pieces[..i], pieces[i], Chord);
        var part := Trim(pieces[i]);
        if part != "" {
          ghost var t1, o1 := trace, outcomes;
          ok := Shortcut(part);
          ConcatMapSnoc(chords, part, ShortcutEvents);
          WroteThen(ConcatMap(chords, ShortcutEvents), ShortcutEvents(part), old(trace), old(outcomes), t1, o1, trace, outcomes, ok);
          chords := chords + [part];
          if !ok {
            FilterConcatStops(pieces[..i + 1], pieces[i + 1..], Chord, ShortcutEvents, old(trace), old(outcomes), trace, outcomes);
            SplitAt(pieces, i + 1);
            return;
          }
        }
      }
      assert pieces[..|pieces|] == pieces;
      ok := true;
    }
  }
}

/**
 * The macro recorder: the chord formatter fed by the keyboard's key events,
 * the capture session that queues formatted chords, and the three-state
 * recording machine driven by the MR key and the G-keys.
 */
module Recording {
  import opened Common
  import opened Strings
  import opened Keyboard

  // ---------------------------------------------------------------------------
  // Key names
  // ---------------------------------------------------------------------------

  /** The eight modifier keys: left and right ctrl, shift, alt and meta. */
  predicate IsModifier(key: u16) {
    key == KEY_LEFTCTRL || key == KEY_RIGHTCTRL || key == KEY_LEFTSHIFT || key == KEY_RIGHTSHIFT
    || key == KEY_LEFTALT || key == KEY_RIGHTALT || key == KEY_LEFTMETA || key == KEY_RIGHTMETA
  }

  predicate IsWordChar(c: char) {
    'a' <= c <= 'z' || '0' <= c <= '9'
  }

  /** A name the way the recorder writes keys: lower-case letters and digits only. */
  predicate IsKeyWord(name: string) {
    name != [] && forall c :: c in name ==> IsWordChar(c)
  }

  /** A key word is looked up as it is written: no case to fold, no padding, no `key_` prefix. */
  lemma KeyWordLookup(name: string)
    requires IsKeyWord(name)
    ensures ParseKey(name) == KeyMap(name)
  {
    if |name| >= 4 {
      assert IsWordChar(name[3]) && name[..4][3] == name[3];
    }
    assert forall i :: 0 <= i < |name| ==> IsWordChar(name[i]);
    ParseKeyPlain(name);
  }

  /** `key_to_name`: the name a captured key is recorded under; modifiers and unknown keys have none. */
  function KeyToName(key: u16): Option<string>
  {
    match key
    case 30 => Some("a")  // KEY_A
    case 48 => Some("b")  // KEY_B
    case 46 => Some("c")  // KEY_C
    case 32 => Some("d")  // KEY_D
    case 18 => Some("e")  // KEY_E
    case 33 => Some("f")  // KEY_F
    case 34 => Some("g")  // KEY_G
    case 35 => Some("h")  // KEY_H
    case 23 => Some("i")  // KEY_I
    case 36 => Some("j")  // KEY_J
    case 37 => Some("k")  // KEY_K
    case 38 => Some("l")  // KEY_L
    case 50 => Some("m")  // KEY_M
    case 49 => Some("n")  // KEY_N
    case 24 => Some("o")  // KEY_O
    case 25 => Some("p")  // KEY_P
    case 16 => Some("q")  // KEY_Q
    case 19 => Some("r")  // KEY_R
    case 31 => Some("s")  // KEY_S
    case 20 => Some("t")  // KEY_T
    case 22 => Some("u")  // KEY_U
    case 47 => Some("v")  // KEY_V
    case 17 => Some("w")  // KEY_W
    case 45 => Some("x")  // KEY_X
    case 21 => Some("y")  // KEY_Y
    case 44 => Some("z")  // KEY_Z
    case 2 => Some("1")  // KEY_1
    case 3 => Some("2")  // KEY_2
    case 4 => Some("3")  // KEY_3
    case 5 => Some("4")  // KEY_4
    case 6 => Some("5")  // KEY_5
    case 7 => Some("6")  // KEY_6
    case 8 => Some("7")  // KEY_7
    case 9 => Some("8")  // KEY_8
    case 10 => Some("9")  // KEY_9
    case 11 => Some("0")  // KEY_0
    case 59 => Some("f1")  // KEY_F1
    case 60 => Some("f2")  // KEY_F2
    case 61 => Some("f3")  // KEY_F3
    case 62 => Some("f4")  // KEY_F4
    case 63 => Some("f5")  // KEY_F5
    case 64 => Some("f6")  // KEY_F6
    case 65 => Some("f7")  // KEY_F7
    case 66 => Some("f8")  // KEY_F8
    case 67 => Some("f9")  // KEY_F9
    case 68 => Some("f10")  // KEY_F10
    case 87 => Some("f11")  // KEY_F11
    case 88 => Some("f12")  // KEY_F12
    case 1 => Some("esc")  // KEY_ESC
    case 15 => Some("tab")  // KEY_TAB
    case 58 => Some("capslock")  // KEY_CAPSLOCK
    case 57 => Some("space")  // KEY_SPACE
    case 28 => Some("enter")  // KEY_ENTER
    case 14 => Some("backspace")  // KEY_BACKSPACE
    case 111 => Some("delete")  // KEY_DELETE
    case 110 => Some("insert")  // KEY_INSERT
    case 102 => Some("home")  // KEY_HOME
    case 107 => Some("end")  // KEY_END
    case 104 => Some("pageup")  // KEY_PAGEUP
    case 109 => Some("pagedown")  // KEY_PAGEDOWN
    case 103 => Some("up")  // KEY_UP
    case 108 => Some("down")  // KEY_DOWN
    case 105 => Some("left")  // KEY_LEFT
    case 106 => Some("right")  // KEY_RIGHT
    case 12 => Some("minus")  // KEY_MINUS
    case 13 => Some("equal")  // KEY_EQUAL
    case 26 => Some("leftbrace")  // KEY_LEFTBRACE
    case 27 => Some("rightbrace")  // KEY_RIGHTBRACE
    case 39 => Some("semicolon")  // KEY_SEMICOLON
    case 40 => Some("apostrophe")  // KEY_APOSTROPHE
    case 41 => Some("grave")  // KEY_GRAVE
    case 43 => Some("backslash")  // KEY_BACKSLASH
    case 51 => Some("comma")  // KEY_COMMA
    case 52 => Some("dot")  // KEY_DOT
    case 53 => Some("slash")  // KEY_SLASH
    case 82 => Some("kp0")  // KEY_KP0
    case 79 => Some("kp1")  // KEY_KP1
    case 80 => Some("kp2")  // KEY_KP2
    case 81 => Some("kp3")  // KEY_KP3
    case 75 => Some("kp4")  // KEY_KP4
    case 76 => Some("kp5")  // KEY_KP5
    case 77 => Some("kp6")  // KEY_KP6
    case 71 => Some("kp7")  // KEY_KP7
    case 72 => Some("kp8")  // KEY_KP8
    case 73 => Some("kp9")  // KEY_KP9
    case 74 => Some("kpminus")  // KEY_KPMINUS
    case 78 => Some("kpplus")  // KEY_KPPLUS
    case 96 => Some("kpenter")  // KEY_KPENTER
    case 83 => Some("kpdot")  // KEY_KPDOT
    case 98 => Some("kpslash")  // KEY_KPSLASH
    case 55 => Some("kpasterisk")  // KEY_KPASTERISK
    case 99 => Some("printscreen")  // KEY_SYSRQ
    case 70 => Some("scrolllock")  // KEY_SCROLLLOCK
    case 119 => Some("pause")  // KEY_PAUSE
    case _ => None
  }

  /** Modifier keys have no name of their own: they are recorded only as part of a chord. */
  lemma ModifiersHaveNoName(key: u16)
    requires IsModifier(key)
    ensures KeyToName(key) == None
  {
    if key == KEY_LEFTCTRL {
    } else if key == KEY_RIGHTCTRL {
    } else if key == KEY_LEFTSHIFT {
    } else if key == KEY_RIGHTSHIFT {
    } else if key == KEY_LEFTALT {
    } else if key == KEY_RIGHTALT {
    } else if key == KEY_LEFTMETA {
    }
  }

  /** The keys whose recorded names the key table does not know. */
  const UNREPLAYABLE: set<u16> := {55, 70, 71, 72, 73, 74, 75, 76, 77, 78, 79, 80, 81, 82, 83, 96, 98, 99, 119}

  /**
   * The key table maps every recorded name back to the key it was recorded
   * from, except the names of the keypad, print-screen, scroll-lock and pause
   * keys, which it does not know at all.
   */
  predicate NameReplays(key: u16) {
    KeyToName(key).Some? ==> KeyMap(KeyToName(key).value) == if key in UNREPLAYABLE then None else Some(key)
  }

  /**
   * The proof goes through the key table one key or two at a time: each
   * helper below unfolds both tables for a short range of codes only. One
   * proof over the whole table, or over wider ranges, asks the solver for
   * more than its resource limit.
   */
  lemma KeyNamesReplay(key: u16)
    ensures NameReplays(key)
  {
    if key <= 1 { KeyNamesReplay0(key); }
    else if key <= 2 { KeyNamesReplay1(key); }
    else if key <= 3 { KeyNamesReplay2(key); }
    else if key <= 4 { KeyNamesReplay3(key); }
    else if key <= 5 { KeyNamesReplay4(key); }
    else if key <= 6 { KeyNamesReplay5(key); }
    else if key <= 7 { KeyNamesReplay6(key); }
    else if key <= 8 { KeyNamesReplay7(key); }
    else if key <= 9 { KeyNamesReplay8(key); }
    else if key <= 10 { KeyNamesReplay9(key); }
    else if key <= 11 { KeyNamesReplay10(key); }
    else if key <= 12 { KeyNamesReplay11(key); }
    else if key <= 13 { KeyNamesReplay12(key); }
    else if key <= 14 { KeyNamesReplay13(key); }
    else if key <= 15 { KeyNamesReplay14(key); }
    else if key <= 16 { KeyNamesReplay15(key); }
    else if key <= 17 { KeyNamesReplay16(key); }
    else if key <= 18 { KeyNamesReplay17(key); }
    else if key <= 19 { KeyNamesReplay18(key); }
    else if key <= 20 { KeyNamesReplay19(key); }
    else if key <= 21 { KeyNamesReplay20(key); }
    else if key <= 22 { KeyNamesReplay21(key); }
    else if key <= 23 { KeyNamesReplay22(key); }
    else if key <= 24 { KeyNamesReplay23(key); }
    else if key <= 25 { KeyNamesReplay24(key); }
    else if key <= 26 { KeyNamesReplay25(key); }
    else if key <= 27 { KeyNamesReplay26(key); }
    else if key <= 29 { KeyNamesReplay27(key); }
    else if key <= 30 { KeyNamesReplay28(key); }
    else if key <= 31 { KeyNamesReplay29(key); }
    else if key <= 32 { KeyNamesReplay30(key); }
    else if key <= 33 { KeyNamesReplay31(key); }
    else if key <= 34 { KeyNamesReplay32(key); }
    else if key <= 35 { KeyNamesReplay33(key); }
    else if key <= 36 { KeyNamesReplay34(key); }
    else if key <= 37 { KeyNamesReplay35(key); }
    else if key <= 38 { KeyNamesReplay36(key); }
    else if key <= 39 { KeyNamesReplay37(key); }
    else if key <= 40 { KeyNamesReplay38(key); }
    else if key <= 42 { KeyNamesReplay39(key); }
    else if key <= 43 { KeyNamesReplay40(key); }
    else if key <= 44 { KeyNamesReplay41(key); }
    else if key <= 45 { KeyNamesReplay42(key); }
    else if key <= 46 { KeyNamesReplay43(key); }
    else if key <= 47 { KeyNamesReplay44(key); }
    else if key <= 48 { KeyNamesReplay45(key); }
    else if key <= 49 { KeyNamesReplay46(key); }
    else if key <= 50 { KeyNamesReplay47(key); }
    else if key <= 51 { KeyNamesReplay48(key); }
    else if key <= 52 { KeyNamesReplay49(key); }
    else if key <= 54 { KeyNamesReplay50(key); }
    else if key <= 56 { KeyNamesReplay51(key); }
    else if key <= 57 { KeyNamesReplay52(key); }
    else if key <= 58 { KeyNamesReplay53(key); }
    else if key <= 59 { KeyNamesReplay54(key); }
    else if key <= 60 { KeyNamesReplay55(key); }
    else if key <= 61 { KeyNamesReplay56(key); }
    else if key <= 62 { KeyNamesReplay57(key); }
    else if key <= 63 { KeyNamesReplay58(key); }
    else if key <= 64 { KeyNamesReplay59(key); }
    else if key <= 65 { KeyNamesReplay60(key); }
    else if key <= 66 { KeyNamesReplay61(key); }
    else if key <= 67 { KeyNamesReplay62(key); }
    else if key <= 69 { KeyNamesReplay63(key); }
    else if key <= 70 { KeyNamesReplay64(key); }
    else if key <= 71 { KeyNamesReplay65(key); }
    else if key <= 72 { KeyNamesReplay66(key); }
    else if key <= 73 { KeyNamesReplay67(key); }
    else if key <= 74 { KeyNamesReplay68(key); }
    else if key <= 75 { KeyNamesReplay69(key); }
    else if key <= 76 { KeyNamesReplay70(key); }
    else if key <= 77 { KeyNamesReplay71(key); }
    else if key <= 78 { KeyNamesReplay72(key); }
    else if key <= 79 { KeyNamesReplay73(key); }
    else if key <= 80 { KeyNamesReplay74(key); }
    else if key <= 81 { KeyNamesReplay75(key); }
    else if key <= 82 { KeyNamesReplay76(key); }
    else if key <= 86 { KeyNamesReplay77(key); }
    else if key <= 87 { KeyNamesReplay78(key); }
    else if key <= 95 { KeyNamesReplay79(key); }
    else if key <= 97 { KeyNamesReplay80(key); }
    else if key <= 98 { KeyNamesReplay81(key); }
    else if key <= 101 { KeyNamesReplay82(key); }
    else if key <= 102 { KeyNamesReplay83(key); }
    else if key <= 103 { KeyNamesReplay84(key); }
    else if key <= 104 { KeyNamesReplay85(key); }
    else if key <= 105 { KeyNamesReplay86(key); }
    else if key <= 106 { KeyNamesReplay87(key); }
    else if key <= 107 { KeyNamesReplay88(key); }
    else if key <= 108 { KeyNamesReplay89(key); }
    else if key <= 109 { KeyNamesReplay90(key); }
    else if key <= 110 { KeyNamesReplay91(key); }
    else if key <= 118 { KeyNamesReplay92(key); }
    else { KeyNamesReplay93(key); }
  }

  lemma KeyNamesReplay0(key: u16)
    requires key <= 1
    ensures NameReplays(key)
  {
    match key
    case 1 =>
    case _ =>
  }

  lemma KeyNamesReplay1(key: u16)
    requires 2 <= key <= 2
    ensures NameReplays(key)
  {
    match key
    case 2 =>
    case _ =>
  }

  lemma KeyNamesReplay2(key: u16)
    requires 3 <= key <= 3
    ensures NameReplays(key)
  {
    match key
    case 3 =>
    case _ =>
  }

  lemma KeyNamesReplay3(key: u16)
    requires 4 <= key <= 4
    ensures NameReplays(key)
  {
    match key
    case 4 =>
    case _ =>
  }

  lemma KeyNamesReplay4(key: u16)
    requires 5 <= key <= 5
    ensures NameReplays(key)
  {
    match key
    case 5 =>
    case _ =>
  }

  lemma KeyNamesReplay5(key: u16)
    requires 6 <= key <= 6
    ensures NameReplays(key)
  {
    match key
    case 6 =>
    case _ =>
  }

  lemma KeyNamesReplay6(key: u16)
    requires 7 <= key <= 7
    ensures NameReplays(key)
  {
    match key
    case 7 =>
    case _ =>
  }

  lemma KeyNamesReplay7(key: u16)
    requires 8 <= key <= 8
    ensures NameReplays(key)
  {
    match key
    case 8 =>
    case _ =>
  }

  lemma KeyNamesReplay8(key: u16)
    requires 9 <= key <= 9
    ensures NameReplays(key)
  {
    match key
    case 9 =>
    case _ =>
  }

  lemma KeyNamesReplay9(key: u16)
    requires 10 <= key <= 10
    ensures NameReplays(key)
  {
    match key
    case 10 =>
    case _ =>
  }

  lemma KeyNamesReplay10(key: u16)
    requires 11 <= key <= 11
    ensures NameReplays(key)
  {
    match key
    case 11 =>
    case _ =>
  }

  lemma KeyNamesReplay11(key: u16)
    requires 12 <= key <= 12
    ensures NameReplays(key)
  {
    match key
    case 12 =>
    case _ =>
  }

  lemma KeyNamesReplay12(key: u16)
    requires 13 <= key <= 13
    ensures NameReplays(key)
  {
    match key
    case 13 =>
    case _ =>
  }

  lemma KeyNamesReplay13(key: u16)
    requires 14 <= key <= 14
    ensures NameReplays(key)
  {
    match key
    case 14 =>
    case _ =>
  }

  lemma KeyNamesReplay14(key: u16)
    requires 15 <= key <= 15
    ensures NameReplays(key)
  {
    match key
    case 15 =>
    case _ =>
  }

  lemma KeyNamesReplay15(key: u16)
    requires 16 <= key <= 16
    ensures NameReplays(key)
  {
    match key
    case 16 =>
    case _ =>
  }

  lemma KeyNamesReplay16(key: u16)
    requires 17 <= key <= 17
    ensures NameReplays(key)
  {
    match key
    case 17 =>
    case _ =>
  }

  lemma KeyNamesReplay17(key: u16)
    requires 18 <= key <= 18
    ensures NameReplays(key)
  {
    match key
    case 18 =>
    case _ =>
  }

  lemma KeyNamesReplay18(key: u16)
    requires 19 <= key <= 19
    ensures NameReplays(key)
  {
    match key
    case 19 =>
    case _ =>
  }

  lemma KeyNamesReplay19(key: u16)
    requires 20 <= key <= 20
    ensures NameReplays(key)
  {
    match key
    case 20 =>
    case _ =>
  }

  lemma KeyNamesReplay20(key: u16)
    requires 21 <= key <= 21
    ensures NameReplays(key)
  {
    match key
    case 21 =>
    case _ =>
  }

  lemma KeyNamesReplay21(key: u16)
    requires 22 <= key <= 22
    ensures NameReplays(key)
  {
    match key
    case 22 =>
    case _ =>
  }

  lemma KeyNamesReplay22(key: u16)
    requires 23 <= key <= 23
    ensures NameReplays(key)
  {
    match key
    case 23 =>
    case _ =>
  }

  lemma KeyNamesReplay23(key: u16)
    requires 24 <= key <= 24
    ensures NameReplays(key)
  {
    match key
    case 24 =>
    case _ =>
  }

  lemma KeyNamesReplay24(key: u16)
    requires 25 <= key <= 25
    ensures NameReplays(key)
  {
    match key
    case 25 =>
    case _ =>
  }

  lemma KeyNamesReplay25(key: u16)
    requires 26 <= key <= 26
    ensures NameReplays(key)
  {
    match key
    case 26 =>
    case _ =>
  }

  lemma KeyNamesReplay26(key: u16)
    requires 27 <= key <= 27
    ensures NameReplays(key)
  {
    match key
    case 27 =>
    case _ =>
  }

  lemma KeyNamesReplay27(key: u16)
    requires 28 <= key <= 29
    ensures NameReplays(key)
  {
    match key
    case 28 =>
    case _ =>
  }

  lemma KeyNamesReplay28(key: u16)
    requires 30 <= key <= 30
    ensures NameReplays(key)
  {
    match key
    case 30 =>
    case _ =>
  }

  lemma KeyNamesReplay29(key: u16)
    requires 31 <= key <= 31
    ensures NameReplays(key)
  {
    match key
    case 31 =>
    case _ =>
  }

  lemma KeyNamesReplay30(key: u16)
    requires 32 <= key <= 32
    ensures NameReplays(key)
  {
    match key
    case 32 =>
    case _ =>
  }

  lemma KeyNamesReplay31(key: u16)
    requires 33 <= key <= 33
    ensures NameReplays(key)
  {
    match key
    case 33 =>
    case _ =>
  }

  lemma KeyNamesReplay32(key: u16)
    requires 34 <= key <= 34
    ensures NameReplays(key)
  {
    match key
    case 34 =>
    case _ =>
  }

  lemma KeyNamesReplay33(key: u16)
    requires 35 <= key <= 35
    ensures NameReplays(key)
  {
    match key
    case 35 =>
    case _ =>
  }

  lemma KeyNamesReplay34(key: u16)
    requires 36 <= key <= 36
    ensures NameReplays(key)
  {
    match key
    case 36 =>
    case _ =>
  }

  lemma KeyNamesReplay35(key: u16)
    requires 37 <= key <= 37
    ensures NameReplays(key)
  {
    match key
    case 37 =>
    case _ =>
  }

  lemma KeyNamesReplay36(key: u16)
    requires 38 <= key <= 38
    ensures NameReplays(key)
  {
    match key
    case 38 =>
    case _ =>
  }

  lemma KeyNamesReplay37(key: u16)
    requires 39 <= key <= 39
    ensures NameReplays(key)
  {
    match key
    case 39 =>
    case _ =>
  }

  lemma KeyNamesReplay38(key: u16)
    requires 40 <= key <= 40
    ensures NameReplays(key)
  {
    match key
    case 40 =>
    case _ =>
  }

  lemma KeyNamesReplay39(key: u16)
    requires 41 <= key <= 42
    ensures NameReplays(key)
  {
    match key
    case 41 =>
    case _ =>
  }

  lemma KeyNamesReplay40(key: u16)
    requires 43 <= key <= 43
    ensures NameReplays(key)
  {
    match key
    case 43 =>
    case _ =>
  }

  lemma KeyNamesReplay41(key: u16)
    requires 44 <= key <= 44
    ensures NameReplays(key)
  {
    match key
    case 44 =>
    case _ =>
  }

  lemma KeyNamesReplay42(key: u16)
    requires 45 <= key <= 45
    ensures NameReplays(key)
  {
    match key
    case 45 =>
    case _ =>
  }

  lemma KeyNamesReplay43(key: u16)
    requires 46 <= key <= 46
    ensures NameReplays(key)
  {
    match key
    case 46 =>
    case _ =>
  }

  lemma KeyNamesReplay44(key: u16)
    requires 47 <= key <= 47
    ensures NameReplays(key)
  {
    match key
    case 47 =>
    case _ =>
  }

  lemma KeyNamesReplay45(key: u16)
    requires 48 <= key <= 48
    ensures NameReplays(key)
  {
    match key
    case 48 =>
    case _ =>
  }

  lemma KeyNamesReplay46(key: u16)
    requires 49 <= key <= 49
    ensures NameReplays(key)
  {
    match key
    case 49 =>
    case _ =>
  }

  lemma KeyNamesReplay47(key: u16)
    requires 50 <= key <= 50
    ensures NameReplays(key)
  {
    match key
    case 50 =>
    case _ =>
  }

  lemma KeyNamesReplay48(key: u16)
    requires 51 <= key <= 51
    ensures NameReplays(key)
  {
    match key
    case 51 =>
    case _ =>
  }

  lemma KeyNamesReplay49(key: u16)
    requires 52 <= key <= 52
    ensures NameReplays(key)
  {
    match key
    case 52 =>
    case _ =>
  }

  lemma KeyNamesReplay50(key: u16)
    requires 53 <= key <= 54
    ensures NameReplays(key)
  {
    match key
    case 53 =>
    case _ =>
  }

  lemma KeyNamesReplay51(key: u16)
    requires 55 <= key <= 56
    ensures NameReplays(key)
  {
    match key
    case 55 =>
    case _ =>
  }

  lemma KeyNamesReplay52(key: u16)
    requires 57 <= key <= 57
    ensures NameReplays(key)
  {
    match key
    case 57 =>
    case _ =>
  }

  lemma KeyNamesReplay53(key: u16)
    requires 58 <= key <= 58
    ensures NameReplays(key)
  {
    match key
    case 58 =>
    case _ =>
  }

  lemma KeyNamesReplay54(key: u16)
    requires 59 <= key <= 59
    ensures NameReplays(key)
  {
    match key
    case 59 =>
    case _ =>
  }

  lemma KeyNamesReplay55(key: u16)
    requires 60 <= key <= 60
    ensures NameReplays(key)
  {
    match key
    case 60 =>
    case _ =>
  }

  lemma KeyNamesReplay56(key: u16)
    requires 61 <= key <= 61
    ensures NameReplays(key)
  {
    match key
    case 61 =>
    case _ =>
  }

  lemma KeyNamesReplay57(key: u16)
    requires 62 <= key <= 62
    ensures NameReplays(key)
  {
    match key
    case 62 =>
    case _ =>
  }

  lemma KeyNamesReplay58(key: u16)
    requires 63 <= key <= 63
    ensures NameReplays(key)
  {
    match key
    case 63 =>
    case _ =>
  }

  lemma KeyNamesReplay59(key: u16)
    requires 64 <= key <= 64
    ensures NameReplays(key)
  {
    match key
    case 64 =>
    case _ =>
  }

  lemma KeyNamesReplay60(key: u16)
    requires 65 <= key <= 65
    ensures NameReplays(key)
  {
    match key
    case 65 =>
    case _ =>
  }

  lemma KeyNamesReplay61(key: u16)
    requires 66 <= key <= 66
    ensures NameReplays(key)
  {
    match key
    case 66 =>
    case _ =>
  }

  lemma KeyNamesReplay62(key: u16)
    requires 67 <= key <= 67
    ensures NameReplays(key)
  {
    match key
    case 67 =>
    case _ =>
  }

  lemma KeyNamesReplay63(key: u16)
    requires 68 <= key <= 69
    ensures NameReplays(key)
  {
    match key
    case 68 =>
    case _ =>
  }

  lemma KeyNamesReplay64(key: u16)
    requires 70 <= key <= 70
    ensures NameReplays(key)
  {
    match key
    case 70 =>
    case _ =>
  }

  lemma KeyNamesReplay65(key: u16)
    requires 71 <= key <= 71
    ensures NameReplays(key)
  {
    match key
    case 71 =>
    case _ =>
  }

  lemma KeyNamesReplay66(key: u16)
    requires 72 <= key <= 72
    ensures NameReplays(key)
  {
    match key
    case 72 =>
    case _ =>
  }

  lemma KeyNamesReplay67(key: u16)
    requires 73 <= key <= 73
    ensures NameReplays(key)
  {
    match key
    case 73 =>
    case _ =>
  }

  lemma KeyNamesReplay68(key: u16)
    requires 74 <= key <= 74
    ensures NameReplays(key)
  {
    match key
    case 74 =>
    case _ =>
  }

  lemma KeyNamesReplay69(key: u16)
    requires 75 <= key <= 75
    ensures NameReplays(key)
  {
    match key
    case 75 =>
    case _ =>
  }

  lemma KeyNamesReplay70(key: u16)
    requires 76 <= key <= 76
    ensures NameReplays(key)
  {
    match key
    case 76 =>
    case _ =>
  }

  lemma KeyNamesReplay71(key: u16)
    requires 77 <= key <= 77
    ensures NameReplays(key)
  {
    match key
    case 77 =>
    case _ =>
  }

  lemma KeyNamesReplay72(key: u16)
    requires 78 <= key <= 78
    ensures NameReplays(key)
  {
    match key
    case 78 =>
    case _ =>
  }

  lemma KeyNamesReplay73(key: u16)
    requires 79 <= key <= 79
    ensures NameReplays(key)
  {
    match key
    case 79 =>
    case _ =>
  }

  lemma KeyNamesReplay74(key: u16)
    requires 80 <= key <= 80
    ensures NameReplays(key)
  {
    match key
    case 80 =>
    case _ =>
  }

  lemma KeyNamesReplay75(key: u16)
    requires 81 <= key <= 81
    ensures NameReplays(key)
  {
    match key
    case 81 =>
    case _ =>
  }

  lemma KeyNamesReplay76(key: u16)
    requires 82 <= key <= 82
    ensures NameReplays(key)
  {
    match key
    case 82 =>
    case _ =>
  }

  lemma KeyNamesReplay77(key: u16)
    requires 83 <= key <= 86
    ensures NameReplays(key)
  {
    match key
    case 83 =>
    case _ =>
  }

  lemma KeyNamesReplay78(key: u16)
    requires 87 <= key <= 87
    ensures NameReplays(key)
  {
    match key
    case 87 =>
    case _ =>
  }

  lemma KeyNamesReplay79(key: u16)
    requires 88 <= key <= 95
    ensures NameReplays(key)
  {
    match key
    case 88 =>
    case _ =>
  }

  lemma KeyNamesReplay80(key: u16)
    requires 96 <= key <= 97
    ensures NameReplays(key)
  {
    match key
    case 96 =>
    case _ =>
  }

  lemma KeyNamesReplay81(key: u16)
    requires 98 <= key <= 98
    ensures NameReplays(key)
  {
    match key
    case 98 =>
    case _ =>
  }

  lemma KeyNamesReplay82(key: u16)
    requires 99 <= key <= 101
    ensures NameReplays(key)
  {
    match key
    case 99 =>
    case _ =>
  }

  lemma KeyNamesReplay83(key: u16)
    requires 102 <= key <= 102
    ensures NameReplays(key)
  {
    match key
    case 102 =>
    case _ =>
  }

  lemma KeyNamesReplay84(key: u16)
    requires 103 <= key <= 103
    ensures NameReplays(key)
  {
    match key
    case 103 =>
    case _ =>
  }

  lemma KeyNamesReplay85(key: u16)
    requires 104 <= key <= 104
    ensures NameReplays(key)
  {
    match key
    case 104 =>
    case _ =>
  }

  lemma KeyNamesReplay86(key: u16)
    requires 105 <= key <= 105
    ensures NameReplays(key)
  {
    match key
    case 105 =>
    case _ =>
  }

  lemma KeyNamesReplay87(key: u16)
    requires 106 <= key <= 106
    ensures NameReplays(key)
  {
    match key
    case 106 =>
    case _ =>
  }

  lemma KeyNamesReplay88(key: u16)
    requires 107 <= key <= 107
    ensures NameReplays(key)
  {
    match key
    case 107 =>
    case _ =>
  }

  lemma KeyNamesReplay89(key: u16)
    requires 108 <= key <= 108
    ensures NameReplays(key)
  {
    match key
    case 108 =>
    case _ =>
  }

  lemma KeyNamesReplay90(key: u16)
    requires 109 <= key <= 109
    ensures NameReplays(key)
  {
    match key
    case 109 =>
    case _ =>
  }

  lemma KeyNamesReplay91(key: u16)
    requires 110 <= key <= 110
    ensures NameReplays(key)
  {
    match key
    case 110 =>
    case _ =>
  }

  lemma KeyNamesReplay92(key: u16)
    requires 111 <= key <= 118
    ensures NameReplays(key)
  {
    match key
    case 111 =>
    case _ =>
  }

  lemma KeyNamesReplay93(key: u16)
    requires 119 <= key
    ensures NameReplays(key)
  {
    match key
    case 119 =>
    case _ =>
  }

  /**
   * Every recorded name is a plain lower-case word, so a chord can be split
   * back into it. As for KeyNamesReplay, the helpers take a few codes each,
   * to keep every proof within the solver's resource limit.
   */
  lemma KeyNamesAreWords(key: u16)
    ensures KeyToName(key).Some? ==> IsKeyWord(KeyToName(key).value)
  {
    if key <= 2 { KeyNamesAreWords0(key); }
    else if key <= 4 { KeyNamesAreWords1(key); }
    else if key <= 6 { KeyNamesAreWords2(key); }
    else if key <= 8 { KeyNamesAreWords3(key); }
    else if key <= 10 { KeyNamesAreWords4(key); }
    else if key <= 12 { KeyNamesAreWords5(key); }
    else if key <= 14 { KeyNamesAreWords6(key); }
    else if key <= 16 { KeyNamesAreWords7(key); }
    else if key <= 18 { KeyNamesAreWords8(key); }
    else if key <= 20 { KeyNamesAreWords9(key); }
    else if key <= 22 { KeyNamesAreWords10(key); }
    else if key <= 24 { KeyNamesAreWords11(key); }
    else if key <= 26 { KeyNamesAreWords12(key); }
    else if key <= 29 { KeyNamesAreWords13(key); }
    else if key <= 31 { KeyNamesAreWords14(key); }
    else if key <= 33 { KeyNamesAreWords15(key); }
    else if key <= 35 { KeyNamesAreWords16(key); }
    else if key <= 37 { KeyNamesAreWords17(key); }
    else if key <= 39 { KeyNamesAreWords18(key); }
    else if key <= 42 { KeyNamesAreWords19(key); }
    else if key <= 44 { KeyNamesAreWords20(key); }
    else if key <= 46 { KeyNamesAreWords21(key); }
    else if key <= 48 { KeyNamesAreWords22(key); }
    else if key <= 50 { KeyNamesAreWords23(key); }
    else if key <= 52 { KeyNamesAreWords24(key); }
    else if key <= 56 { KeyNamesAreWords25(key); }
    else if key <= 58 { KeyNamesAreWords26(key); }
    else if key <= 60 { KeyNamesAreWords27(key); }
    else if key <= 62 { KeyNamesAreWords28(key); }
    else if key <= 64 { KeyNamesAreWords29(key); }
    else if key <= 66 { KeyNamesAreWords30(key); }
    else if key <= 69 { KeyNamesAreWords31(key); }
    else if key <= 71 { KeyNamesAreWords32(key); }
    else if key <= 73 { KeyNamesAreWords33(key); }
    else if key <= 75 { KeyNamesAreWords34(key); }
    else if key <= 77 { KeyNamesAreWords35(key); }
    else if key <= 79 { KeyNamesAreWords36(key); }
    else if key <= 81 { KeyNamesAreWords37(key); }
    else if key <= 86 { KeyNamesAreWords38(key); }
    else if key <= 95 { KeyNamesAreWords39(key); }
    else if key <= 98 { KeyNamesAreWords40(key); }
    else if key <= 102 { KeyNamesAreWords41(key); }
    else if key <= 104 { KeyNamesAreWords42(key); }
    else if key <= 106 { KeyNamesAreWords43(key); }
    else if key <= 108 { KeyNamesAreWords44(key); }
    else if key <= 110 { KeyNamesAreWords45(key); }
    else { KeyNamesAreWords46(key); }
  }

  lemma KeyNamesAreWords0(key: u16)
    requires key <= 2
    ensures KeyToName(key).Some? ==> IsKeyWord(KeyToName(key).value)
  {
    match key
    case 1 =>
    case 2 =>
    case _ =>
  }

  lemma KeyNamesAreWords1(key: u16)
    requires 3 <= key <= 4
    ensures KeyToName(key).Some? ==> IsKeyWord(KeyToName(key).value)
  {
    match key
    case 3 =>
    case 4 =>
    case _ =>
  }

  lemma KeyNamesAreWords2(key: u16)
    requires 5 <= key <= 6
    ensures KeyToName(key).Some? ==> IsKeyWord(KeyToName(key).value)
  {
    match key
    case 5 =>
    case 6 =>
    case _ =>
  }

  lemma KeyNamesAreWords3(key: u16)
    requires 7 <= key <= 8
    ensures KeyToName(key).Some? ==> IsKeyWord(KeyToName(key).value)
  {
    match key
    case 7 =>
    case 8 =>
    case _ =>
  }

  lemma KeyNamesAreWords4(key: u16)
    requires 9 <= key <= 10
    ensures KeyToName(key).Some? ==> IsKeyWord(KeyToName(key).value)
  {
    match key
    case 9 =>
    case 10 =>
    case _ =>
  }

  lemma KeyNamesAreWords5(key: u16)
    requires 11 <= key <= 12
    ensures KeyToName(key).Some? ==> IsKeyWord(KeyToName(key).value)
  {
    match key
    case 11 =>
    case 12 =>
    case _ =>
  }

  lemma KeyNamesAreWords6(key: u16)
    requires 13 <= key <= 14
    ensures KeyToName(key).Some? ==> IsKeyWord(KeyToName(key).value)
  {
    match key
    case 13 =>
    case 14 =>
    case _ =>
  }

  lemma KeyNamesAreWords7(key: u16)
    requires 15 <= key <= 16
    ensures KeyToName(key).Some? ==> IsKeyWord(KeyToName(key).value)
  {
    match key
    case 15 =>
    case 16 =>
    case _ =>
  }

  lemma KeyNamesAreWords8(key: u16)
    requires 17 <= key <= 18
    ensures KeyToName(key).Some? ==> IsKeyWord(KeyToName(key).value)
  {
    match key
    case 17 =>
    case 18 =>
    case _ =>
  }

  lemma KeyNamesAreWords9(key: u16)
    requires 19 <= key <= 20
    ensures KeyToName(key).Some? ==> IsKeyWord(KeyToName(key).value)
  {
    match key
    case 19 =>
    case 20 =>
    case _ =>
  }

  lemma KeyNamesAreWords10(key: u16)
    requires 21 <= key <= 22
    ensures KeyToName(key).Some? ==> IsKeyWord(KeyToName(key).value)
  {
    match key
    case 21 =>
    case 22 =>
    case _ =>
  }

  lemma KeyNamesAreWords11(key: u16)
    requires 23 <= key <= 24
    ensures KeyToName(key).Some? ==> IsKeyWord(KeyToName(key).value)
  {
    match key
    case 23 =>
    case 24 =>
    case _ =>
  }

  lemma KeyNamesAreWords12(key: u16)
    requires 25 <= key <= 26
    ensures KeyToName(key).Some? ==> IsKeyWord(KeyToName(key).value)
  {
    match key
    case 25 =>
    case 26 =>
    case _ =>
  }

  lemma KeyNamesAreWords13(key: u16)
    requires 27 <= key <= 29
    ensures KeyToName(key).Some? ==> IsKeyWord(KeyToName(key).value)
  {
    match key
    case 27 =>
    case 28 =>
    case _ =>
  }

  lemma KeyNamesAreWords14(key: u16)
    requires 30 <= key <= 31
    ensures KeyToName(key).Some? ==> IsKeyWord(KeyToName(key).value)
  {
    match key
    case 30 =>
    case 31 =>
    case _ =>
  }

  lemma KeyNamesAreWords15(key: u16)
    requires 32 <= key <= 33
    ensures KeyToName(key).Some? ==> IsKeyWord(KeyToName(key).value)
  {
    match key
    case 32 =>
    case 33 =>
    case _ =>
  }

  lemma KeyNamesAreWords16(key: u16)
    requires 34 <= key <= 35
    ensures KeyToName(key).Some? ==> IsKeyWord(KeyToName(key).value)
  {
    match key
    case 34 =>
    case 35 =>
    case _ =>
  }

  lemma KeyNamesAreWords17(key: u16)
    requires 36 <= key <= 37
    ensures KeyToName(key).Some? ==> IsKeyWord(KeyToName(key).value)
  {
    match key
    case 36 =>
    case 37 =>
    case _ =>
  }

  lemma KeyNamesAreWords18(key: u16)
    requires 38 <= key <= 39
    ensures KeyToName(key).Some? ==> IsKeyWord(KeyToName(key).value)
  {
    match key
    case 38 =>
    case 39 =>
    case _ =>
  }

  lemma KeyNamesAreWords19(key: u16)
    requires 40 <= key <= 42
    ensures KeyToName(key).Some? ==> IsKeyWord(KeyToName(key).value)
  {
    match key
    case 40 =>
    case 41 =>
    case _ =>
  }

  lemma KeyNamesAreWords20(key: u16)
    requires 43 <= key <= 44
    ensures KeyToName(key).Some? ==> IsKeyWord(KeyToName(key).value)
  {
    match key
    case 43 =>
    case 44 =>
    case _ =>
  }

  lemma KeyNamesAreWords21(key: u16)
    requires 45 <= key <= 46
    ensures KeyToName(key).Some? ==> IsKeyWord(KeyToName(key).value)
  {
    match key
    case 45 =>
    case 46 =>
    case _ =>
  }

  lemma KeyNamesAreWords22(key: u16)
    requires 47 <= key <= 48
    ensures KeyToName(key).Some? ==> IsKeyWord(KeyToName(key).value)
  {
    match key
    case 47 =>
    case 48 =>
    case _ =>
  }

  lemma KeyNamesAreWords23(key: u16)
    requires 49 <= key <= 50
    ensures KeyToName(key).Some? ==> IsKeyWord(KeyToName(key).value)
  {
    match key
    case 49 =>
    case 50 =>
    case _ =>
  }

  lemma KeyNamesAreWords24(key: u16)
    requires 51 <= key <= 52
    ensures KeyToName(key).Some? ==> IsKeyWord(KeyToName(key).value)
  {
    match key
    case 51 =>
    case 52 =>
    case _ =>
  }

  lemma KeyNamesAreWords25(key: u16)
    requires 53 <= key <= 56
    ensures KeyToName(key).Some? ==> IsKeyWord(KeyToName(key).value)
  {
    match key
    case 53 =>
    case 55 =>
    case _ =>
  }

  lemma KeyNamesAreWords26(key: u16)
    requires 57 <= key <= 58
    ensures KeyToName(key).Some? ==> IsKeyWord(KeyToName(key).value)
  {
    match key
    case 57 =>
    case 58 =>
    case _ =>
  }

  lemma KeyNamesAreWords27(key: u16)
    requires 59 <= key <= 60
    ensures KeyToName(key).Some? ==> IsKeyWord(KeyToName(key).value)
  {
    match key
    case 59 =>
    case 60 =>
    case _ =>
  }

  lemma KeyNamesAreWords28(key: u16)
    requires 61 <= key <= 62
    ensures KeyToName(key).Some? ==> IsKeyWord(KeyToName(key).value)
  {
    match key
    case 61 =>
    case 62 =>
    case _ =>
  }

  lemma KeyNamesAreWords29(key: u16)
    requires 63 <= key <= 64
    ensures KeyToName(key).Some? ==> IsKeyWord(KeyToName(key).value)
  {
    match key
    case 63 =>
    case 64 =>
    case _ =>
  }

  lemma KeyNamesAreWords30(key: u16)
    requires 65 <= key <= 66
    ensures KeyToName(key).Some? ==> IsKeyWord(KeyToName(key).value)
  {
    match key
    case 65 =>
    case 66 =>
    case _ =>
  }

  lemma KeyNamesAreWords31(key: u16)
    requires 67 <= key <= 69
    ensures KeyToName(key).Some? ==> IsKeyWord(KeyToName(key).value)
  {
    match key
    case 67 =>
    case 68 =>
    case _ =>
  }

  lemma KeyNamesAreWords32(key: u16)
    requires 70 <= key <= 71
    ensures KeyToName(key).Some? ==> IsKeyWord(KeyToName(key).value)
  {
    match key
    case 70 =>
    case 71 =>
    case _ =>
  }

  lemma KeyNamesAreWords33(key: u16)
    requires 72 <= key <= 73
    ensures KeyToName(key).Some? ==> IsKeyWord(KeyToName(key).value)
  {
    match key
    case 72 =>
    case 73 =>
    case _ =>
  }

  lemma KeyNamesAreWords34(key: u16)
    requires 74 <= key <= 75
    ensures KeyToName(key).Some? ==> IsKeyWord(KeyToName(key).value)
  {
    match key
    case 74 =>
    case 75 =>
    case _ =>
  }

  lemma KeyNamesAreWords35(key: u16)
    requires 76 <= key <= 77
    ensures KeyToName(key).Some? ==> IsKeyWord(KeyToName(key).value)
  {
    match key
    case 76 =>
    case 77 =>
    case _ =>
  }

  lemma KeyNamesAreWords36(key: u16)
    requires 78 <= key <= 79
    ensures KeyToName(key).Some? ==> IsKeyWord(KeyToName(key).value)
  {
    match key
    case 78 =>
    case 79 =>
    case _ =>
  }

  lemma KeyNamesAreWords37(key: u16)
    requires 80 <= key <= 81
    ensures KeyToName(key).Some? ==> IsKeyWord(KeyToName(key).value)
  {
    match key
    case 80 =>
    case 81 =>
    case _ =>
  }

  lemma KeyNamesAreWords38(key: u16)
    requires 82 <= key <= 86
    ensures KeyToName(key).Some? ==> IsKeyWord(KeyToName(key).value)
  {
    match key
    case 82 =>
    case 83 =>
    case _ =>
  }

  lemma KeyNamesAreWords39(key: u16)
    requires 87 <= key <= 95
    ensures KeyToName(key).Some? ==> IsKeyWord(KeyToName(key).value)
  {
    match key
    case 87 =>
    case 88 =>
    case _ =>
  }

  lemma KeyNamesAreWords40(key: u16)
    requires 96 <= key <= 98
    ensures KeyToName(key).Some? ==> IsKeyWord(KeyToName(key).value)
  {
    match key
    case 96 =>
    case 98 =>
    case _ =>
  }

  lemma KeyNamesAreWords41(key: u16)
    requires 99 <= key <= 102
    ensures KeyToName(key).Some? ==> IsKeyWord(KeyToName(key).value)
  {
    match key
    case 99 =>
    case 102 =>
    case _ =>
  }

  lemma KeyNamesAreWords42(key: u16)
    requires 103 <= key <= 104
    ensures KeyToName(key).Some? ==> IsKeyWord(KeyToName(key).value)
  {
    match key
    case 103 =>
    case 104 =>
    case _ =>
  }

  lemma KeyNamesAreWords43(key: u16)
    requires 105 <= key <= 106
    ensures KeyToName(key).Some? ==> IsKeyWord(KeyToName(key).value)
  {
    match key
    case 105 =>
    case 106 =>
    case _ =>
  }

  lemma KeyNamesAreWords44(key: u16)
    requires 107 <= key <= 108
    ensures KeyToName(key).Some? ==> IsKeyWord(KeyToName(key).value)
  {
    match key
    case 107 =>
    case 108 =>
    case _ =>
  }

  lemma KeyNamesAreWords45(key: u16)
    requires 109 <= key <= 110
    ensures KeyToName(key).Some? ==> IsKeyWord(KeyToName(key).value)
  {
    match key
    case 109 =>
    case 110 =>
    case _ =>
  }

  lemma KeyNamesAreWords46(key: u16)
    requires 111 <= key
    ensures KeyToName(key).Some? ==> IsKeyWord(KeyToName(key).value)
  {
    match key
    case 111 =>
    case 119 =>
    case _ =>
  }

  // ---------------------------------------------------------------------------
  // Modifiers and chords
  // ---------------------------------------------------------------------------

  /** Which modifiers are held; left and right keys share a flag. */
  datatype Mods = Mods(ctrl: bool, shift: bool, alt: bool, meta: bool)

  const NO_MODS: Mods := Mods(false, false, false, false)

  /** The modifiers after a transition of `key`: a modifier key sets its own flag to `pressed`. */
  function ModsAfter(m: Mods, key: u16, pressed: bool): Mods {
    if key == KEY_LEFTCTRL || key == KEY_RIGHTCTRL then m.(ctrl := pressed)
    else if key == KEY_LEFTSHIFT || key == KEY_RIGHTSHIFT then m.(shift := pressed)
    else if key == KEY_LEFTALT || key == KEY_RIGHTALT then m.(alt := pressed)
    else if key == KEY_LEFTMETA || key == KEY_RIGHTMETA then m.(meta := pressed)
    else m
  }

  /**
   * Only modifier keys change the modifiers, each only its own flag; pressing
   * and then releasing a modifier clears its flag whatever it was before.
   */
  lemma ModsAfterOnlyOwnFlag(m: Mods, key: u16, pressed: bool)
    ensures !IsModifier(key) <==> ModsAfter(m, key, true) == m && ModsAfter(m, key, false) == m
    ensures ModsAfter(ModsAfter(m, key, true), key, false) == ModsAfter(m, key, false)
    ensures var r := ModsAfter(m, key, pressed);
      (r.ctrl != m.ctrl ==> key in {KEY_LEFTCTRL, KEY_RIGHTCTRL}) &&
      (r.shift != m.shift ==> key in {KEY_LEFTSHIFT, KEY_RIGHTSHIFT}) &&
      (r.alt != m.alt ==> key in {KEY_LEFTALT, KEY_RIGHTALT}) &&
      (r.meta != m.meta ==> key in {KEY_LEFTMETA, KEY_RIGHTMETA})
  {
  }

  /** The names of the held modifiers, in the order ctrl, alt, shift, super. */
  function HeldNames(m: Mods): seq<string> {
    (if m.ctrl then ["ctrl"] else []) + (if m.alt then ["alt"] else [])
    + (if m.shift then ["shift"] else []) + (if m.meta then ["super"] else [])
  }

  /** The codes the key table gives those names: the left-hand modifier keys. */
  function HeldCodes(m: Mods): seq<u16> {
    (if m.ctrl then [KEY_LEFTCTRL] else []) + (if m.alt then [KEY_LEFTALT] else [])
    + (if m.shift then [KEY_LEFTSHIFT] else []) + (if m.meta then [KEY_LEFTMETA] else [])
  }

  /** `format_with_key`: the held modifiers and the key's name joined by '+', if the key has a name. */
  function FormatChord(m: Mods, key: u16): Option<string> {
    match KeyToName(key)
    case None => None
    case Some(name) => Some(Join(HeldNames(m) + [name], "+"))
  }

  lemma HeldNamesAreWords(m: Mods)
    ensures forall i :: 0 <= i < |HeldNames(m)| ==> IsKeyWord(HeldNames(m)[i])
  {
  }

  /** The chord splits on '+' into the held modifiers' names followed by the key's name. */
  lemma FormatChordParts(m: Mods, key: u16)
    requires KeyToName(key).Some?
    ensures FormatChord(m, key).Some?
    ensures Split(FormatChord(m, key).value, '+') == HeldNames(m) + [KeyToName(key).value]
  {
    var parts := HeldNames(m) + [KeyToName(key).value];
    KeyNamesAreWords(key);
    HeldNamesAreWords(m);
    forall i | 0 <= i < |parts| ensures '+' !in parts[i] {
      assert IsKeyWord(parts[i]);
      assert !IsWordChar('+');
    }
    SplitJoin(parts, '+');
  }

  /** Every character of a '+'-join of key words is a word character or '+'. */
  lemma {:induction false} JoinOfWords(parts: seq<string>)
    requires |parts| >= 1 && forall i :: 0 <= i < |parts| ==> IsKeyWord(parts[i])
    ensures var j := Join(parts, "+");
      j != [] && forall c :: c in j ==> IsWordChar(c) || c == '+'
  {
    if |parts| > 1 {
      JoinOfWords(parts[1..]);
      assert IsKeyWord(parts[0]);
    } else {
      assert IsKeyWord(parts[0]);
    }
  }

  /** A formatted chord is a well-formed element of a sequence: no padding and no ','. */
  lemma FormatChordIsChord(m: Mods, key: u16)
    requires FormatChord(m, key).Some?
    ensures IsChord(FormatChord(m, key).value)
  {
    var parts := HeldNames(m) + [KeyToName(key).value];
    KeyNamesAreWords(key);
    HeldNamesAreWords(m);
    JoinOfWords(parts);
    var c := FormatChord(m, key).value;
    assert c[0] in c && c[|c| - 1] in c;
  }

  lemma LookUpOptional(held: bool, name: string, code: u16)
    requires IsKeyWord(name) && KeyMap(name) == Some(code)
    ensures FilterMap(if held then [name] else [], ParseKey) == if held then [code] else []
  {
    if held {
      KeyWordLookup(name);
      assert [name][..0] == [];
    }
  }

  /** The key table's entries for the four modifier names. */
  lemma ModifierNamesInTable()
    ensures KeyMap("ctrl") == Some(KEY_LEFTCTRL) && KeyMap("alt") == Some(KEY_LEFTALT)
    ensures KeyMap("shift") == Some(KEY_LEFTSHIFT) && KeyMap("super") == Some(KEY_LEFTMETA)
  {
  }

  lemma FilterMapOfFour<T>(a: seq<string>, b: seq<string>, c: seq<string>, d: seq<string>, f: string -> Option<T>)
    ensures FilterMap(a + b + c + d, f) == FilterMap(a, f) + FilterMap(b, f) + FilterMap(c, f) + FilterMap(d, f)
  {
    FilterMapAppend(a, b, f);
    FilterMapAppend(a + b, c, f);
    FilterMapAppend(a + b + c, d, f);
  }

  /** The key table reads the modifier names back as the left-hand modifier keys, in the same order. */
  lemma HeldNamesLookUp(m: Mods)
    ensures FilterMap(HeldNames(m), ParseKey) == HeldCodes(m)
  {
    ModifierNamesInTable();
    LookUpOptional(m.ctrl, "ctrl", KEY_LEFTCTRL);
    LookUpOptional(m.alt, "alt", KEY_LEFTALT);
    LookUpOptional(m.shift, "shift", KEY_LEFTSHIFT);
    LookUpOptional(m.meta, "super", KEY_LEFTMETA);
    FilterMapOfFour(if m.ctrl then ["ctrl"] else [], if m.alt then ["alt"] else [],
      if m.shift then ["shift"] else [], if m.meta then ["super"] else [], ParseKey);
  }

  /**
   * Replaying a recorded chord as a shortcut presses the held modifiers (as
   * their left-hand keys) and then the recorded key itself; a keypad,
   * print-screen, scroll-lock or pause key is dropped, because the key table
   * does not know its recorded name.
   */
  lemma FormatChordReplays(m: Mods, key: u16)
    requires FormatChord(m, key).Some?
    ensures ShortcutKeys(FormatChord(m, key).value) == HeldCodes(m) + (if key in UNREPLAYABLE then [] else [key])
  {
    KeyNamesAreWords(key);
    ChordOfWordReplays(m, KeyToName(key).value);
    NameLookUp(key);
  }

  lemma ChordOfWordReplays(m: Mods, name: string)
    requires IsKeyWord(name)
    ensures ShortcutKeys(Join(HeldNames(m) + [name], "+")) == HeldCodes(m) + FilterMap([name], ParseKey)
  {
    var parts := HeldNames(m) + [name];
    HeldNamesAreWords(m);
    forall i | 0 <= i < |parts| ensures '+' !in parts[i] {
      assert IsKeyWord(parts[i]);
      assert !IsWordChar('+');
    }
    SplitJoin(parts, '+');
    WordsAreTrimmed(parts);
    FilterMapAppend(HeldNames(m), [name], ParseKey);
    HeldNamesLookUp(m);
  }

  lemma WordsAreTrimmed(parts: seq<string>)
    requires forall i :: 0 <= i < |parts| ==> IsKeyWord(parts[i])
    ensures TrimAll(parts) == parts
  {
    forall i | 0 <= i < |parts| ensures TrimAll(parts)[i] == parts[i] {
      WordTrimmed(parts[i]);
    }
  }

  lemma WordTrimmed(w: string)
    requires IsKeyWord(w)
    ensures Trim(w) == w
  {
    assert w[0] in w && w[|w| - 1] in w;
    TrimUnpadded(w);
  }

  lemma NameLookUp(key: u16)
    requires KeyToName(key).Some?
    ensures FilterMap([KeyToName(key).value], ParseKey) == if key in UNREPLAYABLE then [] else [key]
  {
    var name := KeyToName(key).value;
    KeyNamesAreWords(key);
    KeyWordLookup(name);
    KeyNamesReplay(key);
    assert [name][..0] == [];
  }

  /** The modifier flags of the capture worker. */
  class ModifierState {
    var ctrl: bool
    var shift: bool
    var alt: bool
    var meta: bool

    constructor()
      ensures Held() == NO_MODS
    {
      ctrl, shift, alt, meta := false, false, false, false;
    }

    function Held(): Mods
      reads this
    {
      Mods(ctrl, shift, alt, meta)
    }

    /** Record a transition of `key`; tells whether `key` is a modifier. */
    method Update(key: u16, pressed: bool) returns (isModifier: bool)
      modifies this
      ensures isModifier == IsModifier(key)
      ensures Held() == ModsAfter(old(Held()), key, pressed)
    {
      if key == KEY_LEFTCTRL || key == KEY_RIGHTCTRL {
        ctrl := pressed;
        isModifier := true;
      } else if key == KEY_LEFTSHIFT || key == KEY_RIGHTSHIFT {
        shift := pressed;
        isModifier := true;
      } else if key == KEY_LEFTALT || key == KEY_RIGHTALT {
        alt := pressed;
        isModifier := true;
      } else if key == KEY_LEFTMETA || key == KEY_RIGHTMETA {
        meta := pressed;
        isModifier := true;
      } else {
        isModifier := false;
      }
    }

    /** The chord for `key` under the held modifiers, built part by part. */
    method FormatWithKey(key: u16) returns (r: Option<string>)
      ensures r == FormatChord(Held(), key)
    {
      var name := KeyToName(key);
      if name.None? {
        return None;
      }
      var parts: seq<string> := [];
      if ctrl {
        parts := parts + ["ctrl"];
      }
      if alt {
        parts := parts + ["alt"];
      }
      if shift {
        parts := parts + ["shift"];
      }
      if meta {
        parts := parts + ["super"];
      }
      assert parts == HeldNames(Held());
      parts := parts + [name.value];
      r := Some(Join(parts, "+"));
    }
  }

  // ---------------------------------------------------------------------------
  // Capturing key events
  // ---------------------------------------------------------------------------

  /**
   * One input event seen by the capture worker: the new modifiers and the
   * chord to send, if any. Only key events count; a key is "pressed" only for
   * value 1, so an auto-repeat (value 2) counts as a release.
   */
  function CaptureStep(m: Mods, ev: InputEvent): (r: (Mods, Option<string>))
    ensures ev.kind != EV_KEY ==> r == (m, None)
    ensures r.1.Some? ==> ev.value == 1 && !IsModifier(ev.code) && r.1 == FormatChord(m, ev.code)
    ensures !IsModifier(ev.code) ==> r.0 == m
    ensures ev.kind == EV_KEY && ev.value == 1 && !IsModifier(ev.code) ==> r == (m, FormatChord(m, ev.code))
    ensures ev.kind == EV_KEY && IsModifier(ev.code) ==> r == (ModsAfter(m, ev.code, ev.value == 1), None)
  {
    if ev.kind != EV_KEY then (m, None)
    else
      var pressed := ev.value == 1;
      if IsModifier(ev.code) then (ModsAfter(m, ev.code, pressed), None)
      else if pressed then (m, FormatChord(m, ev.code))
      else (m, None)
  }

  /** The output of a step, as a list of zero or one items. */
  function Sent<B>(out: Option<B>): seq<B> {
    if out.Some? then [out.value] else []
  }

  /**
   * Feed `items` in order through a stateful `step`: the final state and the
   * outputs, in order.
   */
  function Scan<S, A, B>(s: S, items: seq<A>, step: (S, A) -> (S, Option<B>)): (S, seq<B>) {
    if items == [] then (s, [])
    else
      var first := step(s, items[0]);
      var rest := Scan(first.0, items[1..], step);
      (rest.0, Sent(first.1) + rest.1)
  }

  /** Feeding `a` and then `b` is feeding `a + b`. */
  lemma {:induction false} ScanAppend<S, A, B>(s: S, a: seq<A>, b: seq<A>, step: (S, A) -> (S, Option<B>))
    ensures Scan(s, a + b, step).0 == Scan(Scan(s, a, step).0, b, step).0
    ensures Scan(s, a + b, step).1 == Scan(s, a, step).1 + Scan(Scan(s, a, step).0, b, step).1
  {
    if a == [] {
      assert a + b == b;
    } else {
      assert (a + b)[0] == a[0] && (a + b)[1..] == a[1..] + b;
      ScanAppend(step(s, a[0]).0, a[1..], b, step);
    }
  }

  /** Feeding one more item adds what that one item outputs. */
  lemma ScanSnoc<S, A, B>(s: S, items: seq<A>, item: A, step: (S, A) -> (S, Option<B>))
    ensures Scan(s, items + [item], step).0 == step(Scan(s, items, step).0, item).0
    ensures Scan(s, items + [item], step).1 == Scan(s, items, step).1 + Sent(step(Scan(s, items, step).0, item).1)
  {
    ScanAppend(s, items, [item], step);
    assert [item][1..] == [];
  }

  /** A batch of events seen in order: the final modifiers and the chords sent, in order. */
  function CaptureAll(m: Mods, events: seq<InputEvent>): (Mods, seq<string>) {
    Scan(m, events, CaptureStep)
  }

  /** Every chord the capture worker sends is a well-formed element of a sequence. */
  lemma {:induction false} CapturedAreChords(m: Mods, events: seq<InputEvent>)
    ensures forall i :: 0 <= i < |CaptureAll(m, events).1| ==> IsChord(CaptureAll(m, events).1[i])
    decreases |events|
  {
    if events != [] {
      var m1 := CaptureAll(m, events[..|events| - 1]).0;
      CapturedAreChords(m, events[..|events| - 1]);
      var ev := events[|events| - 1];
      assert events == events[..|events| - 1] + [ev];
      ScanSnoc(m, events[..|events| - 1], ev, CaptureStep);
      if CaptureStep(m1, ev).1.Some? {
        FormatChordIsChord(m1, ev.code);
      }
    }
  }

  /**
   * An auto-repeat of a held ctrl key clears the ctrl flag, so a key pressed
   * afterwards is recorded without ctrl.
   */
  lemma AutoRepeatDropsModifier()
    ensures CaptureStep(Mods(true, false, false, false), InputEvent(EV_KEY, KEY_LEFTCTRL, 2)) == (NO_MODS, None)
    ensures CaptureStep(NO_MODS, InputEvent(EV_KEY, KEY_A, 1)) == (NO_MODS, Some("a"))
    ensures CaptureStep(Mods(true, false, false, false), InputEvent(EV_KEY, KEY_A, 1)).1 == Some("ctrl+a")
  {
    assert KeyToName(KEY_A) == Some("a");
    assert HeldNames(NO_MODS) + ["a"] == ["a"];
    assert HeldNames(Mods(true, false, false, false)) + ["a"] == ["ctrl", "a"];
    assert Join(["a"], "+") == "a";
    assert Join(["ctrl", "a"], "+") == "ctrl" + "+" + Join(["a"], "+");
    assert "ctrl" + "+" + "a" == "ctrl+a";
  }

  /** Releases and auto-repeats of ordinary keys, and every modifier transition, send nothing. */
  lemma OnlyPressesSend(m: Mods, ev: InputEvent)
    requires ev.value != 1 || IsModifier(ev.code)
    ensures CaptureStep(m, ev).1 == None
  {
  }

  /** The test of the capture worker's modifier tracking: ctrl+a while ctrl is held, then a. */
  lemma ModifierStateExample()
    ensures IsModifier(KEY_LEFTCTRL)
    ensures ModsAfter(NO_MODS, KEY_LEFTCTRL, true).ctrl
    ensures FormatChord(ModsAfter(NO_MODS, KEY_LEFTCTRL, true), KEY_A) == Some("ctrl+a")
    ensures !ModsAfter(ModsAfter(NO_MODS, KEY_LEFTCTRL, true), KEY_LEFTCTRL, false).ctrl
    ensures FormatChord(ModsAfter(ModsAfter(NO_MODS, KEY_LEFTCTRL, true), KEY_LEFTCTRL, false), KEY_A) == Some("a")
  {
    AutoRepeatDropsModifier();
  }

  /** The names of a few keys, and none for a modifier. */
  lemma KeyToNameExamples()
    ensures KeyToName(KEY_A) == Some("a") && KeyToName(KEY_ENTER) == Some("enter")
    ensures KeyToName(59) == Some("f1") && KeyToName(KEY_LEFTCTRL) == None
  {
  }

  // ---------------------------------------------------------------------------
  // The capture worker and its channel
  // ---------------------------------------------------------------------------

  /**
   * The channel from the capture worker to the recorder: the chords sent but
   * not yet received, and whether the receiving end still exists.
   */
  class Channel {
    var queue: seq<string>
    var open: bool

    constructor()
      ensures queue == [] && open
    {
      queue, open := [], true;
    }

    /** Sending fails once the receiver is gone; nothing is queued then. */
    method Send(chord: string) returns (ok: bool)
      modifies this
      ensures ok == old(open) && open == old(open)
      ensures queue == if ok then old(queue) + [chord] else old(queue)
    {
      ok := open;
      if ok {
        queue := queue + [chord];
      }
    }

    /** Receive without blocking: the oldest chord, or nothing when none is queued. */
    method TryRecv() returns (r: Option<string>)
      modifies this
      ensures open == old(open)
      ensures old(queue) == [] ==> r == None && queue == []
      ensures old(queue) != [] ==> r == Some(old(queue)[0]) && queue == old(queue)[1..]
    {
      if queue == [] {
        r := None;
      } else {
        r := Some(queue[0]);
        queue := queue[1..];
      }
    }

    /** Drop the receiving end. */
    method Close()
      modifies this
      ensures !open && queue == old(queue)
    {
      open := false;
    }

    /** Receive until nothing is left: everything queued, in order. */
    method ReceiveAll() returns (received: seq<string>)
      modifies this
      ensures received == old(queue) && queue == [] && open == old(open)
    {
      received := [];
      var next := TryRecv();
      while next.Some?
        invariant open == old(open)
        invariant next.Some? ==> received + [next.value] + queue == old(queue)
        invariant next.None? ==> received == old(queue) && queue == []
        decreases |queue| + (if next.Some? then 1 else 0)
      {
        received := received + [next.value];
        next := TryRecv();
      }
    }
  }

  /** The flag by which the recorder tells the capture worker to stop. */
  class StopFlag {
    var raised: bool

    constructor()
      ensures !raised
    {
      raised := false;
    }

    method Store()
      modifies this
      ensures raised
    {
      raised := true;
    }
  }

  /** The events of the fetches that succeeded, in order; a failed fetch yields nothing. */
  function Fetched(rounds: seq<Option<seq<InputEvent>>>): seq<InputEvent> {
    ConcatMap(rounds, (r: Option<seq<InputEvent>>) => if r.Some? then r.value else [])
  }

  /** One more fetch adds its events, if it succeeded. */
  lemma FetchedSnoc(rounds: seq<Option<seq<InputEvent>>>, i: nat)
    requires i < |rounds|
    ensures Fetched(rounds[..i + 1]) == Fetched(rounds[..i]) + (if rounds[i].Some? then rounds[i].value else [])
  {
    assert rounds[..i + 1] == rounds[..i] + [rounds[i]];
    ConcatMapSnoc(rounds[..i], rounds[i], (r: Option<seq<InputEvent>>) => if r.Some? then r.value else []);
  }

  /**
   * The capture worker's progress after seeing `seen`, starting from modifiers
   * `m0` and queue `q0`: while the receiver exists, the modifiers and the
   * chords sent are those of the events seen; once it is gone, nothing was sent.
   */
  ghost predicate Delivered(m0: Mods, seen: seq<InputEvent>, q0: seq<string>, open: bool, held: Mods, queue: seq<string>) {
    if open then held == CaptureAll(m0, seen).0 && queue == q0 + CaptureAll(m0, seen).1
    else queue == q0
  }

  /** Delivering `seen` and then `events` is delivering `seen + events`. */
  lemma DeliveredAppend(m0: Mods, seen: seq<InputEvent>, events: seq<InputEvent>, open: bool,
                        q0: seq<string>, h1: Mods, q1: seq<string>, h2: Mods, q2: seq<string>)
    requires Delivered(m0, seen, q0, open, h1, q1) && Delivered(h1, events, q1, open, h2, q2)
    ensures Delivered(m0, seen + events, q0, open, h2, q2)
  {
    ScanAppend(m0, seen, events, CaptureStep);
  }

  /**
   * The events of one fetch. Returns false when a send found the receiver
   * gone, which ends the worker; otherwise every chord of the events was sent.
   */
  method CaptureEvents(events: seq<InputEvent>, modifiers: ModifierState, channel: Channel) returns (alive: bool)
    modifies modifiers, channel
    ensures channel.open == old(channel.open) && (channel.open ==> alive)
    ensures Delivered(old(modifiers.Held()), events, old(channel.queue), channel.open, modifiers.Held(), channel.queue)
  {
    ghost var m0 := modifiers.Held();
    for j := 0 to |events|
      invariant channel.open == old(channel.open)
      invariant Delivered(m0, events[..j], old(channel.queue), channel.open, modifiers.Held(), channel.queue)
    {
      var ev := events[j];
      assert events[..j + 1] == events[..j] + [ev];
      ScanSnoc(m0, events[..j], ev, CaptureStep);
      if ev.kind == EV_KEY {
        var pressed := ev.value == 1;
        var isModifier := modifiers.Update(ev.code, pressed);
        if !isModifier && pressed {
          var chord := modifiers.FormatWithKey(ev.code);
          if chord.Some? {
            var ok := channel.Send(chord.value);
            if !ok {
              return false;
            }
          }
        }
      }
    }
    assert events[..|events|] == events;
    return true;
  }

  /**
   * The capture worker. Each element of `rounds` is one fetch from the
   * keyboard: the events read, or None for a read error. The stop flag is
   * checked before every fetch; a send to a dropped receiver ends the worker.
   * While the receiver exists and no stop was asked for, the worker sends
   * exactly the chords of the events fetched.
   */
  method CaptureLoop(rounds: seq<Option<seq<InputEvent>>>, channel: Channel, stop: StopFlag)
    modifies channel
    ensures channel.open == old(channel.open)
    ensures channel.queue == old(channel.queue) +
      (if stop.raised || !channel.open then [] else CaptureAll(NO_MODS, Fetched(rounds)).1)
  {
    var modifiers := new ModifierState();
    ghost var seen: seq<InputEvent> := [];
    for i := 0 to |rounds|
      invariant seen == Fetched(rounds[..i]) && (i > 0 ==> !stop.raised)
      invariant channel.open == old(channel.open)
      invariant Delivered(NO_MODS, seen, old(channel.queue), channel.open, modifiers.Held(), channel.queue)
    {
      if stop.raised {
        return;
      }
      var events: seq<InputEvent> := if rounds[i].Some? then rounds[i].value else [];
      ghost var h1, q1 := modifiers.Held(), channel.queue;
      var alive := CaptureEvents(events, modifiers, channel);
      if !alive {
        return;
      }
      DeliveredAppend(NO_MODS, seen, events, channel.open, old(channel.queue), h1, q1, modifiers.Held(), channel.queue);
      FetchedSnoc(rounds, i);
      seen := seen + events;
    }
    assert rounds[..|rounds|] == rounds;
  }

  /** Everything a capture worker sends while it runs is a well-formed chord. */
  lemma CaptureLoopSendsChords(rounds: seq<Option<seq<InputEvent>>>)
    ensures forall i :: 0 <= i < |CaptureAll(NO_MODS, Fetched(rounds)).1| ==> IsChord(CaptureAll(NO_MODS, Fetched(rounds)).1[i])
  {
    CapturedAreChords(NO_MODS, Fetched(rounds));
  }

  // ---------------------------------------------------------------------------
  // The recorder
  // ---------------------------------------------------------------------------

  /**
   * The recording state. While recording, the captured chords received so
   * far, the receiving end of the capture worker's channel and the worker's
   * stop flag are kept.
   */
  datatype RecordingState =
    | Idle
    | AwaitingGKey(profile: string)
    | Recording(profile: string, gkey: u8, captured: seq<string>, receiver: Channel, stopFlag: StopFlag)

  /** What the main loop is asked to do after a recorder transition. */
  datatype RecordingAction =
    | NoAction
    | EnterAwaiting
    | StartedRecording(gkey: u8)
    | SaveMacro(profile: string, gkey: u8, sequence: string)
    | CancelledEmpty
    | CancelledNoGKey
    | Error(message: string)

  /**
   * The outcome of looking for the keyboard's input device and starting a
   * capture worker on it; device discovery and thread creation are not
   * modelled, so this is an input of the G-key transition.
   */
  datatype CaptureStart = Started | KeyboardNotFound | StartFailed(reason: string)

  /** The action that ends a recording of `keys`: save them as one sequence, or cancel when there are none. */
  function Finish(profile: string, gkey: u8, keys: seq<string>): (r: RecordingAction)
    ensures r == CancelledEmpty <==> keys == []
    ensures r != CancelledEmpty ==> r.SaveMacro? && r.profile == profile && r.gkey == gkey
  {
    if keys == [] then CancelledEmpty else SaveMacro(profile, gkey, Join(keys, ", "))
  }

  /**
   * A saved macro replays as the chords that were recorded: read back as a
   * key sequence, its text gives exactly the recorded chords, in order.
   */
  lemma FinishReplays(profile: string, gkey: u8, keys: seq<string>)
    requires forall i :: 0 <= i < |keys| ==> IsChord(keys[i])
    requires Finish(profile, gkey, keys).SaveMacro?
    ensures SequenceParts(Finish(profile, gkey, keys).sequence) == keys
  {
    SequenceOfJoinedChords(keys);
  }

  /** The message of a failed capture start. */
  function StartError(start: CaptureStart): (r: string)
    requires !start.Started?
    ensures start.KeyboardNotFound? ==> r == "Keyboard device not found"
    ensures start.StartFailed? ==> r == "Failed to start capture: " + start.reason
  {
    match start
    case KeyboardNotFound => "Keyboard device not found"
    case StartFailed(reason) => "Failed to start capture: " + reason
  }

  /** The macro recorder: MR arms it, a G-key starts capturing, MR again finishes. */
  class Recorder {
    var state: RecordingState

    constructor()
      ensures state == Idle
    {
      state := Idle;
    }

    predicate IsRecording()
      reads this
    {
      state.Recording?
    }

    predicate IsAwaiting()
      reads this
    {
      state.AwaitingGKey?
    }

    /** The objects of the running capture, if any. */
    function CaptureObjects(): set<object>
      reads this
    {
      if state.Recording? then {state.receiver, state.stopFlag} else {}
    }

    /** The chords the worker has queued and the recorder has not yet collected. */
    function Queued(): seq<string>
      reads this, CaptureObjects()
    {
      if state.Recording? then state.receiver.queue else []
    }

    /**
     * The MR key: from idle, wait for a G-key; while waiting, cancel; while
     * recording, stop the worker, receive what is still queued, drop the
     * receiver and finish.
     */
    method OnMrPress(currentProfile: string) returns (action: RecordingAction)
      modifies this, CaptureObjects()
      ensures state == if old(state).Idle? then AwaitingGKey(currentProfile) else Idle
      ensures old(state).Idle? ==> action == EnterAwaiting
      ensures old(state).AwaitingGKey? ==> action == CancelledNoGKey
      ensures old(state).Recording? ==>
        && action == Finish(old(state).profile, old(state).gkey, old(state).captured + old(state.receiver.queue))
        && old(state).stopFlag.raised
        && !old(state).receiver.open && old(state).receiver.queue == []
    {
      var prior := state;
      state := Idle;
      match prior
      case Idle =>
        state := AwaitingGKey(currentProfile);
        action := EnterAwaiting;
      case AwaitingGKey(_) =>
        action := CancelledNoGKey;
      case Recording(profile, gkey, captured, receiver, stopFlag) =>
        stopFlag.Store();
        var rest := receiver.ReceiveAll();
        receiver.Close();
        action := Finish(profile, gkey, captured + rest);
    }

    /**
     * A G-key while waiting: start capturing into a fresh channel, or report
     * why that was impossible and fall back to idle. In any other state the
     * key is ignored. The G-key number is not checked.
     */
    method OnGkeyPress(gkey: u8, start: CaptureStart) returns (action: RecordingAction)
      modifies this
      ensures !old(state).AwaitingGKey? ==> state == old(state) && action == NoAction
      ensures old(state).AwaitingGKey? && start.Started? ==>
        && action == StartedRecording(gkey)
        && state.Recording? && state.profile == old(state).profile && state.gkey == gkey && state.captured == []
        && fresh(state.receiver) && fresh(state.stopFlag)
        && state.receiver.open && state.receiver.queue == [] && !state.stopFlag.raised
      ensures old(state).AwaitingGKey? && !start.Started? ==> state == Idle && action == Error(StartError(start))
    {
      var prior := state;
      state := Idle;
      if prior.AwaitingGKey? {
        match start
        case Started =>
          var receiver := new Channel();
          var stopFlag := new StopFlag();
          state := Recording(prior.profile, gkey, [], receiver, stopFlag);
          return StartedRecording(gkey);
        case _ =>
          return Error(StartError(start));
      } else {
        state := prior;
      }
      return NoAction;
    }

    /** While recording, move every queued chord to the captured list; otherwise do nothing. */
    method PollCapturedKeys()
      modifies this, CaptureObjects()
      ensures !old(state).Recording? ==> state == old(state)
      ensures old(state).Recording? ==>
        && state == old(state).(captured := old(state).captured + old(state.receiver.queue))
        && state.receiver.queue == [] && state.receiver.open == old(state.receiver.open)
    {
      if state.Recording? {
        var received := state.receiver.ReceiveAll();
        state := state.(captured := state.captured + received);
      }
    }
  }
}
